/**
 * The AVTransport type definitions: the playback states, the dense index
 * spaces of the state variables and of the actions, and the AVTransport
 * error codes (section 2.4 of the UPnP AVTransport:1 service template).
 */
module TransportDefs {
  import opened Common

  /** The playback states the renderer supports; the two recording states are not members. */
  datatype PlayState = Stopped | Playing | Transitioning | PausedPlayback | NoMediaPresent

  /** The enum value the C compiler gives each state. */
  function StateOrdinal(s: PlayState): nat {
    match s
    case Stopped => 0
    case Playing => 1
    case Transitioning => 2
    case PausedPlayback => 3
    case NoMediaPresent => 4
  }

  const AllStates: seq<PlayState> := [Stopped, Playing, Transitioning, PausedPlayback, NoMediaPresent]

  /** The state with a given enum value, if any. */
  function StateOfOrdinal(n: int): (r: Option<PlayState>)
    ensures r.Some? <==> 0 <= n < |AllStates|
    ensures r.Some? ==> StateOrdinal(r.value) == n
  {
    if 0 <= n < |AllStates| then Some(AllStates[n]) else None
  }

  /** The text a state has in the TransportState variable. */
  function StateName(s: PlayState): string {
    match s
    case Stopped => "STOPPED"
    case Playing => "PLAYING"
    case Transitioning => "TRANSITIONING"
    case PausedPlayback => "PAUSED_PLAYBACK"
    case NoMediaPresent => "NO_MEDIA_PRESENT"
  }

  /** The state whose TransportState text is `name`, if any. */
  function StateOfName(name: string): (r: Option<PlayState>)
    ensures r.Some? ==> StateName(r.value) == name
  {
    if name == "STOPPED" then Some(Stopped)
    else if name == "PLAYING" then Some(Playing)
    else if name == "TRANSITIONING" then Some(Transitioning)
    else if name == "PAUSED_PLAYBACK" then Some(PausedPlayback)
    else if name == "NO_MEDIA_PRESENT" then Some(NoMediaPresent)
    else None
  }

  /** Exactly five states, numbered 0..4 in declaration order. */
  lemma PlayStatesAreFive()
    ensures |AllStates| == 5
    ensures forall s: PlayState :: StateOrdinal(s) < 5 && AllStates[StateOrdinal(s)] == s
    ensures forall i :: 0 <= i < 5 ==> StateOrdinal(AllStates[i]) == i
  {
  }

  /** State names and states correspond one to one; the recording states have no member. */
  lemma StateNamesRoundTrip()
    ensures forall s: PlayState :: StateOfName(StateName(s)) == Some(s)
    ensures StateOfName("RECORDING").None? && StateOfName("PAUSED_RECORDING").None?
  {
  }

  /** The AVTransport state variables: the values of their C enum. */
  newtype TransportVar = i: int | 0 <= i < 30

  const TransportStatus: TransportVar := 0
  const NextAVURI: TransportVar := 1
  const NextAVURIMetaData: TransportVar := 2
  const CurrentTrackMetaData: TransportVar := 3
  const RelativeCounterPosition: TransportVar := 4
  const ArgInstanceID: TransportVar := 5
  const ArgSeekTarget: TransportVar := 6
  const PlaybackStorageMedium: TransportVar := 7
  const RelativeTimePosition: TransportVar := 8
  const PossibleRecordStorageMedia: TransportVar := 9
  const CurrentPlayMode: TransportVar := 10
  const TransportPlaySpeed: TransportVar := 11
  const PossiblePlaybackStorageMedia: TransportVar := 12
  const AbsoluteTimePosition: TransportVar := 13
  const CurrentTrack: TransportVar := 14
  const CurrentTrackURI: TransportVar := 15
  const CurrentTransportActions: TransportVar := 16
  const NumberOfTracks: TransportVar := 17
  const AVTransportURI: TransportVar := 18
  const AbsoluteCounterPosition: TransportVar := 19
  const CurrentRecordQualityMode: TransportVar := 20
  const CurrentMediaDuration: TransportVar := 21
  const ArgSeekMode: TransportVar := 22
  const AVTransportURIMetaData: TransportVar := 23
  const RecordStorageMedium: TransportVar := 24
  const RecordMediumWriteStatus: TransportVar := 25
  const LastChange: TransportVar := 26
  const CurrentTrackDuration: TransportVar := 27
  const TransportState: TransportVar := 28
  const PossibleRecordQualityModes: TransportVar := 29

  /** TRANSPORT_VAR_UNKNOWN: the first index that is not a variable, used as the count. */
  const VarUnknown: nat := 30

  /** The enum value of a variable, as an index into the service's tables. */
  function VarIndex(v: TransportVar): (i: nat)
    ensures i < VarUnknown
  {
    v as nat
  }

  /** The AVTransport actions in the order of their enum. */
  datatype TransportCmd =
    | GetCurrentTransportActions | GetDeviceCapabilities | GetMediaInfo
    | GetPositionInfo | GetTransportInfo | GetTransportSettings | Next | Pause
    | Play | Previous | Seek | SetAVTransportURI | SetPlayMode | Stop

  const AllCmds: seq<TransportCmd> := [
    GetCurrentTransportActions, GetDeviceCapabilities, GetMediaInfo,
    GetPositionInfo, GetTransportInfo, GetTransportSettings, Next, Pause,
    Play, Previous, Seek, SetAVTransportURI, SetPlayMode, Stop]

  /** TRANSPORT_CMD_UNKNOWN: the first index that is not an action, used as the count. */
  const CmdUnknown: nat := 14

  function CmdIndex(c: TransportCmd): (i: nat)
    ensures i < CmdUnknown && AllCmds[i] == c
  {
    match c
    case GetCurrentTransportActions => 0
    case GetDeviceCapabilities => 1
    case GetMediaInfo => 2
    case GetPositionInfo => 3
    case GetTransportInfo => 4
    case GetTransportSettings => 5
    case Next => 6
    case Pause => 7
    case Play => 8
    case Previous => 9
    case Seek => 10
    case SetAVTransportURI => 11
    case SetPlayMode => 12
    case Stop => 13
  }

  /** The action name each command is registered under. */
  function CmdName(c: TransportCmd): string {
    match c
    case GetCurrentTransportActions => "GetCurrentTransportActions"
    case GetDeviceCapabilities => "GetDeviceCapabilities"
    case GetMediaInfo => "GetMediaInfo"
    case GetPositionInfo => "GetPositionInfo"
    case GetTransportInfo => "GetTransportInfo"
    case GetTransportSettings => "GetTransportSettings"
    case Next => "Next"
    case Pause => "Pause"
    case Play => "Play"
    case Previous => "Previous"
    case Seek => "Seek"
    case SetAVTransportURI => "SetAVTransportURI"
    case SetPlayMode => "SetPlayMode"
    case Stop => "Stop"
  }

  /** The command registered under an action name, by exact match. */
  function CmdOfName(name: string): (r: Option<TransportCmd>)
    ensures r.Some? ==> CmdName(r.value) == name
    ensures r.None? ==> forall c: TransportCmd :: CmdName(c) != name
  {
    if name == "GetCurrentTransportActions" then Some(GetCurrentTransportActions)
    else if name == "GetDeviceCapabilities" then Some(GetDeviceCapabilities)
    else if name == "GetMediaInfo" then Some(GetMediaInfo)
    else if name == "GetPositionInfo" then Some(GetPositionInfo)
    else if name == "GetTransportInfo" then Some(GetTransportInfo)
    else if name == "GetTransportSettings" then Some(GetTransportSettings)
    else if name == "Next" then Some(Next)
    else if name == "Pause" then Some(Pause)
    else if name == "Play" then Some(Play)
    else if name == "Previous" then Some(Previous)
    else if name == "Seek" then Some(Seek)
    else if name == "SetAVTransportURI" then Some(SetAVTransportURI)
    else if name == "SetPlayMode" then Some(SetPlayMode)
    else if name == "Stop" then Some(Stop)
    else None
  }

  /** The action indices are dense and the optional recording and gapless actions are absent. */
  lemma CmdIndicesDense()
    ensures |AllCmds| == CmdUnknown
    ensures forall i :: 0 <= i < CmdUnknown ==> CmdIndex(AllCmds[i]) == i
    ensures forall c: TransportCmd :: AllCmds[CmdIndex(c)] == c
    ensures CmdOfName("SetNextAVTransportURI").None?
    ensures CmdOfName("Record").None?
    ensures CmdOfName("SetRecordQualityMode").None?
  {
  }

  /** The AVTransport error conditions, in code order. */
  datatype TransportError =
    | TransitionNotAllowed | NoContents | ReadError | PlayFormatNotSupported
    | TransportLocked | WriteError | MediaWriteProtected | RecordFormatNotSupported
    | MediaFull | SeekModeNotSupported | IllegalSeekTarget | PlayModeNotSupported
    | RecordQualityNotSupported | IllegalMimeType | ContentBusy | ResourceNotFound
    | PlaySpeedNotSupported | InvalidInstanceID

  const AllErrors: seq<TransportError> := [
    TransitionNotAllowed, NoContents, ReadError, PlayFormatNotSupported,
    TransportLocked, WriteError, MediaWriteProtected, RecordFormatNotSupported,
    MediaFull, SeekModeNotSupported, IllegalSeekTarget, PlayModeNotSupported,
    RecordQualityNotSupported, IllegalMimeType, ContentBusy, ResourceNotFound,
    PlaySpeedNotSupported, InvalidInstanceID]

  /** The numeric UPNP_TRANSPORT_E_* value of each error. */
  function ErrorCode(e: TransportError): int {
    match e
    case TransitionNotAllowed => 701
    case NoContents => 702
    case ReadError => 703
    case PlayFormatNotSupported => 704
    case TransportLocked => 705
    case WriteError => 706
    case MediaWriteProtected => 707
    case RecordFormatNotSupported => 708
    case MediaFull => 709
    case SeekModeNotSupported => 710
    case IllegalSeekTarget => 711
    case PlayModeNotSupported => 712
    case RecordQualityNotSupported => 713
    case IllegalMimeType => 714
    case ContentBusy => 715
    case ResourceNotFound => 716
    case PlaySpeedNotSupported => 717
    case InvalidInstanceID => 718
  }

  /** The error with a given code, if any. */
  function ErrorOfCode(code: int): (r: Option<TransportError>)
    ensures r.Some? <==> 701 <= code <= 718
    ensures r.Some? ==> ErrorCode(r.value) == code
  {
    if 701 <= code <= 718 then Some(AllErrors[code - 701]) else None
  }

  /** The eighteen codes are distinct and fill 701..718 with no gap. */
  lemma ErrorCodesConsecutive()
    ensures |AllErrors| == 18
    ensures forall i :: 0 <= i < 18 ==> ErrorCode(AllErrors[i]) == 701 + i
    ensures forall e: TransportError :: 701 <= ErrorCode(e) <= 718 && ErrorOfCode(ErrorCode(e)) == Some(e)
    ensures forall e: TransportError, f: TransportError :: ErrorCode(e) == ErrorCode(f) ==> e == f
  {
  }
}
