/**
 * The AVTransport action handlers. Each handler is a pure function of the
 * service state (the transport and the MPD adapter's own variables), the
 * action event and what the MPD backend answers, and returns its return
 * value, the new state, the event with any error or outputs recorded, the
 * LastChange documents it notified and the commands it sent to MPD.
 */
module AvTransport {
  import opened Common
  import opened TransportDefs
  import opened TransportStore
  import opened Device
  import opened Mpd

  /** Everything the handlers read and write: the AVTransport service and the MPD adapter. */
  datatype AvState = AvState(transport: Transport, player: Player)

  /** The store has its 30 slots and the early variables are set, as after transport_init. */
  predicate Ready(a: AvState) {
    Valid(a.transport) && Initialized(a.transport.store)
  }

  /**
   * What the MPD backend answers during one action:
   * - `connected`: the MPD connection is up (check_mpd_connection passes, and output_set_uri finds it);
   * - `accepted`: the player command (play, pause, stop, next, previous) succeeds;
   * - `refresh`: the status read back after a successful player command (None when that exchange fails);
   * - `status`: the status output_seekto and output_update_position read (None when unavailable);
   * - `seekOk`, `listOk`: the seek command and the play-mode command list succeed;
   * - `durationOf`: the `duration` attribute the metadata parser finds in a document.
   */
  datatype Backend = Backend(
    connected: bool,
    accepted: bool,
    refresh: Option<StatusReply>,
    status: Option<MpdStatus>,
    seekOk: bool,
    listOk: bool,
    durationOf: string -> Option<string>)

  /** A command the handlers send to MPD. */
  datatype Sent =
    | SendPlay | SendPause | SendStop | SendNext | SendPrevious
    | SendSeek(songId: int, secs: int)
    | SendModes(flags: ModeFlags)
    | SendUri(uri: string)

  /** A handler's outcome. */
  datatype Step = Step(rc: int, av: AvState, ev: ActionEvent, notified: seq<string>, sent: seq<Sent>)

  /** The error every handler records for a request that is not for instance 0. */
  function InstanceError(ev: ActionEvent): (r: ActionEvent)
    ensures r.status == -1 && r.req.errStr == "ID non-zero invalid" && r.req.result.None?
  {
    SetError(ev, ErrorCode(InvalidInstanceID), "ID non-zero invalid")
  }

  /** A request that is not for instance 0 is refused before any state or backend is touched. */
  predicate GuardsInstance(a: AvState, ev: ActionEvent, r: Step) {
    !InstanceZero(ev.req.doc) ==>
      && r.rc == -1 && r.av == a && r.notified == [] && r.sent == []
      && r.ev.status == -1 && r.ev.req.errStr == "ID non-zero invalid"
  }

  /** Without a connection the handler gives up with -1, recording no error and changing nothing. */
  predicate GivesUpUnconnected(a: AvState, ev: ActionEvent, r: Step) {
    && r.rc == -1 && r.av == a && r.notified == [] && r.sent == [] && r.ev == ev
  }

  /** Nothing happened: success with no change, no notification and no command. */
  predicate NoOp(a: AvState, ev: ActionEvent, r: Step) {
    r == Step(0, a, ev, [], [])
  }

  /** The transition was refused with error 701 and nothing changed. */
  predicate NotAllowed(a: AvState, r: Step) {
    && r.av == a && r.notified == [] && r.sent == []
    && r.ev.status == -1 && r.ev.req.errStr == "Transition not allowed"
  }

  /** The backend rejected `cmd`: -1 with `msg` recorded and nothing changed. */
  predicate BackendFailed(a: AvState, r: Step, cmd: Sent, msg: string) {
    && r.rc == -1 && r.av == a && r.notified == [] && r.sent == [cmd]
    && r.ev.status == -1 && r.ev.req.errStr == msg
  }

  /**
   * `cmd` succeeded and the transport entered `st`: the state and its text
   * agree, and one LastChange document reporting the new TransportState
   * was notified and kept.
   */
  predicate Entered(r: Step, st: PlayState, cmd: Sent)
    requires Ready(r.av)
  {
    && r.rc == 0 && r.sent == [cmd]
    && r.av.transport.cell == Known(st)
    && Get(r.av.transport.store, TransportState) == Some(StateName(st))
    && r.notified == [RenderEvent([Entry(VarName(TransportState), StateName(st))])]
    && Get(r.av.transport.store, LastChange) == Some(r.notified[0])
  }

  /** With no status read back, only TransportState and LastChange differ, and the player is as it was. */
  predicate OnlyStateChanged(a: AvState, r: Step)
    requires Ready(a) && Ready(r.av)
  {
    && r.av.player == a.player
    && forall i :: 0 <= i < VarUnknown && i != VarIndex(TransportState) && i != VarIndex(LastChange) ==>
         r.av.transport.store[i] == a.transport.store[i]
  }

  /** update_mpd_status after a successful player command. */
  function Refresh(a: AvState, reply: Option<StatusReply>): (r: AvState)
    requires Ready(a)
    ensures Ready(r)
    ensures reply.None? ==> r == a
    ensures Mirrors(a.transport) ==> Mirrors(r.transport)
    ensures forall v: TransportVar :: !StatusVar(v) ==> Get(r.transport.store, v) == Get(a.transport.store, v)
  {
    var (t, p) := UpdateMpdStatus(a.transport, a.player, reply);
    AvState(t, p)
  }

  /** The state variable set and the state change notified through transport_change_var. */
  function Enter(a: AvState, st: PlayState): (r: (AvState, string))
    requires Ready(a)
    ensures Ready(r.0) && Mirrors(r.0.transport) && r.0.player == a.player
    ensures r.0.transport.cell == Known(st)
    ensures r.1 == RenderEvent([Entry(VarName(TransportState), StateName(st))])
    ensures Get(r.0.transport.store, LastChange) == Some(r.1)
    ensures forall i :: 0 <= i < VarUnknown && i != VarIndex(TransportState) && i != VarIndex(LastChange) ==>
              r.0.transport.store[i] == a.transport.store[i]
  {
    var c := ChangeVar(a.transport.store, TransportState, StateName(st));
    (AvState(Transport(Known(st), c.store), a.player), c.payload)
  }

  /** A successful player command: the status is read back, then the handler's own state takes over. */
  function Succeeded(a: AvState, ev: ActionEvent, b: Backend, st: PlayState, cmd: Sent): (r: Step)
    requires Ready(a)
    ensures Ready(r.av) && Entered(r, st, cmd) && r.ev == ev
    ensures b.refresh.None? ==> OnlyStateChanged(a, r)
  {
    var (av, payload) := Enter(Refresh(a, b.refresh), st);
    Step(0, av, ev, [payload], [cmd])
  }

  /**
   * xstop: STOPPED is a no-op; PLAYING, TRANSITIONING and PAUSED_PLAYBACK
   * stop through the backend; NO_MEDIA_PRESENT records 701 yet returns 0.
   * In the initial unknown state nothing happens.
   */
  function HandleStop(a: AvState, ev: ActionEvent, b: Backend): (r: Step)
    requires Ready(a)
    ensures Ready(r.av) && GuardsInstance(a, ev, r)
    ensures Mirrors(a.transport) ==> Mirrors(r.av.transport)
    ensures InstanceZero(ev.req.doc) ==>
      var cell := a.transport.cell;
      && (!b.connected ==> GivesUpUnconnected(a, ev, r))
      && (b.connected && cell in {Unknown, Known(Stopped)} ==> NoOp(a, ev, r))
      && (b.connected && cell == Known(NoMediaPresent) ==> r.rc == 0 && NotAllowed(a, r))
      && (b.connected && cell in {Known(Playing), Known(Transitioning), Known(PausedPlayback)} ==>
            && (!b.accepted ==> BackendFailed(a, r, SendStop, "Player Stop failed"))
            && (b.accepted ==> Entered(r, Stopped, SendStop))
            && (b.accepted && b.refresh.None? ==> OnlyStateChanged(a, r)))
  {
    var id := ObtainInstanceId(ev);
    if id.rc != 0 then Step(-1, a, InstanceError(id.ev), [], [])
    else if !b.connected then Step(-1, a, id.ev, [], [])
    else
      match a.transport.cell
      case Unknown => Step(0, a, id.ev, [], [])
      case Known(st) =>
        match st
        case Stopped => Step(0, a, id.ev, [], [])
        case NoMediaPresent =>
          Step(0, a, SetError(id.ev, ErrorCode(TransitionNotAllowed), "Transition not allowed"), [], [])
        case _ =>
          if !b.accepted then
            Step(-1, a, SetError(id.ev, ErrorCode(NoContents), "Player Stop failed"), [], [SendStop])
          else Succeeded(a, id.ev, b, Stopped, SendStop)
  }

  /**
   * xpause: PLAYING pauses and PAUSED_PLAYBACK resumes, each through the
   * backend; STOPPED is a no-op; TRANSITIONING and NO_MEDIA_PRESENT record
   * 701 yet return 0. In the initial unknown state nothing happens.
   */
  function HandlePause(a: AvState, ev: ActionEvent, b: Backend): (r: Step)
    requires Ready(a)
    ensures Ready(r.av) && GuardsInstance(a, ev, r)
    ensures Mirrors(a.transport) ==> Mirrors(r.av.transport)
    ensures InstanceZero(ev.req.doc) ==>
      var cell := a.transport.cell;
      && (!b.connected ==> GivesUpUnconnected(a, ev, r))
      && (b.connected && cell in {Unknown, Known(Stopped)} ==> NoOp(a, ev, r))
      && (b.connected && cell in {Known(Transitioning), Known(NoMediaPresent)} ==> r.rc == 0 && NotAllowed(a, r))
      && (b.connected && cell == Known(Playing) ==>
            && (!b.accepted ==> BackendFailed(a, r, SendPause, "Player Pause failed"))
            && (b.accepted ==> Entered(r, PausedPlayback, SendPause)))
      && (b.connected && cell == Known(PausedPlayback) ==>
            && (!b.accepted ==> BackendFailed(a, r, SendPlay, "Player Start failed"))
            && (b.accepted ==> Entered(r, Playing, SendPlay)))
      && (b.connected && b.accepted && b.refresh.None? && cell in {Known(Playing), Known(PausedPlayback)} ==>
            OnlyStateChanged(a, r))
  {
    var id := ObtainInstanceId(ev);
    if id.rc != 0 then Step(-1, a, InstanceError(id.ev), [], [])
    else if !b.connected then Step(-1, a, id.ev, [], [])
    else
      match a.transport.cell
      case Unknown => Step(0, a, id.ev, [], [])
      case Known(st) =>
        match st
        case Stopped => Step(0, a, id.ev, [], [])
        case Playing =>
          if !b.accepted then
            Step(-1, a, SetError(id.ev, ErrorCode(NoContents), "Player Pause failed"), [], [SendPause])
          else Succeeded(a, id.ev, b, PausedPlayback, SendPause)
        case PausedPlayback =>
          if !b.accepted then
            Step(-1, a, SetError(id.ev, ErrorCode(NoContents), "Player Start failed"), [], [SendPlay])
          else Succeeded(a, id.ev, b, Playing, SendPlay)
        case _ =>
          Step(0, a, SetError(id.ev, ErrorCode(TransitionNotAllowed), "Transition not allowed"), [], [])
  }

  /**
   * xplay: PLAYING is a no-op; STOPPED and PAUSED_PLAYBACK start through the
   * backend; NO_MEDIA_PRESENT and TRANSITIONING record 701 and return -1.
   * In the initial unknown state nothing happens.
   */
  function HandlePlay(a: AvState, ev: ActionEvent, b: Backend): (r: Step)
    requires Ready(a)
    ensures Ready(r.av) && GuardsInstance(a, ev, r)
    ensures Mirrors(a.transport) ==> Mirrors(r.av.transport)
    ensures InstanceZero(ev.req.doc) ==>
      var cell := a.transport.cell;
      && (!b.connected ==> GivesUpUnconnected(a, ev, r))
      && (b.connected && cell in {Unknown, Known(Playing)} ==> NoOp(a, ev, r))
      && (b.connected && cell in {Known(NoMediaPresent), Known(Transitioning)} ==> r.rc == -1 && NotAllowed(a, r))
      && (b.connected && cell in {Known(Stopped), Known(PausedPlayback)} ==>
            && (!b.accepted ==> BackendFailed(a, r, SendPlay, "Player Start failed"))
            && (b.accepted ==> Entered(r, Playing, SendPlay))
            && (b.accepted && b.refresh.None? ==> OnlyStateChanged(a, r)))
  {
    var id := ObtainInstanceId(ev);
    if id.rc != 0 then Step(-1, a, InstanceError(id.ev), [], [])
    else if !b.connected then Step(-1, a, id.ev, [], [])
    else
      match a.transport.cell
      case Unknown => Step(0, a, id.ev, [], [])
      case Known(st) =>
        match st
        case Playing => Step(0, a, id.ev, [], [])
        case NoMediaPresent =>
          Step(-1, a, SetError(id.ev, ErrorCode(TransitionNotAllowed), "Transition not allowed"), [], [])
        case Transitioning =>
          Step(-1, a, SetError(id.ev, ErrorCode(TransitionNotAllowed), "Transition not allowed"), [], [])
        case _ =>
          if !b.accepted then
            Step(-1, a, SetError(id.ev, ErrorCode(NoContents), "Player Start failed"), [], [SendPlay])
          else Succeeded(a, id.ev, b, Playing, SendPlay)
  }

  /**
   * xnext and xprevious: the backend moves within the queue and the status
   * is read back; a rejection records 701. The handler sets no state itself.
   */
  function HandleSkip(a: AvState, ev: ActionEvent, b: Backend, cmd: Sent, msg: string): (r: Step)
    requires Ready(a)
    ensures Ready(r.av) && GuardsInstance(a, ev, r) && r.notified == []
    ensures Mirrors(a.transport) ==> Mirrors(r.av.transport)
    ensures InstanceZero(ev.req.doc) ==>
      && (!b.connected ==> GivesUpUnconnected(a, ev, r))
      && (b.connected && !b.accepted ==> BackendFailed(a, r, cmd, msg))
      && (b.connected && b.accepted ==> r.rc == 0 && r.ev == ev && r.sent == [cmd] && r.av == Refresh(a, b.refresh))
  {
    var id := ObtainInstanceId(ev);
    if id.rc != 0 then Step(-1, a, InstanceError(id.ev), [], [])
    else if !b.connected then Step(-1, a, id.ev, [], [])
    else if !b.accepted then Step(-1, a, SetError(id.ev, ErrorCode(TransitionNotAllowed), msg), [], [cmd])
    else Step(0, Refresh(a, b.refresh), id.ev, [], [cmd])
  }

  /**
   * xseek: Unit and Target must be present (Unit is read but not used);
   * the backend seeks the current song to the clamped target, and any
   * failure records 711. Seeking changes no transport state.
   */
  function HandleSeek(a: AvState, ev: ActionEvent, b: Backend): (r: Step)
    requires Ready(a)
    ensures r.av == a && r.notified == [] && GuardsInstance(a, ev, r)
    ensures InstanceZero(ev.req.doc) && (ArgText(ev.req.doc, "Unit").None? || ArgText(ev.req.doc, "Target").None?) ==>
              r.rc == -1 && r.sent == [] && r.ev.status == -1
    ensures InstanceZero(ev.req.doc) && ArgText(ev.req.doc, "Unit").Some? && ArgText(ev.req.doc, "Target").Some? ==>
      var target := ArgText(ev.req.doc, "Target").value;
      && (!b.connected ==> GivesUpUnconnected(a, ev, r))
      && (b.connected && (b.status.None? || b.status.value.state == MpdStop) ==>
            r.rc == -1 && r.sent == [] && r.ev.req.errStr == "Player Seek failed")
      && (b.connected && b.status.Some? && b.status.value.state != MpdStop ==>
            && r.sent == [SendSeek(b.status.value.songId, ClampSeek(ParseTimeToSecs(Some(target)), a.player.trackDuration))]
            && (b.seekOk ==> r.rc == 0 && r.ev == ev)
            && (!b.seekOk ==> r.rc == -1 && r.ev.req.errStr == "Player Seek failed"))
  {
    var id := ObtainInstanceId(ev);
    if id.rc != 0 then Step(-1, a, InstanceError(id.ev), [], [])
    else
      var unit := GetString(id.ev, "Unit");
      if unit.rc.None? then Step(-1, a, unit.ev, [], [])
      else
        var target := GetString(unit.ev, "Target");
        if target.rc.None? then Step(-1, a, target.ev, [], [])
        else if !b.connected then Step(-1, a, target.ev, [], [])
        else
          var out := OutputSeekTo(true, b.status, target.rc.value, a.player.trackDuration, b.seekOk);
          var sent := if out.seek.Some? then [SendSeek(out.seek.value.0, out.seek.value.1)] else [];
          if out.rc != 0 then
            Step(-1, a, SetError(target.ev, ErrorCode(IllegalSeekTarget), "Player Seek failed"), [], sent)
          else Step(0, a, target.ev, [], sent)
  }

  /**
   * xplaymode: the backend switches modes; a rejection (an unknown mode name
   * included) records 712 and leaves CurrentPlayMode alone, a success stores
   * the new mode and notifies it. A missing NewPlayMode reaches the backend
   * as NULL, which the adapter dereferences: the source demands it present
   * whenever the connection check passes.
   */
  function HandleSetPlayMode(a: AvState, ev: ActionEvent, b: Backend): (r: Step)
    requires Ready(a)
    requires InstanceZero(ev.req.doc) && b.connected ==> ArgText(ev.req.doc, "NewPlayMode").Some?
    ensures Ready(r.av) && GuardsInstance(a, ev, r)
    ensures InstanceZero(ev.req.doc) && !b.connected ==> r.rc == -1 && r.av == a && r.sent == [] && r.notified == []
    ensures InstanceZero(ev.req.doc) && b.connected ==>
      var mode := ArgText(ev.req.doc, "NewPlayMode").value;
      && r.sent == (match PlayModeFlags(mode) case Some(f) => [SendModes(f)] case None => [])
      && (r.rc == 0 <==> PlayModeFlags(mode).Some? && b.listOk)
      && (r.rc != 0 ==> r.rc == -1 && r.av == a && r.notified == [] && r.ev.req.errStr == "Set playmode failed")
      && (r.rc == 0 ==> r.av == ChangeMode(a, mode).0 && r.notified == [ChangeMode(a, mode).1])
  {
    var id := ObtainInstanceId(ev);
    if id.rc != 0 then Step(-1, a, InstanceError(id.ev), [], [])
    else
      var mode := GetString(id.ev, "NewPlayMode");
      if !b.connected then Step(-1, a, mode.ev, [], [])
      else
        var out := OutputPlaymode(true, mode.rc.value, b.listOk);
        var sent := if out.sent.Some? then [SendModes(out.sent.value)] else [];
        if out.rc != 0 then
          Step(out.rc, a, SetError(mode.ev, ErrorCode(PlayModeNotSupported), "Set playmode failed"), [], sent)
        else
          var (av, payload) := ChangeMode(a, mode.rc.value);
          Step(0, av, mode.ev, [payload], sent)
  }

  /** The new play mode stored and notified through transport_change_var. */
  function ChangeMode(a: AvState, mode: string): (r: (AvState, string))
    requires Ready(a)
    ensures Ready(r.0) && r.0.transport.cell == a.transport.cell && r.0.player == a.player
    ensures Mirrors(a.transport) ==> Mirrors(r.0.transport)
    ensures Get(r.0.transport.store, CurrentPlayMode) == Some(mode)
    ensures r.1 == RenderEvent([Entry(VarName(CurrentPlayMode), mode)])
    ensures Get(r.0.transport.store, LastChange) == Some(r.1)
    ensures forall i :: 0 <= i < VarUnknown && i != VarIndex(CurrentPlayMode) && i != VarIndex(LastChange) ==>
              r.0.transport.store[i] == a.transport.store[i]
  {
    var c := ChangeVar(a.transport.store, CurrentPlayMode, mode);
    assert Get(c.store, TransportState) == Get(a.transport.store, TransportState);
    (AvState(Transport(a.transport.cell, c.store), a.player), c.payload)
  }

  /** The duration the metadata parser finds; an empty document has none. */
  function MetadataDuration(meta: string, b: Backend): (d: Option<string>)
    ensures meta == "" ==> d.None?
    ensures meta != "" ==> d == b.durationOf(meta)
  {
    if meta == "" then None else b.durationOf(meta)
  }

  /**
   * set_avtransport_uri: the URI goes to the backend when MPD is
   * connected (output_set_uri does not reconnect) and is stored verbatim
   * either way; the metadata, when present, is stored and may supply the
   * track duration; in every case the transport ends STOPPED and the
   * composite LastChange document is notified. Missing metadata makes the
   * handler return -1 after all of that.
   */
  function HandleSetUri(a: AvState, ev: ActionEvent, b: Backend): (r: Step)
    requires Ready(a)
    ensures Ready(r.av) && GuardsInstance(a, ev, r) && r.av.player == a.player
    ensures Mirrors(a.transport) ==> Mirrors(r.av.transport)
    ensures InstanceZero(ev.req.doc) && ArgText(ev.req.doc, "CurrentURI").None? ==>
              r.rc == -1 && r.av == a && r.sent == [] && r.notified == [] && r.ev.status == -1
    ensures InstanceZero(ev.req.doc) && ArgText(ev.req.doc, "CurrentURI").Some? ==>
      var uri := ArgText(ev.req.doc, "CurrentURI").value;
      var meta := ArgText(ev.req.doc, "CurrentURIMetaData");
      var u := UriStored(a.transport.store, uri, meta, b);
      && r.av.transport == Transport(Known(Stopped), u.0) && r.notified == [u.1]
      && r.sent == (if b.connected then [SendUri(uri)] else [])
      && (r.rc == 0 <==> meta.Some?) && (meta.None? ==> r.ev.status == -1)
  {
    var id := ObtainInstanceId(ev);
    if id.rc != 0 then Step(-1, a, InstanceError(id.ev), [], [])
    else
      var uri := GetString(id.ev, "CurrentURI");
      if uri.rc.None? then Step(-1, a, uri.ev, [], [])
      else
        var meta := GetString(uri.ev, "CurrentURIMetaData");
        var (stopped, payload) := UriStored(a.transport.store, uri.rc.value, meta.rc, b);
        Step(if meta.rc.None? then -1 else 0, AvState(Transport(Known(Stopped), stopped), a.player), meta.ev,
             [payload], if b.connected then [SendUri(uri.rc.value)] else [])
  }

  /**
   * The store after set_avtransport_uri, with the document it notified:
   * the URI kept verbatim, the metadata and the duration found in it when
   * there is metadata, TransportState "STOPPED", and LastChange holding the
   * composite document built from the result.
   */
  function UriStored(s: Store, uri: string, meta: Option<string>, b: Backend): (r: (Store, string))
    requires ValidStore(s) && Initialized(s)
    ensures ValidStore(r.0) && Initialized(r.0)
    ensures Get(r.0, TransportState) == Some("STOPPED") && Get(r.0, AVTransportURI) == Some(uri)
    ensures meta.Some? ==> Get(r.0, AVTransportURIMetaData) == meta
    ensures meta.Some? && MetadataDuration(meta.value, b).Some? ==>
              Get(r.0, CurrentTrackDuration) == MetadataDuration(meta.value, b)
    ensures meta.None? || MetadataDuration(meta.value, b).None? ==>
              Get(r.0, CurrentTrackDuration) == Get(s, CurrentTrackDuration)
    ensures meta.None? ==> Get(r.0, AVTransportURIMetaData) == Get(s, AVTransportURIMetaData)
    ensures forall v: TransportVar :: !UriVar(v) && v != TransportState && v != LastChange ==> Get(r.0, v) == Get(s, v)
    ensures r.1 == StateLastChange(r.0) && Get(r.0, LastChange) == Some(r.1)
  {
    var stored := StoreRequest(s, uri, meta, b);
    var r := StopAndNotify(stored);
    assert Get(r.0, AVTransportURI) == Get(stored, AVTransportURI);
    assert Get(r.0, AVTransportURIMetaData) == Get(stored, AVTransportURIMetaData);
    assert Get(r.0, CurrentTrackDuration) == Get(stored, CurrentTrackDuration);
    r
  }

  /** The variables set_avtransport_uri stores before stopping. */
  predicate UriVar(v: TransportVar) {
    v == AVTransportURI || v == AVTransportURIMetaData || v == CurrentTrackDuration
  }

  /**
   * The stores set_avtransport_uri makes before stopping: the URI, then,
   * when there is metadata, the metadata and the duration found in it.
   */
  function StoreRequest(s: Store, uri: string, meta: Option<string>, b: Backend): (r: Store)
    requires ValidStore(s) && Initialized(s)
    ensures ValidStore(r) && Initialized(r)
    ensures Get(r, AVTransportURI) == Some(uri)
    ensures meta.Some? ==> Get(r, AVTransportURIMetaData) == meta
    ensures meta.Some? && MetadataDuration(meta.value, b).Some? ==> Get(r, CurrentTrackDuration) == MetadataDuration(meta.value, b)
    ensures meta.None? ==> forall i :: 0 <= i < VarUnknown && i != VarIndex(AVTransportURI) ==> r[i] == s[i]
    ensures meta.Some? && MetadataDuration(meta.value, b).None? ==> Get(r, CurrentTrackDuration) == Get(s, CurrentTrackDuration)
    ensures forall v: TransportVar :: !UriVar(v) ==> Get(r, v) == Get(s, v)
  {
    var s1 := SetVar(s, AVTransportURI, Some(uri));
    match meta
    case None => s1
    case Some(m) =>
      var s2 := SetVar(s1, AVTransportURIMetaData, meta);
      SetVar(s2, CurrentTrackDuration, MetadataDuration(m, b))
  }

  /**
   * The end of set_avtransport_uri: TransportState becomes "STOPPED" and
   * the composite document, built after that, is stored and notified.
   */
  function StopAndNotify(s: Store): (r: (Store, string))
    requires ValidStore(s) && Initialized(s)
    ensures ValidStore(r.0) && Initialized(r.0)
    ensures Get(r.0, TransportState) == Some("STOPPED")
    ensures r.1 == StateLastChange(r.0) && Get(r.0, LastChange) == Some(r.1)
    ensures forall i :: 0 <= i < VarUnknown && i != VarIndex(TransportState) && i != VarIndex(LastChange) ==> r.0[i] == s[i]
  {
    var stopped := SetVar(s, TransportState, Some("STOPPED"));
    var payload := StateLastChange(stopped);
    var notified := Notify(stopped, payload);
    StateLastChangeIgnoresLastChange(stopped, notified);
    (notified, payload)
  }

  /** Reading a variable through the framework: its value, else its default. */
  function Read(s: Store, v: TransportVar): (text: string)
    requires ValidStore(s)
    ensures Get(s, v).Some? ==> text == Get(s, v).value
    ensures Get(s, v).None? ==> text == DefaultValue(v)
  {
    Get(s, v).GetOr(DefaultValue(v))
  }

  /** One output of a getter: the variable read and the name it is returned under. */
  datatype Output = Output(v: TransportVar, name: string)

  /** The append steps of a getter over the transport's variables. */
  function Appends(outs: seq<Output>): (items: seq<Append>)
    ensures |items| == |outs|
    ensures forall k :: 0 <= k < |outs| ==> items[k] == Append(VarIndex(outs[k].v), outs[k].name)
  {
    seq(|outs|, k requires 0 <= k < |outs| => Append(VarIndex(outs[k].v), outs[k].name))
  }

  /** What a successful getter returns: each listed variable's current text under its name. */
  function Answers(s: Store, outs: seq<Output>): (r: seq<OutArg>)
    requires ValidStore(s)
    ensures |r| == |outs|
    ensures forall k :: 0 <= k < |outs| ==> r[k] == OutArg(outs[k].name, Read(s, outs[k].v))
  {
    seq(|outs|, k requires 0 <= k < |outs| => OutArg(outs[k].name, Read(s, outs[k].v)))
  }

  /**
   * A getter's append chain over the transport store: started cleanly it
   * returns 0 and adds the variables' texts in order; started after an
   * error it adds nothing and returns -1.
   */
  lemma ChainAnswers(s: Store, ev: ActionEvent, outs: seq<Output>)
    requires ValidStore(s) && |outs| > 0
    ensures ev.status == 0 ==>
              AppendChain(Table(s), ev, Appends(outs))
              == Ret(0, ev.(req := ev.req.(result := Some(ev.req.result.GetOr([]) + Answers(s, outs)))))
    ensures ev.status != 0 ==> AppendChain(Table(s), ev, Appends(outs)) == Ret(-1, ev)
  {
    var items := Appends(outs);
    AppendChainOutputs(Table(s), ev, items);
    if ev.status == 0 {
      forall k | 0 <= k < |outs|
        ensures Outputs(Table(s), items)[k] == Answers(s, outs)[k]
      {
        TableReads(s, outs[k].v);
      }
      assert Outputs(Table(s), items) == Answers(s, outs);
    }
  }

  /**
   * The shape every getter shares: a request not for instance 0 records
   * 718 and returns -1 (after the append chain, which then adds nothing,
   * when `continueOnBadId`); otherwise the chain lists `outs`.
   */
  function Getter(s: Store, ev: ActionEvent, outs: seq<Output>, continueOnBadId: bool): (r: Ret<int>)
    requires ValidStore(s) && |outs| > 0
    ensures !InstanceZero(ev.req.doc) ==>
              r.rc == -1 && r.ev.status == -1 && r.ev.req.errStr == "ID non-zero invalid" && r.ev.req.result.None?
    ensures InstanceZero(ev.req.doc) && ev.status == 0 ==>
              r.rc == 0 && r.ev == ev.(req := ev.req.(result := Some(ev.req.result.GetOr([]) + Answers(s, outs))))
    ensures InstanceZero(ev.req.doc) && ev.status != 0 ==> r == Ret(-1, ev)
  {
    var id := ObtainInstanceId(ev);
    ChainAnswers(s, id.ev, outs);
    if id.rc != 0 then
      var bad := InstanceError(id.ev);
      if continueOnBadId then
        ChainAnswers(s, bad, outs);
        AppendChain(Table(s), bad, Appends(outs))
      else Ret(-1, bad)
    else AppendChain(Table(s), id.ev, Appends(outs))
  }

  /** The outputs of GetMediaInfo; PlayMedium reads the possible record media. */
  function MediaInfoOutputs(): (outs: seq<Output>)
    ensures |outs| == 9
  {
    [Output(NumberOfTracks, "NrTracks"), Output(CurrentMediaDuration, "MediaDuration"),
     Output(AVTransportURI, "CurrentURI"), Output(AVTransportURIMetaData, "CurrentURIMetaData"),
     Output(NextAVURI, "NextURI"), Output(NextAVURIMetaData, "NextURIMetaData"),
     Output(PossibleRecordStorageMedia, "PlayMedium"), Output(RecordStorageMedium, "RecordMedium"),
     Output(RecordMediumWriteStatus, "WriteStatus")]
  }

  /** The outputs of GetTransportInfo. */
  function TransportInfoOutputs(): (outs: seq<Output>)
    ensures |outs| == 3
  {
    [Output(TransportState, "CurrentTransportState"), Output(TransportStatus, "CurrentTransportStatus"),
     Output(TransportPlaySpeed, "CurrentSpeed")]
  }

  /** The outputs of GetTransportSettings. */
  function TransportSettingsOutputs(): (outs: seq<Output>)
    ensures |outs| == 2
  {
    [Output(CurrentPlayMode, "CurrentPlayMode"), Output(CurrentRecordQualityMode, "CurrentRecordQualityMode")]
  }

  /** The outputs of GetPositionInfo. */
  function PositionInfoOutputs(): (outs: seq<Output>)
    ensures |outs| == 8
  {
    [Output(CurrentTrack, "Track"), Output(CurrentTrackDuration, "TrackDuration"),
     Output(CurrentTrackMetaData, "TrackMetaData"), Output(CurrentTrackURI, "TrackURI"),
     Output(RelativeTimePosition, "RelTime"), Output(AbsoluteTimePosition, "AbsTime"),
     Output(RelativeCounterPosition, "RelCount"), Output(AbsoluteCounterPosition, "AbsCount")]
  }

  /** get_media_info. */
  function HandleGetMediaInfo(a: AvState, ev: ActionEvent): (r: Ret<int>)
    requires Ready(a)
    ensures !InstanceZero(ev.req.doc) ==> r.rc == -1 && r.ev.req.errStr == "ID non-zero invalid"
    ensures InstanceZero(ev.req.doc) && ev.status == 0 ==>
              var s := a.transport.store;
              && r.rc == 0
              && r.ev.req.result == Some(ev.req.result.GetOr([]) + Answers(s, MediaInfoOutputs()))
  {
    Getter(a.transport.store, ev, MediaInfoOutputs(), false)
  }

  /**
   * get_transport_info: unlike the other handlers it goes on after a bad
   * InstanceID, so the outputs are attempted and dropped.
   */
  function HandleGetTransportInfo(a: AvState, ev: ActionEvent): (r: Ret<int>)
    requires Ready(a)
    ensures !InstanceZero(ev.req.doc) ==> r.rc == -1 && r.ev.req.errStr == "ID non-zero invalid" && r.ev.req.result.None?
    ensures InstanceZero(ev.req.doc) && ev.status == 0 ==>
              var s := a.transport.store;
              && r.rc == 0
              && r.ev.req.result == Some(ev.req.result.GetOr([]) + Answers(s, TransportInfoOutputs()))
  {
    Getter(a.transport.store, ev, TransportInfoOutputs(), true)
  }

  /** get_transport_settings. */
  function HandleGetTransportSettings(a: AvState, ev: ActionEvent): (r: Ret<int>)
    requires Ready(a)
    ensures !InstanceZero(ev.req.doc) ==> r.rc == -1 && r.ev.req.errStr == "ID non-zero invalid"
    ensures InstanceZero(ev.req.doc) && ev.status == 0 ==>
              var s := a.transport.store;
              && r.rc == 0
              && r.ev.req.result == Some(ev.req.result.GetOr([]) + Answers(s, TransportSettingsOutputs()))
  {
    Getter(a.transport.store, ev, TransportSettingsOutputs(), false)
  }

  /**
   * get_position_info: the position is refreshed from the status MPD
   * reports (when it reports one), then the eight position outputs are read.
   */
  function HandleGetPositionInfo(a: AvState, ev: ActionEvent, b: Backend): (r: Step)
    requires Ready(a)
    ensures Ready(r.av) && r.notified == [] && r.sent == []
    ensures r.av.transport.cell == a.transport.cell && r.av.player == a.player
    ensures !InstanceZero(ev.req.doc) ==> r.rc == -1 && r.av == a && r.ev.req.errStr == "ID non-zero invalid"
    ensures InstanceZero(ev.req.doc) && (!b.connected || b.status.None?) ==> r.av == a
    ensures InstanceZero(ev.req.doc) && b.connected && b.status.Some? ==>
              r.av.transport.store == UpdateTrackPosition(a.transport.store, b.status.value.songPos, b.status.value.elapsed)
    ensures InstanceZero(ev.req.doc) && ev.status == 0 ==>
              var s := r.av.transport.store;
              && r.rc == 0
              && r.ev.req.result == Some(ev.req.result.GetOr([]) + Answers(s, PositionInfoOutputs()))
  {
    if !InstanceZero(ev.req.doc) then
      var g := Getter(a.transport.store, ev, PositionInfoOutputs(), false);
      Step(g.rc, a, g.ev, [], [])
    else
      var t := a.transport;
      var s := if b.connected && b.status.Some?
               then UpdateTrackPosition(t.store, b.status.value.songPos, b.status.value.elapsed)
               else t.store;
      var g := Getter(s, ev, PositionInfoOutputs(), false);
      Step(g.rc, AvState(Transport(t.cell, s), a.player), g.ev, [], [])
  }

  /** get_device_caps: checks the instance and returns nothing. */
  function HandleGetDeviceCapabilities(ev: ActionEvent): (r: Ret<int>)
    ensures !InstanceZero(ev.req.doc) ==> r.rc == -1 && r.ev.req.errStr == "ID non-zero invalid"
    ensures InstanceZero(ev.req.doc) ==> r == Ret(0, ev)
  {
    var id := ObtainInstanceId(ev);
    if id.rc != 0 then Ret(-1, InstanceError(id.ev)) else Ret(0, id.ev)
  }

  /** A getter's answer as a handler outcome: no state change, nothing notified or sent. */
  function Reply(a: AvState, g: Ret<int>): (r: Step)
    ensures r.av == a && r.notified == [] && r.sent == [] && r.rc == g.rc && r.ev == g.ev
  {
    Step(g.rc, a, g.ev, [], [])
  }

  /** The actions that only read the transport. */
  predicate IsQuery(c: TransportCmd) {
    c in {GetDeviceCapabilities, GetMediaInfo, GetPositionInfo, GetTransportInfo, GetTransportSettings}
  }

  /** The actions that drive the player through its queue. */
  predicate IsPlayback(c: TransportCmd) {
    c in {Next, Pause, Play, Previous, Stop}
  }

  /**
   * The callback transport_actions registers for each action; the optional
   * GetCurrentTransportActions has none.
   */
  function Handle(c: TransportCmd, a: AvState, ev: ActionEvent, b: Backend): (r: Option<Step>)
    requires Ready(a)
    requires c == SetPlayMode && InstanceZero(ev.req.doc) && b.connected ==> ArgText(ev.req.doc, "NewPlayMode").Some?
    ensures r.None? <==> c == GetCurrentTransportActions
    ensures r.Some? ==> Ready(r.value.av)
  {
    if c == GetCurrentTransportActions then None
    else if IsQuery(c) then Some(HandleQuery(c, a, ev, b))
    else if IsPlayback(c) then Some(HandlePlayback(c, a, ev, b))
    else Some(HandleMedia(c, a, ev, b))
  }

  /** The callbacks of the reading actions; only GetPositionInfo refreshes anything. */
  function HandleQuery(c: TransportCmd, a: AvState, ev: ActionEvent, b: Backend): (r: Step)
    requires Ready(a) && IsQuery(c)
    ensures Ready(r.av) && r.notified == [] && r.sent == []
    ensures c != GetPositionInfo ==> r.av == a
  {
    if c == GetDeviceCapabilities then Reply(a, HandleGetDeviceCapabilities(ev))
    else if c == GetMediaInfo then Reply(a, HandleGetMediaInfo(a, ev))
    else if c == GetTransportInfo then Reply(a, HandleGetTransportInfo(a, ev))
    else if c == GetTransportSettings then Reply(a, HandleGetTransportSettings(a, ev))
    else HandleGetPositionInfo(a, ev, b)
  }

  /** The callbacks of the playback actions. */
  function HandlePlayback(c: TransportCmd, a: AvState, ev: ActionEvent, b: Backend): (r: Step)
    requires Ready(a) && IsPlayback(c)
    ensures Ready(r.av)
    ensures Mirrors(a.transport) ==> Mirrors(r.av.transport)
  {
    if c == Next then HandleSkip(a, ev, b, SendNext, "Player Next failed")
    else if c == Pause then HandlePause(a, ev, b)
    else if c == Play then HandlePlay(a, ev, b)
    else if c == Previous then HandleSkip(a, ev, b, SendPrevious, "Player Previous failed")
    else HandleStop(a, ev, b)
  }

  /** The callbacks of the actions that set the media, the position or the play mode. */
  function HandleMedia(c: TransportCmd, a: AvState, ev: ActionEvent, b: Backend): (r: Step)
    requires Ready(a) && c in {Seek, SetAVTransportURI, SetPlayMode}
    requires c == SetPlayMode && InstanceZero(ev.req.doc) && b.connected ==> ArgText(ev.req.doc, "NewPlayMode").Some?
    ensures Ready(r.av)
    ensures Mirrors(a.transport) ==> Mirrors(r.av.transport)
  {
    if c == Seek then HandleSeek(a, ev, b)
    else if c == SetAVTransportURI then HandleSetUri(a, ev, b)
    else HandleSetPlayMode(a, ev, b)
  }

  /** One AVTransport action request served: the device's answer and what the handler did. */
  datatype Served = Served(answer: Dispatched, av: AvState, notified: seq<string>, sent: seq<Sent>)

  /**
   * handle_action_request for the AVTransport service: the action is found
   * by name; an unknown name is answered with 401 and touches nothing; the
   * handler-less GetCurrentTransportActions succeeds and touches nothing;
   * any other action runs its handler on a fresh event, and the handler's
   * return value alone decides whether the answer is a success.
   */
  function Serve(a: AvState, req: Request, name: string, b: Backend): (r: Served)
    requires Ready(a)
    requires CmdOfName(name) == Some(SetPlayMode) && InstanceZero(req.doc) && b.connected ==>
               ArgText(req.doc, "NewPlayMode").Some?
    ensures Ready(r.av)
    ensures CmdOfName(name).None? ==>
              && r.answer.rc == -1 && r.answer.req.errCode == InvalidAction && r.answer.req.result.None?
              && r.av == a && r.notified == [] && r.sent == []
    ensures CmdOfName(name) == Some(GetCurrentTransportActions) ==>
              r == Served(Dispatched(0, req.(errCode := Success)), a, [], [])
    ensures CmdOfName(name).Some? && CmdOfName(name) != Some(GetCurrentTransportActions) ==>
              var step := Handle(CmdOfName(name).value, a, ActionEvent(req, 0), b).value;
              && r.answer.rc == 0 && r.answer.req.result.Some?
              && (step.rc == 0 ==> r.answer.req.errCode == Success)
              && (step.rc != 0 ==> r.answer.req.errCode == step.ev.req.errCode && r.answer.req.errStr == step.ev.req.errStr)
              && r.av == step.av && r.notified == step.notified && r.sent == step.sent
  {
    match CmdOfName(name)
    case None => Served(Dispatch(req, None), a, [], [])
    case Some(c) =>
      match Handle(c, a, ActionEvent(req, 0), b)
      case None => Served(Dispatch(req, Some(ActionDef(name, None))), a, [], [])
      case Some(step) => Served(Answer(Ret(step.rc, step.ev)), step.av, step.notified, step.sent)
  }

  /**
   * Pause on a playing transport, then Pause again, resumes it: the state
   * is PLAYING once more and nothing but LastChange differs from where it
   * started, when MPD accepts both commands and no status is read back.
   */
  lemma PauseTwiceResumes(a: AvState, ev: ActionEvent, b: Backend)
    requires Ready(a) && Mirrors(a.transport) && a.transport.cell == Known(Playing)
    requires InstanceZero(ev.req.doc) && b.connected && b.accepted && b.refresh.None?
    ensures var once := HandlePause(a, ev, b);
            var twice := HandlePause(once.av, ev, b);
            && once.av.transport.cell == Known(PausedPlayback) && once.sent == [SendPause]
            && twice.av.transport.cell == Known(Playing) && twice.sent == [SendPlay]
            && twice.av.player == a.player
            && forall i :: 0 <= i < VarUnknown && i != VarIndex(LastChange) ==>
                 twice.av.transport.store[i] == a.transport.store[i]
  {
    var once := HandlePause(a, ev, b);
    assert Entered(once, PausedPlayback, SendPause) && OnlyStateChanged(a, once);
    var twice := HandlePause(once.av, ev, b);
    assert Entered(twice, Playing, SendPlay) && OnlyStateChanged(once.av, twice);
    assert Get(twice.av.transport.store, TransportState) == Get(a.transport.store, TransportState);
  }

  /**
   * Until MPD's status first sets it, the state is the unknown -1 that
   * transport_init leaves, and Play, Pause and Stop then do nothing at all.
   */
  lemma UnknownStateIgnoresPlayback(p: Player, ev: ActionEvent, b: Backend)
    requires InstanceZero(ev.req.doc) && b.connected
    ensures var a := AvState(Init(), p);
            && HandlePlay(a, ev, b) == Step(0, a, ev, [], [])
            && HandlePause(a, ev, b) == Step(0, a, ev, [], [])
            && HandleStop(a, ev, b) == Step(0, a, ev, [], [])
  {
  }

  /**
   * GetPositionInfo reports the status MPD gave: Track reads back as the
   * queue position plus one, and RelTime and RelCount as the elapsed
   * seconds, within the ranges the buffers hold.
   */
  lemma PositionInfoReportsStatus(a: AvState, ev: ActionEvent, b: Backend)
    requires Ready(a) && InstanceZero(ev.req.doc) && ev.status == 0 && b.connected && b.status.Some?
    requires -1 <= b.status.value.songPos < 9999 && 0 <= b.status.value.elapsed < 3600000
    ensures var r := HandleGetPositionInfo(a, ev, b);
            var prior := ev.req.result.GetOr([]);
            var out := r.ev.req.result.value[|prior|..];
            && r.rc == 0 && r.ev.req.result.Some? && |r.ev.req.result.value| == |prior| + 8
            && out[0].name == "Track" && Atoi(out[0].value) == b.status.value.songPos + 1
            && out[4].name == "RelTime" && ParseTimeToSecs(Some(out[4].value)) == b.status.value.elapsed
            && out[6].name == "RelCount" && Atoi(out[6].value) == b.status.value.elapsed
  {
    var st := b.status.value;
    var r := HandleGetPositionInfo(a, ev, b);
    var s := r.av.transport.store;
    assert s == UpdateTrackPosition(a.transport.store, st.songPos, st.elapsed);
    var prior := ev.req.result.GetOr([]);
    var answers := Answers(s, PositionInfoOutputs());
    assert r.ev.req.result.value == prior + answers;
    assert r.ev.req.result.value[|prior|..] == answers;
    PositionAnswers(s);
    TrackPositionRoundTrip(a.transport.store, st.songPos, st.elapsed);
  }

  /** Where GetPositionInfo's answers put the track and the relative positions. */
  lemma PositionAnswers(s: Store)
    requires ValidStore(s)
    ensures var o := Answers(s, PositionInfoOutputs());
            && o[0] == OutArg("Track", Read(s, CurrentTrack))
            && o[4] == OutArg("RelTime", Read(s, RelativeTimePosition))
            && o[6] == OutArg("RelCount", Read(s, RelativeCounterPosition))
  {
    var outs := PositionInfoOutputs();
    assert outs[0] == Output(CurrentTrack, "Track");
    assert outs[4] == Output(RelativeTimePosition, "RelTime");
    assert outs[6] == Output(RelativeCounterPosition, "RelCount");
  }
}
