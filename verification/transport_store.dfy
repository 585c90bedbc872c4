/**
 * The AVTransport variable store and its event payloads: the name, default
 * and evented tables, the idempotent store, the playback state cell, and the
 * LastChange documents built from the store.
 */
module TransportStore {
  import opened Common
  import opened TransportDefs
  import Device

  /** The name each variable is published under, by index. */
  const VarNames: seq<string> := [
    "TransportStatus",                  // 0
    "NextAVTransportURI",               // 1
    "NextAVTransportURIMetaData",       // 2
    "CurrentTrackMetaData",             // 3
    "RelativeCounterPosition",          // 4
    "A_ARG_TYPE_InstanceID",            // 5
    "A_ARG_TYPE_SeekTarget",            // 6
    "PlaybackStorageMedium",            // 7
    "RelativeTimePosition",             // 8
    "PossibleRecordStorageMedia",       // 9
    "CurrentPlayMode",                  // 10
    "TransportPlaySpeed",               // 11
    "PossiblePlaybackStorageMedia",     // 12
    "AbsoluteTimePosition",             // 13
    "CurrentTrack",                     // 14
    "CurrentTrackURI",                  // 15
    "CurrentTransportActions",          // 16
    "NumberOfTracks",                   // 17
    "AVTransportURI",                   // 18
    "AbsoluteCounterPosition",          // 19
    "CurrentRecordQualityMode",         // 20
    "CurrentMediaDuration",             // 21
    "A_ARG_TYPE_SeekMode",              // 22
    "AVTransportURIMetaData",           // 23
    "RecordStorageMedium",              // 24
    "RecordMediumWriteStatus",          // 25
    "LastChange",                       // 26
    "CurrentTrackDuration",             // 27
    "TransportState",                   // 28
    "PossibleRecordQualityModes"]       // 29

  function VarName(v: TransportVar): string {
    VarNames[v]
  }

  /** The empty LastChange document. */
  const EmptyEvent: string :=
    "<Event xmlns=" + "\"urn:schemas-upnp-org:" + "metadata-1-0/AVT/\">"
    + "<InstanceID val=\"0\">" + "</InstanceID>" + "</Event>"

  /** The default value of each variable, by index; every variable has one. */
  const DefaultValues: seq<string> := [
    "OK",                               // 0
    "",                                 // 1
    "",                                 // 2
    "",                                 // 3
    "2147483647",                       // 4
    "0",                                // 5
    "",                                 // 6
    "UNKNOWN",                          // 7
    "NOT_IMPLEMENTED",                  // 8
    "NOT_IMPLEMENTED",                  // 9
    "NORMAL",                           // 10
    "1",                                // 11
    "NETWORK,UNKNOWN",                  // 12
    "NOT_IMPLEMENTED",                  // 13
    "1",                                // 14
    "",                                 // 15
    "Play,Stop,Pause",                  // 16
    "1",                                // 17
    "",                                 // 18
    "2147483647",                       // 19
    "NOT_IMPLEMENTED",                  // 20
    "00:00:00",                         // 21
    "TRACK_NR",                         // 22
    "",                                 // 23
    "NOT_IMPLEMENTED",                  // 24
    "NOT_IMPLEMENTED",                  // 25
    EmptyEvent,                         // 26
    "00:00:00",                         // 27
    "STOPPED",                          // 28
    "NOT_IMPLEMENTED"]                  // 29

  function DefaultValue(v: TransportVar): string {
    DefaultValues[v]
  }

  /** Only LastChange is sent as an event; every other change travels inside it. */
  predicate IsEvented(v: TransportVar) {
    v == LastChange
  }

  /** The play modes the service description lists as allowed for CurrentPlayMode. */
  const AllowedPlayModes: seq<string> := ["NORMAL", "REPEAT_ONE", "REPEAT_ALL", "RANDOM", "DIRECT_1"]

  /** The service's tables laid out by variable index. */
  function Names(): (r: seq<string>)
    ensures |r| == VarUnknown && forall v: TransportVar :: r[VarIndex(v)] == VarName(v)
  {
    VarNames
  }

  function Defaults(): (r: seq<Option<string>>)
    ensures |r| == VarUnknown && forall v: TransportVar :: r[VarIndex(v)] == Some(DefaultValue(v))
  {
    seq(VarUnknown, i requires 0 <= i < VarUnknown => Some(DefaultValue(i as TransportVar)))
  }

  function EventedFlags(): (r: seq<bool>)
    ensures |r| == VarUnknown && forall v: TransportVar :: r[VarIndex(v)] == IsEvented(v)
  {
    seq(VarUnknown, i requires 0 <= i < VarUnknown => IsEvented(i as TransportVar))
  }

  /** The value array: one slot per variable, None while NULL. */
  type Store = seq<Option<string>>

  predicate ValidStore(s: Store) {
    |s| == VarUnknown
  }

  /** The playback state; Unknown is the -1 the C variable starts with. */
  datatype StateCell = Unknown | Known(state: PlayState)

  /** Everything the AVTransport service keeps: the state and the value array. */
  datatype Transport = Transport(cell: StateCell, store: Store)

  predicate Valid(t: Transport) {
    ValidStore(t.store)
  }

  /** transport_get_var. */
  function Get(s: Store, v: TransportVar): Option<string>
    requires ValidStore(s)
  {
    s[VarIndex(v)]
  }

  /**
   * transport_set_var: a NULL value and a value equal to the stored one leave
   * the store as it is; otherwise exactly one slot changes, to the new value.
   */
  function SetVar(s: Store, v: TransportVar, value: Option<string>): (r: Store)
    requires ValidStore(s)
    ensures ValidStore(r)
    ensures value.None? ==> r == s
    ensures Get(s, v) == value ==> r == s
    ensures value.Some? ==> Get(r, v) == value
    ensures forall i :: 0 <= i < VarUnknown && i != VarIndex(v) ==> r[i] == s[i]
  {
    if value.None? || s[VarIndex(v)] == value then s else s[VarIndex(v) := value]
  }

  /** Storing the same value twice is the same as storing it once. */
  lemma SetVarIdempotent(s: Store, v: TransportVar, value: Option<string>)
    requires ValidStore(s)
    ensures SetVar(SetVar(s, v, value), v, value) == SetVar(s, v, value)
  {
  }

  /** Stores to two different variables commute. */
  lemma SetVarCommutes(s: Store, v: TransportVar, a: string, w: TransportVar, b: string)
    requires ValidStore(s) && v != w
    ensures SetVar(SetVar(s, v, Some(a)), w, Some(b)) == SetVar(SetVar(s, w, Some(b)), v, Some(a))
  {
    var l := SetVar(SetVar(s, v, Some(a)), w, Some(b));
    var r := SetVar(SetVar(s, w, Some(b)), v, Some(a));
    assert forall i :: 0 <= i < VarUnknown ==> l[i] == r[i];
  }

  /** transport_set_state: the state and the TransportState text change together. */
  function SetState(t: Transport, state: PlayState, value: string): (r: Transport)
    requires Valid(t)
    ensures Valid(r) && r.cell == Known(state)
    ensures Get(r.store, TransportState) == Some(value)
    ensures forall i :: 0 <= i < VarUnknown && i != VarIndex(TransportState) ==> r.store[i] == t.store[i]
  {
    Transport(Known(state), SetVar(t.store, TransportState, Some(value)))
  }

  /** The variables transport_init sets: those read before any refresh. */
  predicate EarlyVar(v: TransportVar) {
    v == TransportState || v == TransportStatus || v == CurrentTrackURI
    || v == CurrentTrackMetaData || v == CurrentTrackDuration
  }

  /** The early variables hold a value. */
  predicate Initialized(s: Store)
    requires ValidStore(s)
  {
    && Get(s, TransportState).Some? && Get(s, TransportStatus).Some? && Get(s, CurrentTrackURI).Some?
    && Get(s, CurrentTrackMetaData).Some? && Get(s, CurrentTrackDuration).Some?
  }

  /**
   * The TransportState text names the state whenever the state is known.
   * Once the state is Unknown, the text is whatever was stored last.
   */
  predicate Mirrors(t: Transport)
    requires Valid(t)
  {
    t.cell.Known? ==> Get(t.store, TransportState) == Some(StateName(t.cell.state))
  }

  /** transport_init: the early variables at their defaults, every other slot NULL, the state still -1. */
  function Init(): (t: Transport)
    ensures Valid(t) && t.cell == Unknown && Initialized(t.store)
    ensures forall v: TransportVar :: Get(t.store, v) == (if EarlyVar(v) then Some(DefaultValue(v)) else None)
  {
    Transport(Unknown, seq(VarUnknown, i requires 0 <= i < VarUnknown =>
      if EarlyVar(i as TransportVar) then Some(DefaultValue(i as TransportVar)) else None))
  }

  /** Stores never remove a value, so an initialized store stays initialized. */
  lemma SetVarKeepsInitialized(s: Store, v: TransportVar, value: Option<string>)
    requires ValidStore(s) && Initialized(s)
    ensures Initialized(SetVar(s, v, value))
  {
  }

  /** The store seen through the generic device framework. */
  function Table(s: Store): (vt: Device.VarTable)
    requires ValidStore(s)
    ensures Device.WellFormed(vt)
  {
    Device.VarTable(Names(), s, Some(Defaults()), EventedFlags())
  }

  /** Through the framework, a variable reads as its stored value, else its default. */
  lemma TableReads(s: Store, v: TransportVar)
    requires ValidStore(s)
    ensures Device.GetServiceVar(Table(s), VarIndex(v)) == Get(s, v).GetOr(DefaultValue(v))
  {
  }

  /** One `<Name val="Value"/>` element of a LastChange document. */
  datatype Entry = Entry(name: string, value: string)

  const EventHead: string :=
    "<Event xmlns=" + "\"urn:schemas-upnp-org:" + "metadata-1-0/AVT/\">" + "<InstanceID val=\"0\">"
  const EventTail: string := "</InstanceID>" + "</Event>"

  function EntryText(e: Entry): string {
    "<" + e.name + " val=\"" + e.value + "\"/>"
  }

  function EntriesText(es: seq<Entry>): string {
    if |es| == 0 then "" else EntryText(es[0]) + EntriesText(es[1..])
  }

  /** A LastChange document for instance 0 listing the given entries. */
  function RenderEvent(es: seq<Entry>): string {
    EventHead + EntriesText(es) + EventTail
  }

  /** With no entries the document is the LastChange default. */
  lemma EmptyRenderIsDefault()
    ensures RenderEvent([]) == DefaultValue(LastChange)
  {
  }

  /** The entry reporting the current value of a variable. */
  function EntryOf(s: Store, v: TransportVar): (e: Entry)
    requires ValidStore(s) && Get(s, v).Some?
    ensures e.name == VarName(v) && Some(e.value) == Get(s, v)
  {
    Entry(VarName(v), Get(s, v).value)
  }

  /**
   * The entries of transport_get_state_lastchange: state and status, plus
   * the current track's URI, metadata and duration once there is a track.
   */
  function StateEntries(s: Store): (es: seq<Entry>)
    requires ValidStore(s) && Initialized(s)
    ensures |es| == 2 <==> Get(s, CurrentTrackURI) == Some("")
    ensures |es| == 2 || |es| == 5
    ensures es[0] == EntryOf(s, TransportState) && es[1] == EntryOf(s, TransportStatus)
    ensures |es| == 5 ==> es[2..] == [EntryOf(s, CurrentTrackURI), EntryOf(s, CurrentTrackMetaData), EntryOf(s, CurrentTrackDuration)]
  {
    var head := [EntryOf(s, TransportState), EntryOf(s, TransportStatus)];
    if Get(s, CurrentTrackURI).value == "" then head
    else head + [EntryOf(s, CurrentTrackURI), EntryOf(s, CurrentTrackMetaData), EntryOf(s, CurrentTrackDuration)]
  }

  /** The composite LastChange document describing the whole transport. */
  function StateLastChange(s: Store): (doc: string)
    requires ValidStore(s) && Initialized(s)
  {
    RenderEvent(StateEntries(s))
  }

  /** The composite document does not depend on LastChange itself. */
  lemma StateLastChangeIgnoresLastChange(s: Store, s': Store)
    requires ValidStore(s) && Initialized(s) && ValidStore(s')
    requires forall i :: 0 <= i < VarUnknown && i != VarIndex(LastChange) ==> s'[i] == s[i]
    ensures Initialized(s') && StateLastChange(s') == StateLastChange(s)
  {
    assert Get(s', TransportState) == Get(s, TransportState);
    assert Get(s', TransportStatus) == Get(s, TransportStatus);
    assert Get(s', CurrentTrackURI) == Get(s, CurrentTrackURI);
    assert Get(s', CurrentTrackMetaData) == Get(s, CurrentTrackMetaData);
    assert Get(s', CurrentTrackDuration) == Get(s, CurrentTrackDuration);
    assert StateEntries(s') == StateEntries(s);
  }

  /**
   * transport_notify_lastchange, store part: the payload replaces LastChange
   * outright (no comparison) and is the document sent to subscribers.
   */
  function Notify(s: Store, payload: string): (r: Store)
    requires ValidStore(s)
    ensures ValidStore(r) && Get(r, LastChange) == Some(payload)
    ensures forall i :: 0 <= i < VarUnknown && i != VarIndex(LastChange) ==> r[i] == s[i]
  {
    s[VarIndex(LastChange) := Some(payload)]
  }

  /** What transport_change_var leaves behind: the new store and the document it sent. */
  datatype Changed = Changed(store: Store, payload: string)

  /**
   * transport_change_var: stores the value, then notifies a one-entry
   * document reporting the variable's new value.
   */
  function ChangeVar(s: Store, v: TransportVar, value: string): (r: Changed)
    requires ValidStore(s) && v != LastChange
    ensures ValidStore(r.store)
    ensures r.payload == RenderEvent([Entry(VarName(v), value)])
    ensures Get(r.store, v) == Some(value) && Get(r.store, LastChange) == Some(r.payload)
    ensures forall i :: 0 <= i < VarUnknown && i != VarIndex(v) && i != VarIndex(LastChange) ==> r.store[i] == s[i]
  {
    var stored := SetVar(s, v, Some(value));
    var payload := RenderEvent([EntryOf(stored, v)]);
    assert EntryOf(stored, v) == Entry(VarName(v), value);
    Changed(Notify(stored, payload), payload)
  }

  /**
   * transport_notify_subscription, store part: LastChange is set to the
   * composite document (through the idempotent store).
   */
  function SubscriptionNotify(s: Store): (r: Store)
    requires ValidStore(s) && Initialized(s)
    ensures ValidStore(r) && Initialized(r)
    ensures Get(r, LastChange) == Some(StateLastChange(s))
    ensures forall i :: 0 <= i < VarUnknown && i != VarIndex(LastChange) ==> r[i] == s[i]
  {
    SetVar(s, LastChange, Some(StateLastChange(s)))
  }

  /** The notify routine on the framework's view; defined for initialized stores. */
  function NotifyTable(vt: Device.VarTable): Device.VarTable {
    if ValidStore(vt.values) && Initialized(vt.values) then vt.(values := SubscriptionNotify(vt.values)) else vt
  }

  /** The AVTransport service as the framework sees it. */
  function TransportService(s: Store): (srv: Device.Service)
    requires ValidStore(s)
    ensures srv.vars == Table(s) && srv.notify.Some?
  {
    Device.Service(Table(s), Some(NotifyTable))
  }

  /** LastChange, index 26, is the only evented variable. */
  lemma OnlyLastChangeEvented()
    ensures Device.EventedIndices(EventedFlags(), VarUnknown) == [VarIndex(LastChange)]
  {
    var flags := EventedFlags();
    forall i | 0 <= i < |flags|
      ensures flags[i] <==> i == VarIndex(LastChange)
    {
      assert flags[i] == IsEvented(i as TransportVar);
    }
    Device.EventedIndicesSingle(flags, VarUnknown, VarIndex(LastChange));
  }

  /** The framework runs the transport's notify routine before building the snapshot. */
  lemma NotifiedTransport(s: Store)
    requires ValidStore(s) && Initialized(s)
    ensures Device.Notified(TransportService(s)) == Table(SubscriptionNotify(s))
  {
  }

  /** Whatever the store, the snapshot shows LastChange alone. */
  lemma TransportSnapshot(s: Store, escape: string -> string)
    requires ValidStore(s)
    ensures Device.SnapshotOf(Table(s), escape)
            == Device.Snapshot(["LastChange"], [escape(Get(s, LastChange).GetOr(EmptyEvent))], 1)
  {
    OnlyLastChangeEvented();
    Device.SnapshotOfSingle(Table(s), escape, VarIndex(LastChange));
    TableReads(s, LastChange);
  }

  /**
   * A new AVTransport subscriber is shown exactly one variable, LastChange,
   * whose value is the escaped composite document of the current store.
   */
  lemma SubscriberSeesComposite(s: Store, escape: string -> string, accepted: bool)
    requires ValidStore(s) && Initialized(s)
    ensures var r := Device.HandleSubscription(Some(TransportService(s)), escape, accepted);
            r.snapshot == Some(Device.Snapshot(["LastChange"], [escape(StateLastChange(s))], 1))
  {
    NotifiedTransport(s);
    TransportSnapshot(SubscriptionNotify(s), escape);
  }
}
