/**
 * The ConnectionManager service: its variable tables, the registry of
 * supported MIME types, the SinkProtocolInfo string built from the registry
 * at start-up, and the three action handlers.
 */
module ConnMgr {
  import opened Common
  import opened Device
  import Mpd

  /** The connection manager's variables: the values of their C enum. */
  newtype ConnVar = i: int | 0 <= i < 10
  const ArgConnectionManager: ConnVar := 0
  const SinkProtocolInfo: ConnVar := 1
  const ArgConnectionStatus: ConnVar := 2
  const ArgAVTransportID: ConnVar := 3
  const ArgDirection: ConnVar := 4
  const ArgRcsID: ConnVar := 5
  const ArgProtocolInfo: ConnVar := 6
  const ArgConnectionID: ConnVar := 7
  const SourceProtocolInfo: ConnVar := 8
  const CurrentConnectionIDs: ConnVar := 9
  /** The UNKNOWN sentinel, which is also the variable count. */
  const ConnVarCount: nat := 10

  /** The name each variable is published under, by index. */
  const ConnVarNames: seq<string> := [
    "A_ARG_TYPE_ConnectionManager",     // 0
    "SinkProtocolInfo",                 // 1
    "A_ARG_TYPE_ConnectionStatus",      // 2
    "A_ARG_TYPE_AVTransportID",         // 3
    "A_ARG_TYPE_Direction",             // 4
    "A_ARG_TYPE_RcsID",                 // 5
    "A_ARG_TYPE_ProtocolInfo",          // 6
    "A_ARG_TYPE_ConnectionID",          // 7
    "SourceProtocolInfo",               // 8
    "CurrentConnectionIDs"]             // 9

  /** The built-in sink protocol info, shown while no MIME type is registered. */
  const DefaultSink: string := "http-get:*:" + "audio/mpeg:*"

  /** The default value of each variable, by index; every variable has one. */
  const ConnDefaults: seq<string> := [
    "/",                                // 0
    DefaultSink,                        // 1
    "Unknown",                          // 2
    "0",                                // 3
    "Input",                            // 4
    "0",                                // 5
    ":::",                              // 6
    "-1",                               // 7
    "",                                 // 8
    "0"]                                // 9

  /** The values the service description allows for the connection status. */
  const ConnStatusValues: seq<string> :=
    ["OK", "ContentFormatMismatch", "InsufficientBandwidth", "UnreliableChannel", "Unknown"]
  /** The values the service description allows for the direction. */
  const DirectionValues: seq<string> := ["Input", "Output"]

  /** The protocol-info variables and the connection list are evented; the argument types are not. */
  predicate IsEvented(v: ConnVar) {
    v == SourceProtocolInfo || v == SinkProtocolInfo || v == CurrentConnectionIDs
  }

  /** The value array: one slot per variable, None while NULL. */
  type ConnValues = seq<Option<string>>

  predicate ValidValues(s: ConnValues) {
    |s| == ConnVarCount
  }

  /** What a variable reads as: its value, else its default. */
  function Read(s: ConnValues, v: ConnVar): string
    requires ValidValues(s)
  {
    s[v].GetOr(ConnDefaults[v])
  }

  /** The service's variable arrays as the framework sees them. */
  function ConnTable(s: ConnValues): (vt: VarTable)
    requires ValidValues(s)
    ensures WellFormed(vt) && |vt.names| == ConnVarCount
  {
    VarTable(
      ConnVarNames, s,
      Some(seq(ConnVarCount, i requires 0 <= i < ConnVarCount => Some(ConnDefaults[i]))),
      seq(ConnVarCount, i requires 0 <= i < ConnVarCount => IsEvented(i as ConnVar)))
  }

  /** Through the framework, a variable reads as its value, else its default. */
  lemma ConnTableReads(s: ConnValues, v: ConnVar)
    requires ValidValues(s)
    ensures GetServiceVar(ConnTable(s), v as nat) == Read(s, v)
  {
  }

  /** The enumerated variables' defaults are among their allowed values. */
  lemma DefaultsAllowed()
    ensures ConnDefaults[ArgConnectionStatus] in ConnStatusValues
    ensures ConnDefaults[ArgDirection] in DirectionValues
  {
  }

  // ---------------------------------------------------------------------
  // The MIME type registry
  // ---------------------------------------------------------------------

  /** The supported-types list, newest registration first. */
  type Registry = seq<string>

  predicate Distinct(reg: Registry) {
    forall i, j :: 0 <= i < j < |reg| ==> reg[i] != reg[j]
  }

  /**
   * register_mime_type_internal: a type already in the list leaves it
   * unchanged; a new one is put at the front.
   */
  function Registered(reg: Registry, mime: string): (r: Registry)
    ensures forall x :: x in r <==> x == mime || x in reg
    ensures mime in reg ==> r == reg
    ensures mime !in reg ==> |r| == |reg| + 1 && r[0] == mime && r[1..] == reg
    ensures Distinct(reg) ==> Distinct(r)
  {
    if mime in reg then reg else [mime] + reg
  }

  /** The walk of register_mime_type_internal over the linked list, comparing each entry. */
  method RegisterInternal(reg: Registry, mime: string) returns (r: Registry)
    ensures r == Registered(reg, mime)
  {
    var i := 0;
    while i < |reg|
      invariant 0 <= i <= |reg|
      invariant mime !in reg[..i]
    {
      if reg[i] == mime {
        return reg;
      }
      assert reg[..i + 1] == reg[..i] + [reg[i]];
      i := i + 1;
    }
    assert reg[..i] == reg;
    r := [mime] + reg;
  }

  const AudioMpeg: string := "audio/mpeg"
  const AudioXMpeg: string := "audio/x-mpeg"

  /** register_mime_type: "audio/mpeg" brings its alias "audio/x-mpeg" along. */
  function RegisterType(reg: Registry, mime: string): (r: Registry)
    ensures mime in r
    ensures mime == AudioMpeg ==> AudioXMpeg in r
    ensures forall x :: x in r <==> x in reg || x == mime || (mime == AudioMpeg && x == AudioXMpeg)
    ensures Distinct(reg) ==> Distinct(r)
  {
    var once := Registered(reg, mime);
    if mime == AudioMpeg then Registered(once, AudioXMpeg) else once
  }

  /** Registering a list of types one after another, as the output module's init does. */
  function RegisterAll(reg: Registry, types: seq<string>): (r: Registry)
    ensures forall x :: x in r <==> x in reg || x in types || (AudioMpeg in types && x == AudioXMpeg)
    ensures Distinct(reg) ==> Distinct(r)
    decreases |types|
  {
    if |types| == 0 then reg
    else
      assert types == [types[0]] + types[1..];
      RegisterAll(RegisterType(reg, types[0]), types[1..])
  }

  /** Registering one more type registers it on top of everything registered before. */
  lemma {:induction false} RegisterAllSnoc(reg: Registry, types: seq<string>, mime: string)
    ensures RegisterAll(reg, types + [mime]) == RegisterType(RegisterAll(reg, types), mime)
    decreases |types|
  {
    if |types| > 0 {
      assert (types + [mime])[1..] == types[1..] + [mime];
      RegisterAllSnoc(RegisterType(reg, types[0]), types[1..], mime);
    }
  }

  /** The adapter's registry holds each of its MIME types and the mpeg alias, each once. */
  lemma AdapterRegistry()
    ensures var reg := RegisterAll([], Mpd.MimeTypes);
            && Distinct(reg)
            && (forall x :: x in reg <==> x in Mpd.MimeTypes || x == AudioXMpeg)
  {
    assert Mpd.MimeTypes[0] == AudioMpeg;
  }

  // ---------------------------------------------------------------------
  // The sink protocol info
  // ---------------------------------------------------------------------

  const ProtoPrefix: string := "http-get:*:"
  const ProtoSuffix: string := ":*"

  /** One protocol-info entry: any network, the MIME type, any additional info. */
  function ProtoEntry(mime: string): (e: string)
    ensures |e| == |mime| + 13
  {
    ProtoPrefix + mime + ProtoSuffix
  }

  function ProtoEntries(reg: Registry): (es: seq<string>)
    ensures |es| == |reg|
  {
    seq(|reg|, k requires 0 <= k < |reg| => ProtoEntry(reg[k]))
  }

  /** Strings joined by commas, in order, with no trailing comma. */
  function Join(parts: seq<string>): (r: string)
    ensures |parts| == 1 ==> r == parts[0]
    ensures |parts| > 1 ==> parts[0] + "," <= r
    decreases |parts|
  {
    if |parts| == 0 then ""
    else if |parts| == 1 then parts[0]
    else parts[0] + "," + Join(parts[1..])
  }

  /** Joining one more part appends a comma and that part. */
  lemma {:induction false} JoinSnoc(parts: seq<string>, p: string)
    requires |parts| > 0
    ensures Join(parts + [p]) == Join(parts) + "," + p
    decreases |parts|
  {
    if |parts| > 1 {
      assert (parts + [p])[1..] == parts[1..] + [p];
      JoinSnoc(parts[1..], p);
    }
  }

  /** The SinkProtocolInfo value start-up stores: NULL for an empty registry, else the joined entries. */
  function SinkInfo(reg: Registry): (r: Option<string>)
    ensures r.None? <==> |reg| == 0
  {
    if |reg| == 0 then None else Some(Join(ProtoEntries(reg)))
  }

  /** The buffer size connmgr_init allocates: each entry adds its length plus 14. */
  function BufferSize(reg: Registry): (n: nat)
    ensures |reg| > 0 ==> n >= 14
    decreases |reg|
  {
    if |reg| == 0 then 0 else BufferSize(reg[..|reg| - 1]) + |reg[|reg| - 1]| + 14
  }

  /**
   * connmgr_init's string builder: for each entry the buffer grows by the
   * type's length plus 14 and exactly that many characters are written
   * (prefix, type, ":*,"); at the end the last comma becomes the terminator,
   * so the string and its terminator fill the buffer exactly.
   */
  method BuildSinkInfo(reg: Registry) returns (buf: Option<string>, bufsize: nat)
    ensures buf == SinkInfo(reg)
    ensures bufsize == BufferSize(reg)
    ensures buf.Some? ==> |buf.value| + 1 == bufsize
  {
    var written: string := "";
    bufsize := 0;
    var i := 0;
    while i < |reg|
      invariant 0 <= i <= |reg|
      invariant bufsize == BufferSize(reg[..i])
      invariant |written| == bufsize
      invariant i > 0 ==> written == Join(ProtoEntries(reg[..i])) + ","
    {
      var mime := reg[i];
      bufsize := bufsize + |mime| + 14;
      written := written + ProtoPrefix + mime + ProtoSuffix + ",";
      assert reg[..i + 1][..i] == reg[..i];
      assert ProtoEntries(reg[..i + 1]) == ProtoEntries(reg[..i]) + [ProtoEntry(mime)];
      if i > 0 {
        JoinSnoc(ProtoEntries(reg[..i]), ProtoEntry(mime));
      } else {
        assert ProtoEntries(reg[..1]) == [ProtoEntry(mime)];
      }
      i := i + 1;
    }
    assert reg[..i] == reg;
    if i == 0 {
      buf := None;
    } else {
      buf := Some(written[..|written| - 1]);
    }
  }

  /** connmgr_init's outcome: its return value and the variable values it leaves. */
  datatype Started = Started(rc: int, values: ConnValues)

  /**
   * connmgr_init: clears every value, then stores the sink protocol info
   * built from the registry and the source protocol info's default. An
   * allocation failure (`allocOk` false) returns -1 with all values NULL.
   */
  function ConnMgrInit(reg: Registry, allocOk: bool): (r: Started)
    ensures ValidValues(r.values)
    ensures r.rc == 0 <==> |reg| == 0 || allocOk
    ensures r.rc != 0 ==> r.rc == -1 && forall v: ConnVar :: Read(r.values, v) == ConnDefaults[v]
    ensures r.rc == 0 && |reg| > 0 ==> Read(r.values, SinkProtocolInfo) == Join(ProtoEntries(reg))
    ensures r.rc == 0 ==> forall v: ConnVar :: v != SinkProtocolInfo ==> Read(r.values, v) == ConnDefaults[v]
  {
    var cleared := seq(ConnVarCount, i => None);
    if |reg| > 0 && !allocOk then Started(-1, cleared)
    else Started(0, cleared[SinkProtocolInfo := SinkInfo(reg)][SourceProtocolInfo := Some(ConnDefaults[SourceProtocolInfo])])
  }

  /** With nothing registered the sink value stays NULL, so it reads as the built-in default. */
  lemma EmptyRegistryKeepsDefault(allocOk: bool)
    ensures var r := ConnMgrInit([], allocOk);
            && r.rc == 0
            && r.values[SinkProtocolInfo].None?
            && Read(r.values, SinkProtocolInfo) == DefaultSink
  {
  }

  // ---------------------------------------------------------------------
  // Actions
  // ---------------------------------------------------------------------

  /** get_protocol_info: the source and sink protocol info, returning the event's status. */
  function HandleGetProtocolInfo(s: ConnValues, ev: ActionEvent): (r: Ret<int>)
    requires ValidValues(s)
    ensures ev.status == 0 ==>
              r == Ret(0, ev.(req := ev.req.(result := Some(ev.req.result.GetOr([])
                     + [OutArg("Source", Read(s, SourceProtocolInfo)), OutArg("Sink", Read(s, SinkProtocolInfo))]))))
    ensures ev.status != 0 ==> r == Ret(ev.status, ev)
  {
    ConnTableReads(s, SourceProtocolInfo);
    ConnTableReads(s, SinkProtocolInfo);
    var src := AppendVariable(ConnTable(s), ev, SourceProtocolInfo as nat, "Source", None);
    var sink := AppendVariable(ConnTable(s), src.ev, SinkProtocolInfo as nat, "Sink", None);
    var prior := ev.req.result.GetOr([]);
    var a, b := OutArg("Source", Read(s, SourceProtocolInfo)), OutArg("Sink", Read(s, SinkProtocolInfo));
    assert (prior + [a]) + [b] == prior + [a, b];
    Ret(sink.ev.status, sink.ev)
  }

  /** get_current_conn_ids: always the single connection "0", and always 0. */
  function HandleGetCurrentConnectionIds(ev: ActionEvent): (r: Ret<int>)
    ensures r.rc == 0
    ensures ev.status == 0 ==>
              r.ev == ev.(req := ev.req.(result := Some(ev.req.result.GetOr([]) + [OutArg("ConnectionIDs", "0")])))
    ensures ev.status != 0 ==> r.ev == ev
  {
    Ret(0, AddResponse(ev, "ConnectionIDs", "0", None).ev)
  }

  /** The fixed answer agrees with what the CurrentConnectionIDs variable reads as after start-up. */
  lemma ConnectionIdsAgree(reg: Registry, allocOk: bool)
    ensures var st := ConnMgrInit(reg, allocOk);
            Read(st.values, CurrentConnectionIDs) == "0"
  {
  }

  /** The outputs of GetCurrentConnectionInfo, in order. */
  function InfoAppends(): (items: seq<Append>)
    ensures |items| == 7 && forall k :: 0 <= k < 7 ==> items[k].varnum < ConnVarCount
  {
    [Append(ArgRcsID as nat, "RcsID"), Append(ArgAVTransportID as nat, "AVTransportID"),
     Append(ArgProtocolInfo as nat, "ProtocolInfo"), Append(ArgConnectionManager as nat, "PeerConnectionManager"),
     Append(ArgConnectionID as nat, "PeerConnectionID"), Append(ArgDirection as nat, "Direction"),
     Append(ArgConnectionStatus as nat, "Status")]
  }

  /** The values GetCurrentConnectionInfo reports, in order. */
  function InfoAnswers(s: ConnValues): (outs: seq<OutArg>)
    requires ValidValues(s)
    ensures |outs| == 7
  {
    [OutArg("RcsID", Read(s, ArgRcsID)), OutArg("AVTransportID", Read(s, ArgAVTransportID)),
     OutArg("ProtocolInfo", Read(s, ArgProtocolInfo)), OutArg("PeerConnectionManager", Read(s, ArgConnectionManager)),
     OutArg("PeerConnectionID", Read(s, ArgConnectionID)), OutArg("Direction", Read(s, ArgDirection)),
     OutArg("Status", Read(s, ArgConnectionStatus))]
  }

  /** The append chain's outputs are the variables' values. */
  lemma InfoOutputs(s: ConnValues)
    requires ValidValues(s)
    ensures Outputs(ConnTable(s), InfoAppends()) == InfoAnswers(s)
  {
    var items := InfoAppends();
    forall k | 0 <= k < 7
      ensures Outputs(ConnTable(s), items)[k] == InfoAnswers(s)[k]
    {
      ConnTableReads(s, items[k].varnum as ConnVar);
    }
  }

  /**
   * get_current_conn_info: without a ConnectionID argument it fails with -1;
   * with one (whatever its value) it appends the seven outputs in order.
   */
  function HandleGetCurrentConnectionInfo(s: ConnValues, ev: ActionEvent): (r: Ret<int>)
    requires ValidValues(s)
    ensures ArgText(ev.req.doc, "ConnectionID").None? ==>
              r.rc == -1 && r.ev.status == -1 && r.ev.req.errCode == ActionFailed && r.ev.req.result.None?
    ensures ArgText(ev.req.doc, "ConnectionID").Some? && ev.status == 0 ==>
              r == Ret(0, ev.(req := ev.req.(result := Some(ev.req.result.GetOr([]) + InfoAnswers(s)))))
    ensures ArgText(ev.req.doc, "ConnectionID").Some? && ev.status != 0 ==> r == Ret(-1, ev)
  {
    var got := GetString(ev, "ConnectionID");
    if got.rc.None? then Ret(-1, got.ev)
    else
      AppendChainOutputs(ConnTable(s), got.ev, InfoAppends());
      InfoOutputs(s);
      AppendChain(ConnTable(s), got.ev, InfoAppends())
  }

  /** After start-up the connection info is the arguments' defaults. */
  lemma StartedConnectionInfo(reg: Registry, allocOk: bool)
    ensures var s := ConnMgrInit(reg, allocOk).values;
            InfoAnswers(s) == [
              OutArg("RcsID", "0"), OutArg("AVTransportID", "0"), OutArg("ProtocolInfo", ":::"),
              OutArg("PeerConnectionManager", "/"), OutArg("PeerConnectionID", "-1"),
              OutArg("Direction", "Input"), OutArg("Status", "Unknown")]
  {
  }

  /** The connection manager's actions, by their C enum order. */
  datatype ConnCmd = GetCurrentConnectionIds | GetCurrentConnectionInfo | GetProtocolInfo

  function ConnCmdName(c: ConnCmd): string {
    match c
    case GetCurrentConnectionIds => "GetCurrentConnectionIDs"
    case GetCurrentConnectionInfo => "GetCurrentConnectionInfo"
    case GetProtocolInfo => "GetProtocolInfo"
  }

  /** The action table lookup by name. */
  function ConnCmdOfName(name: string): (r: Option<ConnCmd>)
    ensures r.Some? ==> ConnCmdName(r.value) == name
    ensures r.None? ==> forall c :: ConnCmdName(c) != name
  {
    if name == "GetCurrentConnectionIDs" then Some(GetCurrentConnectionIds)
    else if name == "GetCurrentConnectionInfo" then Some(GetCurrentConnectionInfo)
    else if name == "GetProtocolInfo" then Some(GetProtocolInfo)
    else None
  }

  /** The handler the action table registers for each action. */
  function Handler(s: ConnValues, c: ConnCmd): ActionEvent -> Ret<int>
    requires ValidValues(s)
  {
    match c
    case GetCurrentConnectionIds => (ev: ActionEvent) => HandleGetCurrentConnectionIds(ev)
    case GetCurrentConnectionInfo => (ev: ActionEvent) => HandleGetCurrentConnectionInfo(s, ev)
    case GetProtocolInfo => (ev: ActionEvent) => HandleGetProtocolInfo(s, ev)
  }

  /**
   * handle_action_request for the connection manager: an unknown action is
   * answered with 401; the known ones answer with their outputs appended to
   * the request's response; GetCurrentConnectionInfo without a ConnectionID
   * is answered with the recorded error and an empty response.
   */
  function Serve(s: ConnValues, req: Request, name: string): (r: Dispatched)
    requires ValidValues(s)
    ensures ConnCmdOfName(name).None? ==>
              r.rc == -1 && r.req.errCode == InvalidAction && r.req.result.None?
    ensures ConnCmdOfName(name).Some? ==> r.rc == 0
    ensures ConnCmdOfName(name) == Some(GetCurrentConnectionIds) ==>
              r.req.errCode == Success && r.req.result == Some(req.result.GetOr([]) + [OutArg("ConnectionIDs", "0")])
    ensures ConnCmdOfName(name) == Some(GetProtocolInfo) ==>
              && r.req.errCode == Success
              && r.req.result == Some(req.result.GetOr([])
                   + [OutArg("Source", Read(s, SourceProtocolInfo)), OutArg("Sink", Read(s, SinkProtocolInfo))])
    ensures ConnCmdOfName(name) == Some(GetCurrentConnectionInfo) && ArgText(req.doc, "ConnectionID").Some? ==>
              r.req.errCode == Success && r.req.result == Some(req.result.GetOr([]) + InfoAnswers(s))
    ensures ConnCmdOfName(name) == Some(GetCurrentConnectionInfo) && ArgText(req.doc, "ConnectionID").None? ==>
              r.req.errCode == ActionFailed && r.req.result == Some([])
  {
    match ConnCmdOfName(name)
    case None => Dispatch(req, None)
    case Some(c) => Dispatch(req, Some(ActionDef(name, Some(Handler(s, c)))))
  }

  /** The evented variables, in index order: SinkProtocolInfo, SourceProtocolInfo, CurrentConnectionIDs. */
  lemma ConnEvented(s: ConnValues)
    requires ValidValues(s)
    ensures EventedIndices(ConnTable(s).evented, ConnVarCount)
            == [SinkProtocolInfo as nat, SourceProtocolInfo as nat, CurrentConnectionIDs as nat]
  {
    var f := ConnTable(s).evented;
    assert EventedIndices(f, 1) == [];
    assert EventedIndices(f, 2) == [1];
    assert EventedIndices(f, 3) == [1];
    assert EventedIndices(f, 4) == [1];
    assert EventedIndices(f, 5) == [1];
    assert EventedIndices(f, 6) == [1];
    assert EventedIndices(f, 7) == [1];
    assert EventedIndices(f, 8) == [1];
    assert EventedIndices(f, 9) == [1, 8];
  }

  /**
   * A new ConnectionManager subscriber (the service has no notify routine)
   * is shown the sink info, the source info and the connection list.
   */
  lemma SubscriberSeesProtocolInfo(s: ConnValues, escape: string -> string, accepted: bool)
    requires ValidValues(s)
    ensures var r := HandleSubscription(Some(Service(ConnTable(s), None)), escape, accepted);
            r.snapshot == Some(Snapshot(
              ["SinkProtocolInfo", "SourceProtocolInfo", "CurrentConnectionIDs"],
              [escape(Read(s, SinkProtocolInfo)), escape(Read(s, SourceProtocolInfo)), escape(Read(s, CurrentConnectionIDs))],
              3))
  {
    ConnEvented(s);
    ConnTableReads(s, SinkProtocolInfo);
    ConnTableReads(s, SourceProtocolInfo);
    ConnTableReads(s, CurrentConnectionIDs);
    var snap := SnapshotOf(ConnTable(s), escape);
    assert snap.names == ["SinkProtocolInfo", "SourceProtocolInfo", "CurrentConnectionIDs"];
    assert snap.values == [escape(Read(s, SinkProtocolInfo)), escape(Read(s, SourceProtocolInfo)),
                           escape(Read(s, CurrentConnectionIDs))];
  }
}
