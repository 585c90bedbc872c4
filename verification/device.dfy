/**
 * The generic action framework shared by the three services: reading a
 * service variable with its default, accumulating an action response,
 * recording an error, reading an input argument, the InstanceID check,
 * dispatching an action to its handler, and the evented-variable snapshot a
 * new subscriber receives.
 *
 * The SOAP request and response documents are modelled as lists of
 * (name, text) pairs; the libupnp calls that build them are reduced to the
 * values they produce.
 */
module Device {
  import opened Common

  /** libupnp's UPNP_E_SUCCESS. */
  const Success: int := 0
  /** UPnP control error 401, Invalid Action. */
  const InvalidAction: int := 401
  /** UPnP control error 402, Invalid Args. */
  const InvalidArgs: int := 402
  /** UPnP control error 501, Action Failed. */
  const ActionFailed: int := 501
  /** libupnp's UPNP_E_INTERNAL_ERROR. */
  const InternalError: int := -911

  /** One input argument element of the action request: its name and its text child, if any. */
  datatype ArgNode = ArgNode(name: string, text: Option<string>)

  /**
   * The action request document: absent, a document without an action
   * element, or the action element's argument children in document order.
   */
  datatype ActionDoc = NoDocument | NoActionElement | Arguments(args: seq<ArgNode>)

  /** One output argument appended to the action response. */
  datatype OutArg = OutArg(name: string, value: string)

  /**
   * The libupnp action request: the request document, the response built so
   * far (None while ActionResult is NULL), and the error code and text.
   */
  datatype Request = Request(doc: ActionDoc, result: Option<seq<OutArg>>, errCode: int, errStr: string)

  /** The per-call context handed to a handler: the request and a status that turns -1 on the first error. */
  datatype ActionEvent = ActionEvent(req: Request, status: int)

  /** A routine's C return value together with the action context it leaves behind. */
  datatype Ret<T> = Ret(rc: T, ev: ActionEvent)

  /**
   * A service's variable arrays: names, current values (None is NULL),
   * the optional defaults array, and the evented flag of each variable.
   * The arrays' trailing UNKNOWN slot is never read and is left out.
   */
  datatype VarTable = VarTable(
    names: seq<string>,
    values: seq<Option<string>>,
    defaults: Option<seq<Option<string>>>,
    evented: seq<bool>)

  /** variable_count, and the arrays all have that length. */
  predicate WellFormed(vt: VarTable) {
    && |vt.values| == |vt.names|
    && |vt.evented| == |vt.names|
    && (vt.defaults.Some? ==> |vt.defaults.value| == |vt.names|)
  }

  /** The value a variable reads as: the stored one, else a non-null default, else "". */
  function GetServiceVar(vt: VarTable, varnum: nat): (r: string)
    requires WellFormed(vt) && varnum < |vt.names|
    ensures vt.values[varnum].Some? ==> r == vt.values[varnum].value
    ensures (vt.values[varnum].None? && vt.defaults.Some? && vt.defaults.value[varnum].Some?)
              ==> r == vt.defaults.value[varnum].value
    ensures vt.values[varnum].None? && (vt.defaults.None? || vt.defaults.value[varnum].None?) ==> r == ""
  {
    if vt.values[varnum].Some? then vt.values[varnum].value
    else if vt.defaults.Some? && vt.defaults.value[varnum].Some? then vt.defaults.value[varnum].value
    else ""
  }

  /**
   * upnp_set_error: marks the event failed, drops the response and sets the
   * SOAP error to Action Failed. The `code` argument is not used.
   */
  function SetError(ev: ActionEvent, code: int, msg: string): (r: ActionEvent)
    ensures r.status == -1
    ensures r.req.result.None?
    ensures r.req.errCode == ActionFailed && r.req.errStr == msg
    ensures r.req.doc == ev.req.doc
  {
    ActionEvent(ev.req.(result := None, errCode := ActionFailed, errStr := msg), -1)
  }

  /** Whatever code a handler passes, the recorded error is the same. */
  lemma SetErrorIgnoresCode(ev: ActionEvent, c1: int, c2: int, msg: string)
    ensures SetError(ev, c1, msg) == SetError(ev, c2, msg)
  {
  }

  /**
   * upnp_add_response: appends one output argument unless an error has
   * already been recorded. `lib` is the outcome of UpnpAddToActionResponse:
   * None for success, Some(message) for a failure, which drops the response
   * and sets Action Failed without touching the status.
   */
  function AddResponse(ev: ActionEvent, key: string, value: string, lib: Option<string>): (r: Ret<int>)
    ensures ev.status != 0 ==> r.rc == -1 && r.ev == ev
    ensures ev.status == 0 && lib.None? ==>
              && r.rc == 0
              && r.ev.req.result == Some(ev.req.result.GetOr([]) + [OutArg(key, value)])
              && r.ev.status == 0 && r.ev.req.errCode == ev.req.errCode
    ensures ev.status == 0 && lib.Some? ==>
              && r.rc == -1
              && r.ev.req.result.None? && r.ev.req.errCode == ActionFailed
              && r.ev.status == 0
    ensures r.ev.req.doc == ev.req.doc
  {
    if ev.status != 0 then Ret(-1, ev)
    else if lib.Some? then
      Ret(-1, ev.(req := ev.req.(result := None, errCode := ActionFailed, errStr := lib.value)))
    else
      Ret(0, ev.(req := ev.req.(result := Some(ev.req.result.GetOr([]) + [OutArg(key, value)]))))
  }

  /** Once an error is recorded, no further output is appended, however many are attempted. */
  lemma {:induction false} NoResponseAfterError(ev: ActionEvent, items: seq<OutArg>)
    requires ev.status != 0
    ensures AddAll(ev, items) == ev
    decreases |items|
  {
    if |items| > 0 {
      NoResponseAfterError(AddResponse(ev, items[0].name, items[0].value, None).ev, items[1..]);
    }
  }

  /** Appends a list of outputs one after another, as the handlers' `goto out` chains do. */
  function AddAll(ev: ActionEvent, items: seq<OutArg>): ActionEvent
    decreases |items|
  {
    if |items| == 0 then ev
    else AddAll(AddResponse(ev, items[0].name, items[0].value, None).ev, items[1..])
  }

  /**
   * upnp_append_variable: appends the current value of variable `varnum`
   * under `paramName`; an out-of-range variable records an internal error.
   */
  function AppendVariable(vt: VarTable, ev: ActionEvent, varnum: nat, paramName: string, lib: Option<string>): (r: Ret<int>)
    requires WellFormed(vt)
    ensures varnum >= |vt.names| ==> r.rc == -1 && r.ev.status == -1 && r.ev.req.result.None?
    ensures varnum < |vt.names| && ev.status == 0 && lib.None? ==>
              && r.rc == 0 && r.ev.status == 0
              && r.ev.req.result == Some(ev.req.result.GetOr([]) + [OutArg(paramName, GetServiceVar(vt, varnum))])
    ensures ev.status != 0 ==> r.rc == -1
    ensures r.ev.req.doc == ev.req.doc
  {
    if varnum >= |vt.names| then
      Ret(-1, SetError(ev, InternalError, "Internal Error - illegal variable number " + IntToString(varnum)))
    else
      AddResponse(ev, paramName, GetServiceVar(vt, varnum), lib)
  }

  /** One (variable, output name) step of a handler's append chain. */
  datatype Append = Append(varnum: nat, paramName: string)

  /**
   * A handler's chain of upnp_append_variable calls that stops at the first
   * non-zero return; the result is the last return value.
   */
  function AppendChain(vt: VarTable, ev: ActionEvent, items: seq<Append>): (r: Ret<int>)
    requires WellFormed(vt) && |items| > 0
    ensures r.ev.req.doc == ev.req.doc
    decreases |items|
  {
    var first := AppendVariable(vt, ev, items[0].varnum, items[0].paramName, None);
    if first.rc != 0 || |items| == 1 then first
    else AppendChain(vt, first.ev, items[1..])
  }

  /** The outputs a chain lists when every step succeeds: each variable's current value, in order. */
  function Outputs(vt: VarTable, items: seq<Append>): seq<OutArg>
    requires WellFormed(vt)
    requires forall k :: 0 <= k < |items| ==> items[k].varnum < |vt.names|
  {
    seq(|items|, k requires 0 <= k < |items| => OutArg(items[k].paramName, GetServiceVar(vt, items[k].varnum)))
  }

  /**
   * A chain over valid variables, started without an error, succeeds and
   * appends exactly the listed variables' values in order; started after an
   * error, it appends nothing and returns -1.
   */
  lemma {:induction false} AppendChainOutputs(vt: VarTable, ev: ActionEvent, items: seq<Append>)
    requires WellFormed(vt) && |items| > 0
    requires forall k :: 0 <= k < |items| ==> items[k].varnum < |vt.names|
    ensures ev.status == 0 ==>
              && AppendChain(vt, ev, items).rc == 0
              && AppendChain(vt, ev, items).ev == ev.(req := ev.req.(result := Some(ev.req.result.GetOr([]) + Outputs(vt, items))))
    ensures ev.status != 0 ==> AppendChain(vt, ev, items) == Ret(-1, ev)
    decreases |items|
  {
    var first := AppendVariable(vt, ev, items[0].varnum, items[0].paramName, None);
    if |items| > 1 && ev.status == 0 {
      var o := OutArg(items[0].paramName, GetServiceVar(vt, items[0].varnum));
      var before := ev.req.result.GetOr([]);
      assert first.ev == ev.(req := ev.req.(result := Some(before + [o])));
      AppendChainOutputs(vt, first.ev, items[1..]);
      assert Outputs(vt, items) == [o] + Outputs(vt, items[1..]);
      assert (before + [o]) + Outputs(vt, items[1..]) == before + Outputs(vt, items);
    } else if ev.status == 0 {
      assert Outputs(vt, items) == [OutArg(items[0].paramName, GetServiceVar(vt, items[0].varnum))];
    }
  }

  /** Index of the first argument called `key`. */
  function FindArg(args: seq<ArgNode>, key: string): (r: Option<nat>)
    ensures r.Some? ==> r.value < |args| && args[r.value].name == key
    ensures r.Some? ==> forall i :: 0 <= i < r.value ==> args[i].name != key
    ensures r.None? ==> forall i :: 0 <= i < |args| ==> args[i].name != key
  {
    if |args| == 0 then None
    else if args[0].name == key then Some(0)
    else
      match FindArg(args[1..], key)
      case None => None
      case Some(j) => Some(j + 1)
  }

  /** The text of the first argument called `key`: "" for an empty element, None when absent. */
  function ArgText(doc: ActionDoc, key: string): (r: Option<string>)
    ensures r.Some? <==> doc.Arguments? && exists i :: 0 <= i < |doc.args| && doc.args[i].name == key
    ensures r.Some? ==> exists j ::
              && 0 <= j < |doc.args| && doc.args[j].name == key
              && (forall i :: 0 <= i < j ==> doc.args[i].name != key)
              && r.value == doc.args[j].text.GetOr("")
  {
    match doc
    case Arguments(args) =>
      (match FindArg(args, key)
       case Some(j) => Some(args[j].text.GetOr(""))
       case None => None)
    case _ => None
  }

  /**
   * upnp_get_string: the argument's text, or None with an Invalid Args
   * error (recorded, like every error, as Action Failed).
   */
  function GetString(ev: ActionEvent, key: string): (r: Ret<Option<string>>)
    ensures r.rc == ArgText(ev.req.doc, key)
    ensures r.rc.Some? ==> r.ev == ev
    ensures r.rc.None? ==> r.ev.status == -1 && r.ev.req.errCode == ActionFailed && r.ev.req.result.None?
    ensures r.ev.req.doc == ev.req.doc
  {
    match ev.req.doc
    case Arguments(args) =>
      (match FindArg(args, key)
       case Some(j) => Ret(Some(args[j].text.GetOr("")), ev)
       case None => Ret(None, SetError(ev, InvalidArgs, "Missing action request argument (" + key + ")")))
    case _ => Ret(None, SetError(ev, InvalidArgs, "Invalid action request document"))
  }

  /** The request names instance 0: InstanceID is present and atoi of its text is 0. */
  predicate InstanceZero(doc: ActionDoc) {
    ArgText(doc, "InstanceID").Some? && Atoi(ArgText(doc, "InstanceID").value) == 0
  }

  /**
   * upnp_obtain_instanceid: 0 when the request is for instance 0, else -1.
   * A missing InstanceID records an error; a non-zero one does not.
   */
  function ObtainInstanceId(ev: ActionEvent): (r: Ret<int>)
    ensures r.rc == 0 <==> InstanceZero(ev.req.doc)
    ensures r.rc == 0 || r.rc == -1
    ensures ArgText(ev.req.doc, "InstanceID").Some? ==> r.ev == ev
    ensures ArgText(ev.req.doc, "InstanceID").None? ==> r.ev.status == -1 && r.ev.req.errStr == "Missing InstanceID"
    ensures r.ev.req.doc == ev.req.doc
  {
    var got := GetString(ev, "InstanceID");
    match got.rc
    case None => Ret(-1, SetError(got.ev, InvalidArgs, "Missing InstanceID"))
    case Some(text) => Ret(if Atoi(text) != 0 then -1 else 0, got.ev)
  }

  /** Text that is not a number counts as instance 0. */
  lemma NonNumericInstanceIsZero(ev: ActionEvent, text: string)
    requires ev.req.doc == Arguments([ArgNode("InstanceID", Some(text))])
    requires |text| > 0 && !IsSpace(text[0]) && !IsDigit(text[0]) && text[0] != '-' && text[0] != '+'
    ensures ObtainInstanceId(ev).rc == 0
  {
    AtoiOfNonNumeric(text);
  }

  /** atoi narrows to `int`, so an InstanceID of 2^32 counts as instance 0. */
  lemma WrappedInstanceIsZero()
    ensures InstanceZero(Arguments([ArgNode("InstanceID", Some(IntToString(IntModulus)))]))
  {
    AtoiOfIntToString(IntModulus);
  }

  /** An action as registered in a service's table: its name and its handler, if any. */
  datatype ActionDef = ActionDef(name: string, handler: Option<ActionEvent -> Ret<int>>)

  /** handle_action_request's outcome: its return value and the request it leaves behind. */
  datatype Dispatched = Dispatched(rc: int, req: Request)

  /**
   * handle_action_request, given the action the lookup found: an unknown
   * action is error 401; an action without handler succeeds doing nothing;
   * otherwise the handler runs on a fresh event and only its return value
   * decides whether ErrCode is reset to success.
   */
  function Dispatch(req: Request, action: Option<ActionDef>): (r: Dispatched)
    ensures action.None? ==> r.rc == -1 && r.req.result.None? && r.req.errCode == InvalidAction
    ensures action.Some? ==> r.rc == 0
    ensures action.Some? && action.value.handler.None? ==> r.req == req.(errCode := Success)
    ensures action.Some? && action.value.handler.Some? ==>
              var out := action.value.handler.value(ActionEvent(req, 0));
              && (out.rc == 0 ==> r.req.errCode == Success)
              && (out.rc != 0 ==> r.req.errCode == out.ev.req.errCode && r.req.errStr == out.ev.req.errStr)
              && r.req.result == Some(out.ev.req.result.GetOr([]))
  {
    match action
    case None => Dispatched(-1, req.(result := None, errCode := InvalidAction))
    case Some(a) =>
      match a.handler
      case None => Dispatched(0, req.(errCode := Success))
      case Some(h) => Answer(h(ActionEvent(req, 0)))
  }

  /**
   * How handle_action_request answers once a handler has run: a zero return
   * resets ErrCode to success, a missing result becomes an empty response,
   * and the request is reported as handled whatever the handler returned.
   */
  function Answer(out: Ret<int>): (r: Dispatched)
    ensures r.rc == 0
    ensures out.rc == 0 ==> r.req.errCode == Success
    ensures out.rc != 0 ==> r.req.errCode == out.ev.req.errCode && r.req.errStr == out.ev.req.errStr
    ensures r.req.result == Some(out.ev.req.result.GetOr([])) && r.req.doc == out.ev.req.doc
  {
    var answered := if out.rc == 0 then out.ev.req.(errCode := Success) else out.ev.req;
    Dispatched(0, answered.(result := Some(answered.result.GetOr([]))))
  }

  /**
   * A handler that records an error but returns 0 is reported as a success
   * (with an empty response, since the error dropped the outputs).
   */
  lemma ErrorIgnoredWhenHandlerReturnsZero(req: Request, name: string, msg: string)
    ensures var h := (ev: ActionEvent) => Ret(0, SetError(ev, 701, msg));
            var r := Dispatch(req, Some(ActionDef(name, Some(h))));
            r.rc == 0 && r.req.errCode == Success && r.req.result == Some([])
  {
  }

  /** A service: its variable table and the optional routine run before a subscription is accepted. */
  datatype Service = Service(vars: VarTable, notify: Option<VarTable -> VarTable>)

  /** The indices below `n` of the evented variables, in index order. */
  function EventedIndices(evented: seq<bool>, n: nat): (r: seq<nat>)
    requires n <= |evented|
    ensures forall k :: 0 <= k < |r| ==> r[k] < n
  {
    if n == 0 then []
    else EventedIndices(evented, n - 1) + (if evented[n - 1] then [n - 1] else [])
  }

  /**
   * The evented list holds exactly the evented indices below `n`, each
   * once, in increasing order.
   */
  lemma {:induction false} EventedIndicesExact(evented: seq<bool>, n: nat)
    requires n <= |evented|
    ensures var r := EventedIndices(evented, n);
            && (forall k :: 0 <= k < |r| ==> evented[r[k]])
            && (forall k, l :: 0 <= k < l < |r| ==> r[k] < r[l])
            && (forall i :: 0 <= i < n && evented[i] ==> i in r)
    decreases n
  {
    if n > 0 {
      EventedIndicesExact(evented, n - 1);
    }
  }

  /** When exactly one variable is evented, it is the whole evented list. */
  lemma {:induction false} EventedIndicesSingle(evented: seq<bool>, n: nat, j: nat)
    requires n <= |evented|
    requires forall i :: 0 <= i < |evented| ==> (evented[i] <==> i == j)
    ensures EventedIndices(evented, n) == if j < n then [j] else []
    decreases n
  {
    if n > 0 {
      EventedIndicesSingle(evented, n - 1, j);
    }
  }

  /** The table a subscriber is shown: after the service's notify routine, if it has one. */
  function Notified(srv: Service): VarTable {
    match srv.notify
    case Some(f) => f(srv.vars)
    case None => srv.vars
  }

  /** The snapshot of evented variables: names and escaped current values, and their number. */
  datatype Snapshot = Snapshot(names: seq<string>, values: seq<string>, count: nat)

  function SnapshotOf(vt: VarTable, escape: string -> string): (s: Snapshot)
    requires WellFormed(vt)
    ensures |s.names| == s.count && |s.values| == s.count
  {
    var idx := EventedIndices(vt.evented, |vt.names|);
    Snapshot(
      seq(|idx|, k requires 0 <= k < |idx| => vt.names[idx[k]]),
      seq(|idx|, k requires 0 <= k < |idx| => escape(GetServiceVar(vt, idx[k]))),
      |idx|)
  }

  /** With a single evented variable, the snapshot is that variable alone. */
  lemma SnapshotOfSingle(vt: VarTable, escape: string -> string, j: nat)
    requires WellFormed(vt) && EventedIndices(vt.evented, |vt.names|) == [j]
    ensures j < |vt.names|
    ensures SnapshotOf(vt, escape) == Snapshot([vt.names[j]], [escape(GetServiceVar(vt, j))], 1)
  {
    assert EventedIndices(vt.evented, |vt.names|)[0] == j;
    var s := SnapshotOf(vt, escape);
    assert s.names == [vt.names[j]];
    assert s.values == [escape(GetServiceVar(vt, j))];
  }

  /**
   * The snapshot loop of handle_subscription_request: one pass counts the
   * evented variables, a second fills the name and value arrays.
   */
  method BuildSnapshot(vt: VarTable, escape: string -> string) returns (names: seq<string>, values: seq<string>, count: nat)
    requires WellFormed(vt)
    ensures count == |EventedIndices(vt.evented, |vt.names|)|
    ensures Snapshot(names, values, count) == SnapshotOf(vt, escape)
  {
    count := CountEvented(vt);
    names := [];
    values := [];
    var i := 0;
    ghost var idx: seq<nat> := [];
    while i < |vt.names|
      invariant 0 <= i <= |vt.names|
      invariant idx == EventedIndices(vt.evented, i)
      invariant |names| == |idx| && |values| == |idx|
      invariant forall k :: 0 <= k < |idx| ==>
                  names[k] == vt.names[idx[k]] && values[k] == escape(GetServiceVar(vt, idx[k]))
    {
      if vt.evented[i] {
        names := names + [vt.names[i]];
        values := values + [escape(GetServiceVar(vt, i))];
        idx := idx + [i];
      }
      i := i + 1;
    }
    SnapshotPointwise(vt, escape, names, values);
  }

  /** The counting pass of the snapshot loop. */
  method CountEvented(vt: VarTable) returns (count: nat)
    requires WellFormed(vt)
    ensures count == |EventedIndices(vt.evented, |vt.names|)|
  {
    count := 0;
    var i := 0;
    while i < |vt.names|
      invariant 0 <= i <= |vt.names|
      invariant count == |EventedIndices(vt.evented, i)|
    {
      if vt.evented[i] {
        count := count + 1;
      }
      i := i + 1;
    }
  }

  /** Two name and value lists that agree with the evented variables entry by entry are the snapshot. */
  lemma SnapshotPointwise(vt: VarTable, escape: string -> string, names: seq<string>, values: seq<string>)
    requires WellFormed(vt)
    requires |names| == |EventedIndices(vt.evented, |vt.names|)| && |values| == |names|
    requires forall k :: 0 <= k < |names| ==>
               var i := EventedIndices(vt.evented, |vt.names|)[k];
               names[k] == vt.names[i] && values[k] == escape(GetServiceVar(vt, i))
    ensures Snapshot(names, values, |names|) == SnapshotOf(vt, escape)
  {
    var s := SnapshotOf(vt, escape);
    assert names == s.names;
    assert values == s.values;
  }

  /** handle_subscription_request's outcome, including the table after the notify routine ran. */
  datatype Subscribed = Subscribed(rc: int, vars: Option<VarTable>, snapshot: Option<Snapshot>)

  /**
   * handle_subscription_request: an unknown service is refused; otherwise the
   * notify routine runs first, then the evented variables are offered to
   * UpnpAcceptSubscription, whose outcome is `accepted`.
   */
  function HandleSubscription(srv: Option<Service>, escape: string -> string, accepted: bool): (r: Subscribed)
    requires srv.Some? ==> WellFormed(Notified(srv.value))
    ensures srv.None? ==> r.rc == -1 && r.snapshot.None?
    ensures srv.Some? ==>
              && r.vars == Some(Notified(srv.value))
              && r.snapshot == Some(SnapshotOf(Notified(srv.value), escape))
              && r.snapshot.value.count == |EventedIndices(Notified(srv.value).evented, |Notified(srv.value).names|)|
              && (r.rc == 0 <==> accepted)
  {
    match srv
    case None => Subscribed(-1, None, None)
    case Some(s) =>
      var vt := Notified(s);
      Subscribed(if accepted then 0 else -1, Some(vt), Some(SnapshotOf(vt, escape)))
  }
}
