/**
 * The first bus draft (bus_OLD.py): a Signal StrEnum whose value hook is
 * declared before its members, a Request parsed from `<signal> <json>`,
 * and a BusManager keeping one handler per signal in a table shared by
 * every instance. (Its Command class is the same as bus.py's.)
 *
 * `json.loads` is a parameter: it yields the decoded value, or None when
 * the text is not JSON (JSONDecodeError, a ValueError).
 */
module BusOld {
  import opened Common
  import Text
  import opened StrEnums

  /** The identity of a handler coroutine function. */
  type HandlerId = string

  const SignalNames: seq<string> := [
    "CLIENT_CONNECTED", "CLIENT_DISCONNECTED", "LAYOUT_CLEAN", "LAYOUT_UPDATED", "EVERY_SECOND", "VAR_UPDATED"
  ]

  /** The body of `Signal`: the value hook first, then the members. */
  const SignalBody: seq<BodyItem> := [UpperHook] + AutoMembers(SignalNames)

  /** No Signal name has a lower-case letter. */
  lemma {:induction false} SignalNamesUpper()
    ensures forall k :: 0 <= k < |SignalNames| ==> Text.Upper(SignalNames[k]) == SignalNames[k]
  {
    Text.UpperIdentity("CLIENT_CONNECTED");
    Text.UpperIdentity("CLIENT_DISCONNECTED");
    Text.UpperIdentity("LAYOUT_CLEAN");
    Text.UpperIdentity("LAYOUT_UPDATED");
    Text.UpperIdentity("EVERY_SECOND");
    Text.UpperIdentity("VAR_UPDATED");
  }

  /** Signal names are pairwise distinct and contain no space. */
  lemma {:induction false} SignalNamesDistinct()
    ensures forall k :: 0 <= k < |SignalNames| ==> ' ' !in SignalNames[k]
    ensures forall i, j :: 0 <= i < j < |SignalNames| ==> SignalNames[i] != SignalNames[j]
  {
  }

  /**
   * The Signal members: the class is created, and each member's value is
   * its own upper-case name (`'EVERY_SECOND'`), because the hook precedes
   * the members.
   */
  function Signals(): (r: seq<Member>)
    ensures MakeStrEnum(SignalBody) == Success(r)
    ensures |r| == |SignalNames|
    ensures forall k :: 0 <= k < |r| ==> r[k] == Member(SignalNames[k], SignalNames[k])
  {
    HookFirst(SignalNames);
    SignalNamesUpper();
    MakeStrEnum(SignalBody).value
  }

  /** A parsed request: the Signal member and the decoded payload. */
  datatype Request = Request(signal: Member, data: Value)

  /**
   * `Request.parse` against the members of a Signal class: ValueError when
   * the text has no space (two names cannot be unpacked), when the text
   * before the first space is no member's value, or when the rest is not
   * JSON; otherwise that member and the decoded rest.
   */
  function ParseWith(raw: string, signals: seq<Member>, loads: string -> Option<Value>): (r: Result<Request, Exception>)
    ensures r.Failure? ==> r.error.ValueError?
    ensures ' ' !in raw ==> r.Failure?
    ensures r.Success? ==> r.value.signal in signals && ' ' !in r.value.signal.value
    ensures r.Success? ==> exists payload :: raw == r.value.signal.value + " " + payload
                             && loads(payload) == Some(r.value.data)
  {
    match Text.SplitFirst(raw, ' ')
    case None => Failure(ValueError("not enough values to unpack (expected 2, got 1)"))
    case Some((head, payload)) =>
      match ByValue(signals, head)
      case Failure(e) => Failure(e)
      case Success(signal) =>
        match loads(payload)
        case None => Failure(ValueError(payload))
        case Some(data) =>
          assert raw == signal.value + " " + payload;
          Success(Request(signal, data))
  }

  /**
   * When member values are distinct and space-free, parsing a member's
   * value, a space and a JSON text gives back that member and the value,
   * spaces in the payload included.
   */
  lemma {:induction false} ParseWithOfFrame(signals: seq<Member>, k: nat, payload: string, data: Value, loads: string -> Option<Value>)
    requires k < |signals|
    requires forall i :: 0 <= i < |signals| ==> ' ' !in signals[i].value
    requires forall i, j :: 0 <= i < j < |signals| ==> signals[i].value != signals[j].value
    requires loads(payload) == Some(data)
    ensures ParseWith(signals[k].value + " " + payload, signals, loads) == Success(Request(signals[k], data))
  {
    Text.SplitFirstOfConcat(signals[k].value, ' ', payload);
    assert signals[k].value + " " + payload == signals[k].value + [' '] + payload;
    ByValueDistinct(signals, k);
  }

  /** The round trip for this draft's own Signal class. */
  lemma {:induction false} ParseOfFrame(k: nat, payload: string, data: Value, loads: string -> Option<Value>)
    requires k < |Signals()| && loads(payload) == Some(data)
    ensures ParseWith(Signals()[k].value + " " + payload, Signals(), loads) == Success(Request(Signals()[k], data))
  {
    SignalNamesDistinct();
    ParseWithOfFrame(Signals(), k, payload, data, loads);
  }

  /** `BusManager._signal_to_handler`: one dict at class level, so every manager sees the same one. */
  class HandlerTable {
    var handlers: map<string, HandlerId>

    constructor ()
      ensures handlers == map[]
    {
      handlers := map[];
    }
  }

  class BusManager {
    const table: HandlerTable

    constructor (table: HandlerTable)
      ensures this.table == table
    {
      this.table := table;
    }

    /** `add_handler`: one handler per signal; a later call replaces the earlier handler. */
    method AddHandler(signal: Member, handler: HandlerId)
      modifies table
      ensures table.handlers == old(table.handlers)[signal.value := handler]
    {
      table.handlers := table.handlers[signal.value := handler];
    }

    /** `_handle_signal`: the signal's handler called once with the data, or nothing without one. */
    method HandleSignal(signal: Member, data: Value) returns (calls: seq<(HandlerId, Value)>)
      ensures signal.value !in table.handlers ==> calls == []
      ensures signal.value in table.handlers ==> calls == [(table.handlers[signal.value], data)]
    {
      if signal.value in table.handlers {
        calls := [(table.handlers[signal.value], data)];
      } else {
        calls := [];
      }
    }

    /**
     * `handle_request`: a request that does not parse raises its
     * ValueError and calls nothing; otherwise the parsed signal's handler,
     * if any, is called exactly once with the parsed payload.
     */
    method HandleRequest(raw: string, loads: string -> Option<Value>) returns (r: Result<seq<(HandlerId, Value)>, Exception>)
      ensures ParseWith(raw, Signals(), loads).Failure? ==> r == Failure(ParseWith(raw, Signals(), loads).error)
      ensures ParseWith(raw, Signals(), loads).Success? ==>
                var req := ParseWith(raw, Signals(), loads).value;
                r == Success(if req.signal.value in table.handlers then [(table.handlers[req.signal.value], req.data)] else [])
    {
      var request :- ParseWith(raw, Signals(), loads);
      var calls := HandleSignal(request.signal, request.data);
      r := Success(calls);
    }
  }

  /** Two managers built over the shared table see each other's registrations. */
  method SharedAcrossInstances(signal: Member, handler: HandlerId) returns (seen: seq<(HandlerId, Value)>)
    ensures seen == [(handler, Null)]
  {
    var table := new HandlerTable();
    var first := new BusManager(table);
    var second := new BusManager(table);
    first.AddHandler(signal, handler);
    seen := second.HandleSignal(signal, Null);
  }
}
