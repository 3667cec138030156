/**
 * The second bus draft (bus.py): the same six Signal members, a Command
 * class whose values come from StrEnum's own hook, and a BusManager whose
 * `handle_request` only parses.
 *
 * As written, `Signal` declares its value hook after its `auto()` members,
 * which Python 3.12 rejects with TypeError when the class body runs, so
 * the module cannot be imported. The rest of the model uses the class as
 * evidently intended, with the hook first, which is what bus_OLD.py does.
 */
module Bus {
  import opened Common
  import Text
  import opened StrEnums
  import BusOld

  /** The body of `Signal` as written: the members, then the hook. */
  const SignalBodyAsWritten: seq<BodyItem> := AutoMembers(BusOld.SignalNames) + [UpperHook]

  /** As written, creating the Signal class raises TypeError. */
  lemma {:induction false} SignalAsWritten()
    ensures MakeStrEnum(SignalBodyAsWritten) == Failure(TypeError)
  {
    HookLast(BusOld.SignalNames);
  }

  /**
   * The Signal class with the hook moved before the members: created, and
   * each value is the member's upper-case name.
   */
  function Signals(): (r: seq<Member>)
    ensures MakeStrEnum([UpperHook] + AutoMembers(BusOld.SignalNames)) == Success(r)
    ensures |r| == |BusOld.SignalNames|
    ensures forall k :: 0 <= k < |r| ==> r[k].value == r[k].name == BusOld.SignalNames[k]
  {
    HookFirst(BusOld.SignalNames);
    BusOld.SignalNamesUpper();
    MakeStrEnum([UpperHook] + AutoMembers(BusOld.SignalNames)).value
  }

  const CommandNames: seq<string> := ["clear_layout", "append_component", "update_var"]

  /** The body of `Command`: members only, so StrEnum's own lower-casing hook applies. */
  const CommandBody: seq<BodyItem> := AutoMembers(CommandNames)

  /** No Command name has an upper-case letter. */
  lemma {:induction false} CommandNamesLower()
    ensures forall k :: 0 <= k < |CommandNames| ==> Text.Lower(CommandNames[k]) == CommandNames[k]
  {
    Text.LowerIdentity("clear_layout");
    Text.LowerIdentity("append_component");
    Text.LowerIdentity("update_var");
  }

  /** Each Command member's value is its own (lower-case) name, e.g. `'update_var'`. */
  lemma {:induction false} CommandValues()
    ensures MakeStrEnum(CommandBody).Success?
    ensures |MakeStrEnum(CommandBody).value| == |CommandNames|
    ensures forall k :: 0 <= k < |CommandNames| ==> MakeStrEnum(CommandBody).value[k] == Member(CommandNames[k], CommandNames[k])
  {
    NoHook(CommandNames);
    CommandNamesLower();
  }

  class BusManager {
    constructor ()
    {
    }

    /**
     * `handle_request`: parses the text into a Request and returns it;
     * no handler is looked up or called. ValueError for a text without a
     * space, a first word that is no Signal value, or a non-JSON rest.
     */
    method HandleRequest(raw: string, loads: string -> Option<Value>) returns (r: Result<BusOld.Request, Exception>)
      ensures r == BusOld.ParseWith(raw, Signals(), loads)
      ensures r.Failure? ==> r.error.ValueError?
      ensures r.Success? ==> r.value.signal in Signals()
                             && exists payload :: raw == r.value.signal.value + " " + payload && loads(payload) == Some(r.value.data)
    {
      r := BusOld.ParseWith(raw, Signals(), loads);
    }
  }
}
