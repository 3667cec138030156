/**
 * The part of Python's `enum.StrEnum` class creation that the bus drafts
 * (bus_OLD.py, bus.py) rely on: members declared with `enum.auto()` get
 * their value from `_generate_next_value_`, which is `name.lower()` unless
 * the class body defines its own; a class body that defines its own hook
 * after an `auto()` member has already been resolved is rejected with
 * TypeError (Python 3.12 `enum._EnumDict.__setitem__`).
 */
module StrEnums {
  import opened Common
  import Text

  /** One declaration of an enum class body, in source order. */
  datatype BodyItem =
    | AutoMember(name: string)
    /** A `_generate_next_value_` returning `name.upper()`. */
    | UpperHook

  /** A created member: its name and its (string) value. */
  datatype Member = Member(name: string, value: string)

  /** True when a hook is declared after some `auto()` member. */
  predicate HookAfterMember(body: seq<BodyItem>)
  {
    exists i, j :: 0 <= i < j < |body| && body[i].AutoMember? && body[j].UpperHook?
  }

  predicate HasHook(body: seq<BodyItem>)
  {
    exists j :: 0 <= j < |body| && body[j].UpperHook?
  }

  /** The members in declaration order. */
  function MemberNames(body: seq<BodyItem>): (r: seq<string>)
    ensures forall n :: n in r <==> AutoMember(n) in body
  {
    if |body| == 0 then []
    else
      var rest := MemberNames(body[1..]);
      assert body == [body[0]] + body[1..];
      if body[0].AutoMember? then [body[0].name] + rest else rest
  }

  /**
   * Creating a StrEnum class from its body: TypeError when the hook comes
   * after a member; otherwise each member, in order, with the upper-cased
   * name as value if the body has the hook, the lower-cased name if not.
   */
  function MakeStrEnum(body: seq<BodyItem>): Result<seq<Member>, Exception>
  {
    if HookAfterMember(body) then Failure(TypeError)
    else
      var names := MemberNames(body);
      Success(seq(|names|, k requires 0 <= k < |names| =>
        Member(names[k], if HasHook(body) then Text.Upper(names[k]) else Text.Lower(names[k]))))
  }

  /** A body declaring these members with `auto()`, in order. */
  function AutoMembers(names: seq<string>): seq<BodyItem>
  {
    seq(|names|, k requires 0 <= k < |names| => AutoMember(names[k]))
  }

  lemma {:induction false} MemberNamesOfAutos(names: seq<string>)
    ensures MemberNames(AutoMembers(names)) == names
  {
    if |names| > 0 {
      MemberNamesOfAutos(names[1..]);
      assert AutoMembers(names)[1..] == AutoMembers(names[1..]);
    }
  }

  /** A body with the hook declared before all its members creates the class with upper-cased values. */
  lemma {:induction false} HookFirst(names: seq<string>)
    ensures var r := MakeStrEnum([UpperHook] + AutoMembers(names));
            && r.Success? && |r.value| == |names|
            && forall k :: 0 <= k < |names| ==> r.value[k] == Member(names[k], Text.Upper(names[k]))
  {
    var body := [UpperHook] + AutoMembers(names);
    assert body[0].UpperHook?;
    assert !HookAfterMember(body);
    assert body[1..] == AutoMembers(names);
    MemberNamesOfAutos(names);
  }

  /** A body without the hook creates the class with lower-cased values. */
  lemma {:induction false} NoHook(names: seq<string>)
    ensures var r := MakeStrEnum(AutoMembers(names));
            && r.Success? && |r.value| == |names|
            && forall k :: 0 <= k < |names| ==> r.value[k] == Member(names[k], Text.Lower(names[k]))
  {
    assert !HasHook(AutoMembers(names));
    MemberNamesOfAutos(names);
  }

  /** A hook declared after a member makes class creation fail. */
  lemma {:induction false} HookLast(names: seq<string>)
    requires |names| > 0
    ensures MakeStrEnum(AutoMembers(names) + [UpperHook]) == Failure(TypeError)
  {
    var body := AutoMembers(names) + [UpperHook];
    assert body[0].AutoMember? && body[|names|].UpperHook?;
  }

  /** When member values are distinct, looking up a member's value gives that member. */
  lemma {:induction false} ByValueDistinct(members: seq<Member>, k: nat)
    requires k < |members|
    requires forall i, j :: 0 <= i < j < |members| ==> members[i].value != members[j].value
    ensures ByValue(members, members[k].value) == Success(members[k])
  {
    if k > 0 {
      assert members[0].value != members[k].value;
      ByValueDistinct(members[1..], k - 1);
    }
  }

  /** `EnumClass(text)`: the member whose value is `text`, or ValueError. */
  function ByValue(members: seq<Member>, text: string): (r: Result<Member, Exception>)
    ensures r.Success? ==> r.value in members && r.value.value == text
    ensures r.Failure? <==> forall m :: m in members ==> m.value != text
    ensures r.Failure? ==> r.error == ValueError(text)
  {
    if |members| == 0 then Failure(ValueError(text))
    else if members[0].value == text then Success(members[0])
    else
      var r := ByValue(members[1..], text);
      assert members == [members[0]] + members[1..];
      r
  }
}
