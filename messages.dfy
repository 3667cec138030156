/**
 * The message model: two families of dataclass records, Events (client to
 * server) and Commands (server to client). Python reflection is replaced by
 * an explicit class table: each declared class carries its name, the name
 * of its direct base class and its dataclass fields in declaration order.
 */
module Messages {
  import opened Common

  const EventBase := "Event"
  const CommandBase := "Command"

  /** A declared message class. `fields` lists its dataclass fields in order. */
  datatype ClassDecl = ClassDecl(name: string, base: string, fields: seq<string>)

  /** A dataclass declares each field once. */
  predicate DistinctFields(c: ClassDecl)
  {
    forall i, j :: 0 <= i < j < |c.fields| ==> c.fields[i] != c.fields[j]
  }

  /** An instance of a message class: one value per declared field, positionally. */
  datatype Message = Message(cls: ClassDecl, values: seq<Value>)

  predicate WellFormed(m: Message)
  {
    DistinctFields(m.cls) && |m.values| == |m.cls.fields|
  }

  /** `_name`: the name of the message's class. */
  function Name(m: Message): string
  {
    m.cls.name
  }

  /** The field-to-value dict built from parallel lists of names and values. */
  function FieldMap(fields: seq<string>, values: seq<Value>): (d: Data)
    requires |fields| == |values|
    ensures d.Keys == Names(fields)
  {
    if |fields| == 0 then map[]
    else
      var n := |fields| - 1;
      FieldSetSnoc(fields);
      FieldMap(fields[..n], values[..n])[fields[n] := values[n]]
  }

  /** A name that no later position repeats maps to the value at its position: later names win. */
  lemma {:induction false} FieldMapAt(fields: seq<string>, values: seq<Value>, i: nat)
    requires |fields| == |values| && i < |fields|
    requires forall j :: i < j < |fields| ==> fields[j] != fields[i]
    ensures FieldMap(fields, values)[fields[i]] == values[i]
  {
    var n := |fields| - 1;
    if i < n {
      FieldMapAt(fields[..n], values[..n], i);
      assert fields[..n][i] == fields[i] && values[..n][i] == values[i];
    }
  }

  /** With distinct names, each name maps to the value at its own position. */
  lemma {:induction false} FieldMapValues(fields: seq<string>, values: seq<Value>)
    requires |fields| == |values|
    requires forall i, j :: 0 <= i < j < |fields| ==> fields[i] != fields[j]
    ensures forall i :: 0 <= i < |fields| ==> FieldMap(fields, values)[fields[i]] == values[i]
  {
    forall i | 0 <= i < |fields|
      ensures FieldMap(fields, values)[fields[i]] == values[i]
    {
      FieldMapAt(fields, values, i);
    }
  }

  /** The names a list holds, as a set. */
  function Names(fields: seq<string>): set<string>
  {
    set f | f in fields
  }

  /** The names of a list are those of its front and its last one. */
  lemma {:induction false} FieldSetSnoc(fields: seq<string>)
    requires |fields| > 0
    ensures Names(fields) == Names(fields[..|fields| - 1]) + {fields[|fields| - 1]}
  {
    assert fields == fields[..|fields| - 1] + [fields[|fields| - 1]];
  }

  /** `_data` (`dataclasses.asdict`): each declared field mapped to its current value. */
  function DataOf(m: Message): (d: Data)
    requires WellFormed(m)
    ensures d.Keys == FieldSet(m.cls)
    ensures forall i :: 0 <= i < |m.cls.fields| ==> d[m.cls.fields[i]] == m.values[i]
  {
    FieldMapValues(m.cls.fields, m.values);
    FieldMap(m.cls.fields, m.values)
  }

  /** The names a class declares, as a set. */
  function FieldSet(c: ClassDecl): set<string>
  {
    Names(c.fields)
  }

  /**
   * `cls(**kwargs)` for a dataclass without defaults: the keyword names
   * must be exactly the declared fields (a missing or an unexpected one is
   * a TypeError); each field takes the value given under its name.
   */
  function FromKwargs(cls: ClassDecl, kwargs: Data): (r: Result<Message, Exception>)
    ensures r.Success? <==> kwargs.Keys == FieldSet(cls)
    ensures r.Failure? ==> r.error == TypeError
    ensures r.Success? ==>
              && r.value.cls == cls && |r.value.values| == |cls.fields|
              && forall i :: 0 <= i < |cls.fields| ==> r.value.values[i] == kwargs[cls.fields[i]]
  {
    if kwargs.Keys == FieldSet(cls) then
      Success(Message(cls, seq(|cls.fields|, i requires 0 <= i < |cls.fields| => kwargs[cls.fields[i]])))
    else Failure(TypeError)
  }

  /** Rebuilding a message from its own `_data` gives the message back: `cls(**asdict(m)) == m`. */
  lemma {:induction false} FromKwargsOfData(m: Message)
    requires WellFormed(m)
    ensures FromKwargs(m.cls, DataOf(m)) == Success(m)
  {
    var r := FromKwargs(m.cls, DataOf(m));
    assert r.value.values == m.values;
  }

  /** The direct subclasses of `base`, in declaration order (`base.__subclasses__()`). */
  function DirectSubclasses(table: seq<ClassDecl>, base: string): (r: seq<ClassDecl>)
    ensures forall c :: c in r <==> c in table && c.base == base
  {
    if |table| == 0 then []
    else
      var n := |table| - 1;
      DirectSubclasses(table[..n], base) + (if table[n].base == base then [table[n]] else [])
  }

  /**
   * The dict `{ec.__name__: ec for ec in subclasses}` looked up at `name`:
   * a later class with the same name overwrites an earlier one.
   */
  function LookupLast(classes: seq<ClassDecl>, name: string): (r: Option<ClassDecl>)
    ensures r.None? <==> forall c :: c in classes ==> c.name != name
    ensures r.Some? ==> r.value in classes && r.value.name == name
  {
    if |classes| == 0 then None
    else
      var n := |classes| - 1;
      if classes[n].name == name then Some(classes[n])
      else
        var r := LookupLast(classes[..n], name);
        assert classes == classes[..n] + [classes[n]];
        r
  }

  /**
   * `Event.get_by_name(name)`: the direct Event subclass named `name`, or
   * KeyError when there is none.
   */
  function GetEventByName(table: seq<ClassDecl>, name: string): (r: Result<ClassDecl, Exception>)
    ensures r.Success? ==> r.value in table && r.value.base == EventBase && r.value.name == name
    ensures r.Failure? <==> forall c :: c in table && c.base == EventBase ==> c.name != name
    ensures r.Failure? ==> r.error == KeyError(name)
  {
    match LookupLast(DirectSubclasses(table, EventBase), name)
    case None => Failure(KeyError(name))
    case Some(c) => Success(c)
  }

  /** The two families are disjoint: a name lookup never yields a Command. */
  lemma {:induction false} GetEventNeverCommand(table: seq<ClassDecl>, name: string)
    ensures GetEventByName(table, name).Success? ==> GetEventByName(table, name).value.base != CommandBase
  {
  }

  /**
   * Only direct subclasses are in the lookup dict: a class derived from an
   * Event subclass (a grandchild of Event) is never what a name lookup
   * returns, whatever the name.
   */
  lemma {:induction false} GrandchildNeverFound(table: seq<ClassDecl>, child: ClassDecl, grandchild: ClassDecl, name: string)
    requires child.base == EventBase && grandchild.base == child.name
    requires child.name != EventBase
    ensures GetEventByName(table, name) != Success(grandchild)
  {
  }
}
