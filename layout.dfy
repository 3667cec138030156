/**
 * The per-connection layout draft (layout.py): components whose callbacks
 * are recorded at declaration time in one class-level table and subscribed
 * per connection through a wrapper that filters on the owning connection,
 * and a Layout that materialises fresh components for each connection and
 * tears them down again.
 *
 * layout.py imports `subscribe`, `unsubscribe` and `send_command` from
 * core.py and `get_connection` from server.py, where none of them is
 * defined; it also imports core.py's `on` (core.py:151-156), which
 * registers an event callback. All of these calls are modelled by an
 * effect log: each call appends what it asked for (`on` appends a `Hook`
 * entry rather than touching the registry of core.py), and the current
 * connection is an explicit argument. The subscription state the
 * subscribe and unsubscribe calls produce is taken to be `Active`: a
 * subscribe adds the exact pair and an unsubscribe removes the exact pair.
 */
module Layouts {
  import opened Common
  import Text

  type ConnId = nat

  /** Signals are named by their class names. */
  type Signal = string

  const ClientConnected: Signal := "CLIENT_CONNECTED"
  const ClientDisconnected: Signal := "CLIENT_DISCONNECTED"
  const HtmlComponentName := "HTMLComponent"

  /**
   * A component class: its name, its `html`, and the field defaults of its
   * `Vars` class, or None when `Vars` is not a dataclass. Every field of a
   * dataclass `Vars` is taken to have a default.
   */
  datatype ComponentClass = ComponentClass(name: string, html: string, vars: Option<Data>)

  /** What `append` accepts: a component class, or an HTML string. */
  datatype Item = ClassItem(cls: ComponentClass) | HtmlItem(html: string)

  /** Every class in the list has a dataclass `Vars`. */
  predicate AllDataclasses(classes: seq<ComponentClass>)
  {
    forall i :: 0 <= i < |classes| ==> classes[i].vars.Some?
  }

  datatype Command =
    | SetVarCommand(key: string, value: Value)
    | UpdateLayoutCommand(html: string, vars: Data)

  /** A callback: a method bound to a component, or `callback_wrapper`'s wrapper around one. */
  datatype Callback =
    | Bound(owner: Component, methodName: string)
    | Wrapped(inner: Callback, connId: ConnId)

  /** One call into a missing collaborator. */
  datatype Effect =
    | Subscribe(signal: Signal, callback: Callback)
    | Unsubscribe(signal: Signal, callback: Callback)
    | Send(conn: ConnId, command: Command)
    | Hook(signal: Signal, hookName: string)

  /** The log of collaborator calls, oldest first. */
  class Collaborators {
    var log: seq<Effect>

    constructor ()
      ensures log == []
    {
      log := [];
    }
  }

  // ---------------------------------------------------------------------
  // Subscription state and callback invocation

  /** The (signal, callback) pairs subscribed after replaying `log`. */
  function Active(log: seq<Effect>): set<(Signal, Callback)>
  {
    if |log| == 0 then {}
    else
      var before := Active(log[..|log| - 1]);
      match log[|log| - 1]
      case Subscribe(s, cb) => before + {(s, cb)}
      case Unsubscribe(s, cb) => before - {(s, cb)}
      case _ => before
  }

  lemma {:induction false} ActiveSnoc(log: seq<Effect>, e: Effect)
    ensures e.Subscribe? ==> Active(log + [e]) == Active(log) + {(e.signal, e.callback)}
    ensures e.Unsubscribe? ==> Active(log + [e]) == Active(log) - {(e.signal, e.callback)}
    ensures e.Send? || e.Hook? ==> Active(log + [e]) == Active(log)
  {
    assert (log + [e])[..|log|] == log;
  }

  /** The methods a callback ends up calling when invoked while `current` is the current connection. */
  function Invoke(cb: Callback, current: ConnId): seq<(Component, string)>
  {
    match cb
    case Bound(owner, name) => [(owner, name)]
    case Wrapped(inner, conn) => if conn == current then Invoke(inner, current) else []
  }

  /**
   * Session isolation of `callback_wrapper`: the wrapped method runs, once,
   * exactly when the current connection is the component's own; under any
   * other connection the wrapper returns without calling it.
   */
  lemma {:induction false} WrapperIsolation(comp: Component, name: string, current: ConnId)
    ensures Invoke(comp.Wrap(Bound(comp, name)), current) ==
              if current == comp.connId then [(comp, name)] else []
  {
  }

  // ---------------------------------------------------------------------
  // The declaration-time table `Component._callbacks`

  /** The class-level set of (signal, class name, method name) triples, shared by every component class. */
  class CallbackTable {
    var entries: set<(Signal, string, string)>

    constructor ()
      ensures entries == {}
    {
      entries := {};
    }

    /** `schedule_callback`: a set insert; scheduling the same triple again changes nothing. */
    method Schedule(signal: Signal, clsName: string, funcName: string)
      modifies this
      ensures entries == old(entries) + {(signal, clsName, funcName)}
      ensures old((signal, clsName, funcName) in entries) ==> entries == old(entries)
    {
      entries := entries + {(signal, clsName, funcName)};
    }
  }

  // ---------------------------------------------------------------------
  // Components

  class Component {
    const cls: ComponentClass
    const connId: ConnId
    var vars: Data

    /** The successful half of `Component.__init__`: the `Vars` defaults, owned by the current connection. */
    constructor (cls: ComponentClass, current: ConnId)
      requires cls.vars.Some?
      ensures this.cls == cls && connId == current && vars == cls.vars.value
    {
      this.cls := cls;
      connId := current;
      vars := cls.vars.value;
    }

    /** `callback_wrapper`: delivery filtered to this component's connection. */
    function Wrap(cb: Callback): Callback
    {
      Wrapped(cb, connId)
    }

    /**
     * `callbacks_map`: the (signal, method) pairs of the triples whose
     * class name is this component's own class name.
     */
    function CallbacksMap(table: CallbackTable): (r: set<(Signal, string)>)
      reads table
      ensures forall s, m :: (s, m) in r <==> (s, cls.name, m) in table.entries
    {
      set e | e in table.entries && e.1 == cls.name :: (e.0, e.2)
    }

    /** The connection-filtered wrappers of these (signal, method) pairs. */
    function WrappersOf(es: set<(Signal, string)>): set<(Signal, Callback)>
    {
      set e | e in es :: (e.0, Wrap(Bound(this, e.1)))
    }

    lemma {:induction false} WrappersOfAdd(es: set<(Signal, string)>, e: (Signal, string))
      ensures WrappersOf(es + {e}) == WrappersOf(es) + {(e.0, Wrap(Bound(this, e.1)))}
    {
    }

    /** The subscribe calls for `order`, in order. */
    function SubscribeEffects(order: seq<(Signal, string)>): seq<Effect>
    {
      seq(|order|, i requires 0 <= i < |order| => SubscribeEffect(order[i]))
    }

    /** Replaying the subscribe calls for `order` adds exactly their wrappers to what is active. */
    lemma {:induction false} SubscribesActive(log: seq<Effect>, order: seq<(Signal, string)>)
      ensures Active(log + SubscribeEffects(order)) == Active(log) + WrappersOf(set x | x in order)
    {
      if |order| == 0 {
        assert log + SubscribeEffects(order) == log;
        assert (set x | x in order) == {};
      } else {
        var n := |order| - 1;
        SubscribesActive(log, order[..n]);
        assert SubscribeEffects(order) == SubscribeEffects(order[..n]) + [SubscribeEffect(order[n])];
        assert log + SubscribeEffects(order) == (log + SubscribeEffects(order[..n])) + [SubscribeEffect(order[n])];
        ActiveSnoc(log + SubscribeEffects(order[..n]), SubscribeEffect(order[n]));
        assert (set x | x in order) == (set x | x in order[..n]) + {order[n]};
        WrappersOfAdd((set x | x in order[..n]), order[n]);
      }
    }

    /** The unsubscribe calls, with the wrappers, for `order`, in order. */
    function UnsubscribeEffects(order: seq<(Signal, string)>): seq<Effect>
    {
      seq(|order|, i requires 0 <= i < |order| => UnsubscribeEffect(order[i]))
    }

    /** Replaying the unsubscribe calls for `order` removes exactly their wrappers from what is active. */
    lemma {:induction false} UnsubscribesActive(log: seq<Effect>, order: seq<(Signal, string)>)
      ensures Active(log + UnsubscribeEffects(order)) == Active(log) - WrappersOf(set x | x in order)
    {
      if |order| == 0 {
        assert log + UnsubscribeEffects(order) == log;
        assert (set x | x in order) == {};
      } else {
        var n := |order| - 1;
        UnsubscribesActive(log, order[..n]);
        assert UnsubscribeEffects(order) == UnsubscribeEffects(order[..n]) + [UnsubscribeEffect(order[n])];
        assert log + UnsubscribeEffects(order) == (log + UnsubscribeEffects(order[..n])) + [UnsubscribeEffect(order[n])];
        ActiveSnoc(log + UnsubscribeEffects(order[..n]), UnsubscribeEffect(order[n]));
        assert (set x | x in order) == (set x | x in order[..n]) + {order[n]};
        WrappersOfAdd((set x | x in order[..n]), order[n]);
      }
    }

    /** The (signal, wrapper) pairs `subscribe_callbacks` makes active: one per map entry. */
    function Subscriptions(table: CallbackTable): set<(Signal, Callback)>
      reads table
    {
      WrappersOf(CallbacksMap(table))
    }

    function SubscribeEffect(e: (Signal, string)): Effect
    {
      Subscribe(e.0, Wrap(Bound(this, e.1)))
    }

    function UnsubscribeEffect(e: (Signal, string)): Effect
    {
      Unsubscribe(e.0, Wrap(Bound(this, e.1)))
    }

    function UnsubscribeBareEffect(e: (Signal, string)): Effect
    {
      Unsubscribe(e.0, Bound(this, e.1))
    }

    /**
     * `subscribe_callbacks`: one subscribe per map entry, in the set's
     * (unspecified) iteration order, each with the connection-filtering
     * wrapper around the bound method.
     */
    method SubscribeCallbacks(table: CallbackTable, io: Collaborators) returns (ghost order: seq<(Signal, string)>)
      modifies io
      ensures Enumerates(order, CallbacksMap(table))
      ensures io.log == old(io.log) + SubscribeEffects(order)
      ensures Active(io.log) == Active(old(io.log)) + Subscriptions(table)
    {
      var todo := CallbacksMap(table);
      order := [];
      while todo != {}
        invariant Enumerates(order, CallbacksMap(table) - todo)
        invariant todo <= CallbacksMap(table)
        invariant io.log == old(io.log) + SubscribeEffects(order)
        decreases |todo|
      {
        var e :| e in todo;
        assert SubscribeEffects(order + [e]) == SubscribeEffects(order) + [SubscribeEffect(e)];
        io.log := io.log + [SubscribeEffect(e)];
        order := order + [e];
        todo := todo - {e};
      }
      SubscribesActive(old(io.log), order);
      assert (set x | x in order) == CallbacksMap(table);
    }

    /**
     * `unsubscribe_callbacks` as written: one unsubscribe per map entry
     * with the BARE bound method, which is not the wrapper that
     * `subscribe_callbacks` subscribed.
     */
    method UnsubscribeCallbacksAsWritten(table: CallbackTable, io: Collaborators) returns (ghost order: seq<(Signal, string)>)
      modifies io
      ensures Enumerates(order, CallbacksMap(table))
      ensures io.log == old(io.log) + seq(|order|, i requires 0 <= i < |order| => UnsubscribeBareEffect(order[i]))
    {
      var todo := CallbacksMap(table);
      order := [];
      while todo != {}
        invariant Enumerates(order, CallbacksMap(table) - todo)
        invariant todo <= CallbacksMap(table)
        invariant io.log == old(io.log) + seq(|order|, i requires 0 <= i < |order| => UnsubscribeBareEffect(order[i]))
        decreases |todo|
      {
        var e :| e in todo;
        io.log := io.log + [UnsubscribeBareEffect(e)];
        order := order + [e];
        todo := todo - {e};
      }
    }

    /**
     * `unsubscribe_callbacks` as evidently intended: one unsubscribe per
     * map entry with the same wrapper `subscribe_callbacks` subscribed.
     */
    method UnsubscribeCallbacks(table: CallbackTable, io: Collaborators) returns (ghost order: seq<(Signal, string)>)
      modifies io
      ensures Enumerates(order, CallbacksMap(table))
      ensures io.log == old(io.log) + UnsubscribeEffects(order)
      ensures Active(io.log) == Active(old(io.log)) - Subscriptions(table)
      ensures forall e :: e in CallbacksMap(table) ==> (e.0, Wrap(Bound(this, e.1))) !in Active(io.log)
    {
      var todo := CallbacksMap(table);
      order := [];
      while todo != {}
        invariant Enumerates(order, CallbacksMap(table) - todo)
        invariant todo <= CallbacksMap(table)
        invariant io.log == old(io.log) + UnsubscribeEffects(order)
        decreases |todo|
      {
        var e :| e in todo;
        assert UnsubscribeEffects(order + [e]) == UnsubscribeEffects(order) + [UnsubscribeEffect(e)];
        io.log := io.log + [UnsubscribeEffect(e)];
        order := order + [e];
        todo := todo - {e};
      }
      UnsubscribesActive(old(io.log), order);
      assert (set x | x in order) == CallbacksMap(table);
      forall e | e in CallbacksMap(table)
        ensures (e.0, Wrap(Bound(this, e.1))) in Subscriptions(table)
      {
      }
    }

    /** `set`: the variable takes the value and exactly one SET_VAR goes to the current connection. */
    method Set(key: string, value: Value, current: ConnId, io: Collaborators)
      modifies this, io
      ensures vars == old(vars)[key := value]
      ensures io.log == old(io.log) + [Send(current, SetVarCommand(key, value))]
    {
      vars := vars[key := value];
      io.log := io.log + [Send(current, SetVarCommand(key, value))];
    }
  }

  /**
   * As written, tearing down does not undo a subscription: after the
   * wrapper is subscribed and the bare method unsubscribed, the wrapper is
   * still active, so the component keeps receiving its connection's signals.
   */
  lemma {:induction false} AsWrittenTeardownLeavesWrapper(log: seq<Effect>, comp: Component, signal: Signal, name: string)
    ensures var after := log + [comp.SubscribeEffect((signal, name)), comp.UnsubscribeBareEffect((signal, name))];
            (signal, comp.Wrap(Bound(comp, name))) in Active(after)
  {
    var sub := comp.SubscribeEffect((signal, name));
    ActiveSnoc(log, sub);
    ActiveSnoc(log + [sub], comp.UnsubscribeBareEffect((signal, name)));
    assert log + [sub] + [comp.UnsubscribeBareEffect((signal, name))]
        == log + [sub, comp.UnsubscribeBareEffect((signal, name))];
  }

  // ---------------------------------------------------------------------
  // The layout

  /** `''.join(c.html for c in layout)` over fresh components of these classes. */
  function ClassesHtml(classes: seq<ComponentClass>): string
  {
    if |classes| == 0 then "" else ClassesHtml(classes[..|classes| - 1]) + classes[|classes| - 1].html
  }

  /** `data.update(**comp.vars)` over fresh components of these classes: later wins. */
  function ClassesVars(classes: seq<ComponentClass>): Data
    requires AllDataclasses(classes)
  {
    if |classes| == 0 then map[] else ClassesVars(classes[..|classes| - 1]) + classes[|classes| - 1].vars.value
  }

  /** The merged variables take, for each name, the default of the last class declaring it. */
  lemma {:induction false} ClassesVarsLastWins(classes: seq<ComponentClass>, name: string, i: nat)
    requires AllDataclasses(classes)
    requires i < |classes| && name in classes[i].vars.value
    requires forall j :: i < j < |classes| ==> name !in classes[j].vars.value
    ensures name in ClassesVars(classes) && ClassesVars(classes)[name] == classes[i].vars.value[name]
  {
    var n := |classes| - 1;
    if i < n {
      ClassesVarsLastWins(classes[..n], name, i);
    }
  }

  /** Every subscription a log segment makes is filtered to connection `conn`. */
  predicate OnlySubscribesFor(seg: seq<Effect>, conn: ConnId)
  {
    forall k :: 0 <= k < |seg| ==> seg[k].Subscribe? && seg[k].callback.Wrapped? && seg[k].callback.connId == conn
  }

  lemma {:induction false} OnlySubscribesConcat(a: seq<Effect>, b: seq<Effect>, conn: ConnId)
    requires OnlySubscribesFor(a, conn) && OnlySubscribesFor(b, conn)
    ensures OnlySubscribesFor(a + b, conn)
  {
  }

  /** What subscribing every component of a session makes active: each component's wrappers. */
  function SessionSubscriptions(comps: seq<Component>, table: CallbackTable): set<(Signal, Callback)>
    reads table
  {
    if |comps| == 0 then {}
    else SessionSubscriptions(comps[..|comps| - 1], table) + comps[|comps| - 1].Subscriptions(table)
  }

  /** The unsubscribe calls of a session's teardown: each component's, in component order. */
  function SessionUnsubscribeEffects(comps: seq<Component>, orders: seq<seq<(Signal, string)>>): seq<Effect>
    requires |orders| == |comps|
  {
    if |comps| == 0 then []
    else
      var n := |comps| - 1;
      SessionUnsubscribeEffects(comps[..n], orders[..n]) + comps[n].UnsubscribeEffects(orders[n])
  }

  /**
   * The teardown loop of `close_session`: every component unsubscribes its
   * wrappers, in component order; exactly the session's subscriptions
   * stop being active.
   */
  method UnsubscribeAll(comps: seq<Component>, table: CallbackTable, io: Collaborators)
    returns (ghost orders: seq<seq<(Signal, string)>>)
    modifies io
    ensures |orders| == |comps|
    ensures forall k :: 0 <= k < |comps| ==> Enumerates(orders[k], comps[k].CallbacksMap(table))
    ensures io.log == old(io.log) + SessionUnsubscribeEffects(comps, orders)
    ensures Active(io.log) == Active(old(io.log)) - SessionSubscriptions(comps, table)
  {
    orders := [];
    for i := 0 to |comps|
      invariant |orders| == i
      invariant EnumeratesEach(orders, comps, table)
      invariant io.log == old(io.log) + SessionUnsubscribeEffects(comps[..i], orders)
      invariant Active(io.log) == Active(old(io.log)) - SessionSubscriptions(comps[..i], table)
    {
      ghost var order := UnsubscribeNext(comps, orders, i, table, io, old(io.log));
      orders := orders + [order];
    }
    assert comps[..|comps|] == comps;
  }

  /** One iteration of the teardown loop: component `i` unsubscribes, extending the loop's log segment. */
  method UnsubscribeNext(comps: seq<Component>, ghost orders: seq<seq<(Signal, string)>>, i: nat, table: CallbackTable,
                         io: Collaborators, ghost start: seq<Effect>)
    returns (ghost order: seq<(Signal, string)>)
    requires i < |comps| && |orders| == i
    requires io.log == start + SessionUnsubscribeEffects(comps[..i], orders)
    requires Active(io.log) == Active(start) - SessionSubscriptions(comps[..i], table)
    requires EnumeratesEach(orders, comps, table)
    modifies io
    ensures EnumeratesEach(orders + [order], comps, table)
    ensures io.log == start + SessionUnsubscribeEffects(comps[..i + 1], orders + [order])
    ensures Active(io.log) == Active(start) - SessionSubscriptions(comps[..i + 1], table)
  {
    ghost var before := io.log;
    order := comps[i].UnsubscribeCallbacks(table, io);
    UnsubscribeStep(comps, orders, order, i, table, Active(start), Active(before), Active(io.log));
    Regroup(start, SessionUnsubscribeEffects(comps[..i], orders), comps[i].UnsubscribeEffects(order));
    EnumeratesEachSnoc(orders, order, comps, table);
  }

  /** Each order lists, without repeats, the callbacks map of the component at its position. */
  ghost predicate EnumeratesEach(orders: seq<seq<(Signal, string)>>, comps: seq<Component>, table: CallbackTable)
    reads table
  {
    && |orders| <= |comps|
    && forall k :: 0 <= k < |orders| ==> Enumerates(orders[k], comps[k].CallbacksMap(table))
  }

  lemma {:induction false} EnumeratesEachSnoc(orders: seq<seq<(Signal, string)>>, order: seq<(Signal, string)>,
                                              comps: seq<Component>, table: CallbackTable)
    requires EnumeratesEach(orders, comps, table) && |orders| < |comps|
    requires Enumerates(order, comps[|orders|].CallbacksMap(table))
    ensures EnumeratesEach(orders + [order], comps, table)
  {
    forall k | 0 <= k < |orders| + 1
      ensures Enumerates((orders + [order])[k], comps[k].CallbacksMap(table))
    {
      if k < |orders| {
        assert (orders + [order])[k] == orders[k];
      } else {
        assert (orders + [order])[k] == order;
      }
    }
  }

  /** One more component's teardown extends the session's unsubscribe calls and what they remove. */
  lemma {:induction false} UnsubscribeStep(comps: seq<Component>, orders: seq<seq<(Signal, string)>>,
                                           order: seq<(Signal, string)>, i: nat, table: CallbackTable,
                                           start: set<(Signal, Callback)>, before: set<(Signal, Callback)>,
                                           after: set<(Signal, Callback)>)
    requires i < |comps| && |orders| == i
    requires before == start - SessionSubscriptions(comps[..i], table)
    requires after == before - comps[i].Subscriptions(table)
    ensures SessionUnsubscribeEffects(comps[..i + 1], orders + [order])
            == SessionUnsubscribeEffects(comps[..i], orders) + comps[i].UnsubscribeEffects(order)
    ensures after == start - SessionSubscriptions(comps[..i + 1], table)
  {
    assert comps[..i + 1][..i] == comps[..i] && comps[..i + 1][i] == comps[i];
    assert (orders + [order])[..i] == orders && (orders + [order])[i] == order;
  }

  /** A log extension followed by one more call: dropping that call gives the extension back. */
  lemma {:induction false} ExtendsThen(start: seq<Effect>, mid: seq<Effect>, e: Effect, conn: ConnId)
    requires Extends(start, mid, conn)
    ensures (mid + [e])[..|mid|] == mid && Extends(start, (mid + [e])[..|mid + [e]| - 1], conn)
  {
    assert (mid + [e])[..|mid|] == mid;
  }

  /**
   * `comps` are instances, for `conn`, of the first `|comps|` classes in
   * order, each holding its class's defaults.
   */
  predicate InstancesOf(comps: seq<Component>, classes: seq<ComponentClass>, conn: ConnId)
    reads comps
  {
    && |comps| <= |classes|
    && forall k :: 0 <= k < |comps| ==>
         comps[k].cls == classes[k] && comps[k].connId == conn && classes[k].vars == Some(comps[k].vars)
  }

  lemma {:induction false} InstancesOfSnoc(comps: seq<Component>, classes: seq<ComponentClass>, comp: Component, conn: ConnId)
    requires InstancesOf(comps, classes, conn) && |comps| < |classes|
    requires comp.cls == classes[|comps|] && comp.connId == conn && classes[|comps|].vars == Some(comp.vars)
    ensures InstancesOf(comps + [comp], classes, conn)
  {
  }

  /**
   * What a session's subscriptions are: for every component and every
   * table entry of its class, the component's filtered wrapper around that
   * method, under that signal; and nothing else.
   */
  lemma {:induction false} SessionSubscriptionsSpec(comps: seq<Component>, table: CallbackTable)
    ensures forall k, s, m :: 0 <= k < |comps| && (s, comps[k].cls.name, m) in table.entries ==>
              (s, Wrapped(Bound(comps[k], m), comps[k].connId)) in SessionSubscriptions(comps, table)
    ensures forall p :: p in SessionSubscriptions(comps, table) ==>
              && p.1.Wrapped? && p.1.inner.Bound?
              && p.1.inner.owner in comps
              && p.1.connId == p.1.inner.owner.connId
              && (p.0, p.1.inner.owner.cls.name, p.1.inner.methodName) in table.entries
  {
    if |comps| > 0 {
      var n := |comps| - 1;
      SessionSubscriptionsSpec(comps[..n], table);
      forall k, s, m | 0 <= k < |comps| && (s, comps[k].cls.name, m) in table.entries
        ensures (s, Wrapped(Bound(comps[k], m), comps[k].connId)) in SessionSubscriptions(comps, table)
      {
        if k < n {
          assert comps[..n][k] == comps[k];
        } else {
          assert (s, m) in comps[n].CallbacksMap(table);
        }
      }
      forall p | p in SessionSubscriptions(comps, table)
        ensures && p.1.Wrapped? && p.1.inner.Bound?
                && p.1.inner.owner in comps
                && p.1.connId == p.1.inner.owner.connId
                && (p.0, p.1.inner.owner.cls.name, p.1.inner.methodName) in table.entries
      {
        if p !in SessionSubscriptions(comps[..n], table) {
          var e :| e in comps[n].CallbacksMap(table) && p == (e.0, comps[n].Wrap(Bound(comps[n], e.1)));
        } else {
          assert forall c :: c in comps[..n] ==> c in comps;
        }
      }
    }
  }

  lemma {:induction false} SessionSubscriptionsSnoc(comps: seq<Component>, comp: Component, table: CallbackTable)
    ensures SessionSubscriptions(comps + [comp], table) == SessionSubscriptions(comps, table) + comp.Subscriptions(table)
  {
    assert (comps + [comp])[..|comps|] == comps;
  }

  /** `now` is `start` followed by calls that only subscribe, each filtered to `conn`. */
  predicate Extends(start: seq<Effect>, now: seq<Effect>, conn: ConnId)
  {
    |now| >= |start| && now[..|start|] == start && OnlySubscribesFor(now[|start|..], conn)
  }

  /** Two log extensions, each only subscribing for `conn`, make one. */
  lemma {:induction false} ExtendsTwice(start: seq<Effect>, mid: seq<Effect>, now: seq<Effect>, conn: ConnId)
    requires Extends(start, mid, conn) && Extends(mid, now, conn)
    ensures Extends(start, now, conn)
  {
    assert now[|start|..] == mid[|start|..] + now[|mid|..];
    OnlySubscribesConcat(mid[|start|..], now[|mid|..], conn);
  }

  /**
   * One iteration of the first loop of `open_session`: a fresh instance of
   * `cls` for `conn`, whose callbacks are then subscribed through its
   * connection filter.
   */
  method Instantiate(cls: ComponentClass, conn: ConnId, table: CallbackTable, io: Collaborators) returns (comp: Component)
    requires cls.vars.Some?
    modifies io
    ensures fresh(comp) && comp.cls == cls && comp.connId == conn && comp.vars == cls.vars.value
    ensures Extends(old(io.log), io.log, conn)
    ensures Active(io.log) == Active(old(io.log)) + comp.Subscriptions(table)
  {
    comp := new Component(cls, conn);
    ghost var order := comp.SubscribeCallbacks(table, io);
    assert io.log[|old(io.log)|..] == comp.SubscribeEffects(order);
  }

  /**
   * The first loop of `open_session`: one fresh instance per class, in
   * order, each subscribing its callbacks for `conn`; a class that is not
   * a dataclass stops the loop with RuntimeError, the instances made
   * before it staying subscribed.
   */
  method Materialise(classes: seq<ComponentClass>, conn: ConnId, table: CallbackTable, io: Collaborators)
    returns (r: Result<seq<Component>, Exception>)
    modifies io
    ensures r.Failure? <==> !AllDataclasses(classes)
    ensures r.Failure? ==> r.error == RuntimeError
    ensures Extends(old(io.log), io.log, conn)
    ensures Active(old(io.log)) <= Active(io.log)
    ensures r.Success? ==> |r.value| == |classes| && InstancesOf(r.value, classes, conn)
    ensures r.Success? ==> forall k :: 0 <= k < |r.value| ==> fresh(r.value[k])
    ensures r.Success? ==> Active(io.log) == Active(old(io.log)) + SessionSubscriptions(r.value, table)
  {
    var layout: seq<Component> := [];
    for i := 0 to |classes|
      invariant |layout| == i && InstancesOf(layout, classes, conn)
      invariant forall k :: 0 <= k < |layout| ==> fresh(layout[k])
      invariant Extends(old(io.log), io.log, conn)
      invariant Active(io.log) == Active(old(io.log)) + SessionSubscriptions(layout, table)
    {
      if classes[i].vars.None? {
        return Failure(RuntimeError);
      }
      ghost var before := io.log;
      var comp := Instantiate(classes[i], conn, table, io);
      ExtendsTwice(old(io.log), before, io.log, conn);
      SessionSubscriptionsSnoc(layout, comp, table);
      InstancesOfSnoc(layout, classes, comp, conn);
      layout := layout + [comp];
    }
    r := Success(layout);
  }

  /** The second loop of `open_session`: `data.update(**comp.vars)` over the fresh components, in order. */
  method MergeVars(comps: seq<Component>, classes: seq<ComponentClass>, conn: ConnId) returns (data: Data)
    requires |comps| == |classes| && InstancesOf(comps, classes, conn)
    ensures AllDataclasses(classes) && data == ClassesVars(classes)
  {
    data := map[];
    for i := 0 to |comps|
      invariant data == ClassesVars(classes[..i])
    {
      assert classes[..i + 1][..i] == classes[..i];
      data := data + comps[i].vars;
    }
    assert classes[..|classes|] == classes;
  }

  class Layout {
    /** The list of component classes the layout is made of. */
    var items: seq<ComponentClass>
    /** `_sessions`: each open connection's materialised components. */
    var sessions: map<ConnId, seq<Component>>

    /** `Layout.__init__`: an empty list; `open_session`/`close_session` hooked on connect/disconnect. */
    constructor (io: Collaborators)
      modifies io
      ensures items == [] && sessions == map[]
      ensures io.log == old(io.log) + [Hook(ClientConnected, "open_session"), Hook(ClientDisconnected, "close_session")]
    {
      items := [];
      sessions := map[];
      io.log := io.log + [Hook(ClientConnected, "open_session"), Hook(ClientDisconnected, "close_session")];
    }

    /**
     * `append`: an HTML string becomes a component class whose html is that
     * string; a component class is kept as given; order is preserved.
     */
    method Append(item: Item)
      modifies this
      ensures sessions == old(sessions)
      ensures item.ClassItem? ==> items == old(items) + [item.cls]
      ensures item.HtmlItem? ==> items == old(items) + [ComponentClass(HtmlComponentName, item.html, Some(map[]))]
    {
      match item
      case HtmlItem(html) =>
        items := items + [ComponentClass(HtmlComponentName, html, Some(map[]))];
      case ClassItem(cls) =>
        items := items + [cls];
    }

    /**
     * The end of `open_session`, once the components are made: they are
     * stored under `conn` and one UPDATE_LAYOUT goes to `conn`.
     */
    method Publish(conn: ConnId, layout: seq<Component>, io: Collaborators)
      requires |layout| == |items| && InstancesOf(layout, items, conn)
      modifies this, io
      ensures items == old(items) && AllDataclasses(items)
      ensures sessions == old(sessions)[conn := layout] && InstancesOf(layout, items, conn)
      ensures io.log == old(io.log) + [Send(conn, UpdateLayoutCommand(ClassesHtml(items), ClassesVars(items)))]
      ensures Active(io.log) == Active(old(io.log))
    {
      var data := MergeVars(layout, items, conn);
      var html := ClassesHtml(items);
      sessions := sessions[conn := layout];
      ActiveSnoc(io.log, Send(conn, UpdateLayoutCommand(html, data)));
      io.log := io.log + [Send(conn, UpdateLayoutCommand(html, data))];
    }

    /**
     * `open_session` for the current connection `conn`: one fresh component
     * per class, in order, each subscribed through its connection filter.
     * A class whose `Vars` is not a dataclass raises RuntimeError there:
     * the components made before it stay subscribed, nothing is stored and
     * nothing is sent. Otherwise the components are stored under `conn`
     * (replacing any earlier entry) and exactly one UPDATE_LAYOUT goes out
     * with the in-order html and the last-wins union of the variables.
     */
    method OpenSession(conn: ConnId, table: CallbackTable, io: Collaborators) returns (r: Result<(), Exception>)
      modifies this, io
      ensures items == old(items)
      ensures r.Failure? <==> !AllDataclasses(items)
      ensures r.Failure? ==> r.error == RuntimeError && sessions == old(sessions)
      ensures r.Failure? ==> Extends(old(io.log), io.log, conn) && Active(old(io.log)) <= Active(io.log)
      ensures r.Success? ==> sessions.Keys == old(sessions).Keys + {conn}
      ensures r.Success? ==> forall c :: c in old(sessions) && c != conn ==> sessions[c] == old(sessions)[c]
      ensures r.Success? ==> |sessions[conn]| == |items| && InstancesOf(sessions[conn], items, conn)
      ensures r.Success? ==> forall i :: 0 <= i < |items| ==> fresh(sessions[conn][i])
      ensures r.Success? ==> |io.log| > 0 && Extends(old(io.log), io.log[..|io.log| - 1], conn)
      ensures r.Success? ==> io.log[|io.log| - 1] == Send(conn, UpdateLayoutCommand(ClassesHtml(items), ClassesVars(items)))
      ensures r.Success? ==> Active(io.log) == Active(old(io.log)) + SessionSubscriptions(sessions[conn], table)
    {
      var classes := items;
      var made := Materialise(classes, conn, table, io);
      if made.Failure? {
        return Failure(made.error);
      }
      ghost var mid := io.log;
      Publish(conn, made.value, io);
      ExtendsThen(old(io.log), mid, Send(conn, UpdateLayoutCommand(ClassesHtml(items), ClassesVars(items))), conn);
      r := Success(());
    }

    /**
     * `close_session` for the current connection `conn`: KeyError, with
     * nothing changed, when `conn` has no entry; otherwise every component
     * of `conn` is unsubscribed and the entry removed, other entries
     * untouched. With the intended unsubscribe, no wrapper of those
     * components remains subscribed for any signal in the table.
     */
    method CloseSession(conn: ConnId, table: CallbackTable, io: Collaborators)
      returns (r: Result<(), Exception>, ghost orders: seq<seq<(Signal, string)>>)
      modifies this, io
      ensures r.Failure? <==> conn !in old(sessions)
      ensures r.Failure? ==> sessions == old(sessions) && io.log == old(io.log)
      ensures items == old(items)
      ensures r.Success? ==> sessions == old(sessions) - {conn}
      ensures r.Success? ==>
                var comps := old(sessions)[conn];
                && |orders| == |comps|
                && (forall k :: 0 <= k < |comps| ==> Enumerates(orders[k], comps[k].CallbacksMap(table)))
                && io.log == old(io.log) + SessionUnsubscribeEffects(comps, orders)
                && Active(io.log) == Active(old(io.log)) - SessionSubscriptions(comps, table)
      ensures r.Success? ==> forall c, e :: c in old(sessions)[conn] && e in c.CallbacksMap(table) ==>
                (e.0, c.Wrap(Bound(c, e.1))) !in Active(io.log)
      ensures Active(io.log) <= Active(old(io.log))
    {
      orders := [];
      if conn !in sessions {
        return Failure(KeyError(Text.Decimal(conn))), orders;
      }
      var comps := sessions[conn];
      orders := UnsubscribeAll(comps, table, io);
      SessionSubscriptionsSpec(comps, table);
      forall c, e | c in comps && e in c.CallbacksMap(table)
        ensures (e.0, c.Wrap(Bound(c, e.1))) in SessionSubscriptions(comps, table)
      {
        var k :| 0 <= k < |comps| && comps[k] == c;
        assert (e.0, c.cls.name, e.1) in table.entries;
      }
      sessions := sessions - {conn};
      r := Success(());
    }
  }
}
