/**
 * The event engine draft (core.py): a per-name list of event callbacks, a
 * table of three system hooks, the listener loop that reads events from a
 * session and queues them, the dispatcher loop that drains the queue, and
 * the session lifecycle around the two.
 *
 * Callbacks are identified by name and their own effects are not modelled;
 * what the engine does is recorded as a sequence of steps (a hook run, a
 * queue put, a callback delivery), each await being one step.
 */
module Core {
  import opened Common

  /** `AbstractSession.ID`. */
  type SessionId = string

  /** The identity of an awaitable callback. */
  type CallbackId = string

  /** An event read from a session; `ctx` is its `_ctx` binding. */
  datatype Event = Event(name: string, data: string, ctx: Option<SessionId>)

  /** The keyword argument a system hook is run with. */
  datatype HookArg = SessionArg(session: SessionId) | EventArg(event: Event)

  /** A system hook: the module's no-op placeholder, or a registered callback. */
  datatype Hook = Dummy | Registered(callback: CallbackId)

  /** One observable step of the engine. */
  datatype Step =
    | RunHook(hookName: string, callback: CallbackId, arg: HookArg)
    | Put(event: Event)
    | Deliver(callback: CallbackId, event: Event)

  const OnSessionOpen := "on_session_open"
  const OnSessionClosed := "on_session_closed"
  const OnEvent := "on_event"
  const SystemHookNames: set<string> := {OnSessionOpen, OnSessionClosed, OnEvent}

  // ---------------------------------------------------------------------
  // Event callbacks (`_callbacks`)

  /** The callbacks a name has after these registrations, in registration order, duplicates kept. */
  function CallbacksAfter(history: seq<(string, CallbackId)>, name: string): (r: seq<CallbackId>)
    ensures |r| <= |history|
    ensures forall cb :: cb in r <==> (name, cb) in history
  {
    if |history| == 0 then []
    else
      var n := |history| - 1;
      var before := CallbacksAfter(history[..n], name);
      assert history == history[..n] + [history[n]];
      if history[n].0 == name then before + [history[n].1] else before
  }

  /** Registrations accumulate per name: a later batch is appended after an earlier one. */
  lemma {:induction false} CallbacksAfterAppend(a: seq<(string, CallbackId)>, b: seq<(string, CallbackId)>, name: string)
    ensures CallbacksAfter(a + b, name) == CallbacksAfter(a, name) + CallbacksAfter(b, name)
    decreases |b|
  {
    if |b| == 0 {
      assert a + b == a;
    } else {
      var n := |b| - 1;
      var last := b[n];
      CallbacksAfterAppend(a, b[..n], name);
      assert (a + b)[..|a + b| - 1] == a + b[..n];
      assert (a + b)[|a + b| - 1] == last;
      assert b[..n] == b[..|b| - 1];
      var ab := CallbacksAfter(a + b[..n], name);
      assert CallbacksAfter(a + b, name) == if last.0 == name then ab + [last.1] else ab;
      assert CallbacksAfter(b, name) == if last.0 == name then CallbacksAfter(b[..n], name) + [last.1] else CallbacksAfter(b[..n], name);
    }
  }

  /** The callbacks for `name` in a table, empty when the name is absent (`get(name) or []`). */
  function CallbacksIn(table: map<string, seq<CallbackId>>, name: string): seq<CallbackId>
  {
    if name in table then table[name] else []
  }

  /** `_dispatch_events` over a fixed queue: each event in FIFO order, each of its callbacks in order. */
  function DispatchSteps(queue: seq<Event>, table: map<string, seq<CallbackId>>): seq<Step>
  {
    if |queue| == 0 then []
    else DispatchSteps(queue[..|queue| - 1], table) + EventSteps(queue[|queue| - 1], table)
  }

  /** The deliveries of one event: to each callback registered for its name, in order. */
  function EventSteps(e: Event, table: map<string, seq<CallbackId>>): seq<Step>
  {
    seq(|CallbacksIn(table, e.name)|, i requires 0 <= i < |CallbacksIn(table, e.name)| =>
          Deliver(CallbacksIn(table, e.name)[i], e))
  }

  /**
   * FIFO draining: every delivery for an earlier event happens before any
   * delivery for a later one.
   */
  lemma {:induction false} DispatchStepsAppend(a: seq<Event>, b: seq<Event>, table: map<string, seq<CallbackId>>)
    ensures DispatchSteps(a + b, table) == DispatchSteps(a, table) + DispatchSteps(b, table)
    decreases |b|
  {
    if |b| == 0 {
      assert a + b == a;
    } else {
      var n := |b| - 1;
      var ab := a + b;
      var e := EventSteps(b[n], table);
      assert ab[..|ab| - 1] == a + b[..n];
      assert ab[|ab| - 1] == b[n];
      assert DispatchSteps(ab, table) == DispatchSteps(a + b[..n], table) + e;
      DispatchStepsAppend(a, b[..n], table);
      Regroup(DispatchSteps(a, table), DispatchSteps(b[..n], table), e);
      assert DispatchSteps(b, table) == DispatchSteps(b[..n], table) + e;
    }
  }

  /** Every dispatched step delivers a queued event to one of the callbacks registered for its name. */
  lemma {:induction false} DispatchStepsSound(queue: seq<Event>, table: map<string, seq<CallbackId>>, k: nat)
    requires k < |DispatchSteps(queue, table)|
    ensures var s := DispatchSteps(queue, table)[k];
            s.Deliver? && s.event in queue && s.callback in CallbacksIn(table, s.event.name)
  {
    var n := |queue| - 1;
    var before := DispatchSteps(queue[..n], table);
    assert queue == queue[..n] + [queue[n]];
    if k < |before| {
      DispatchStepsSound(queue[..n], table, k);
    }
  }

  class EventCallbacks {
    var callbacks: map<string, seq<CallbackId>>
    /** Every registration so far, oldest first. */
    ghost var history: seq<(string, CallbackId)>

    ghost predicate Valid()
      reads this
    {
      forall name :: Get(name) == CallbacksAfter(history, name)
    }

    constructor ()
      ensures Valid() && history == []
    {
      callbacks := map[];
      history := [];
    }

    /** `get_event_callbacks`: the list stored for the name, or the empty list. */
    function Get(name: string): (r: seq<CallbackId>)
      reads this
    {
      CallbacksIn(callbacks, name)
    }

    /**
     * `register_event_callback`: the callback is appended to its name's
     * list, duplicates included; every other name is unchanged.
     */
    method Register(name: string, callback: CallbackId)
      requires Valid()
      modifies this
      ensures Valid() && history == old(history) + [(name, callback)]
      ensures Get(name) == old(Get(name)) + [callback]
      ensures forall other :: other != name ==> Get(other) == old(Get(other))
    {
      var list := Get(name);
      callbacks := callbacks[name := list + [callback]];
      history := history + [(name, callback)];
      forall other
        ensures Get(other) == CallbacksAfter(history, other)
      {
        CallbacksAfterAppend(old(history), [(name, callback)], other);
      }
    }

    /** `on(event_cls)(callback)`: registers under the class's name and returns the callback unchanged. */
    method On(eventClsName: string, callback: CallbackId) returns (r: CallbackId)
      requires Valid()
      modifies this
      ensures r == callback
      ensures Valid() && history == old(history) + [(eventClsName, callback)]
      ensures Get(eventClsName) == old(Get(eventClsName)) + [callback]
      ensures forall other :: other != eventClsName ==> Get(other) == old(Get(other))
    {
      Register(eventClsName, callback);
      r := callback;
    }

    /**
     * `_dispatch_events` over the events queued so far: takes them in FIFO
     * order and delivers each to its name's callbacks, one at a time. A
     * callback that raises (`raises` of its delivery) ends the task with
     * that exception, so nothing after it is delivered.
     */
    method DispatchEvents(queue: seq<Event>, raises: Step -> bool) returns (steps: seq<Step>, failed: bool)
      requires Valid()
      ensures !failed ==> steps == DispatchSteps(queue, callbacks)
      ensures failed ==> 0 < |steps| && steps <= DispatchSteps(queue, callbacks) && raises(steps[|steps| - 1])
      ensures forall k :: 0 <= k < |steps| - (if failed then 1 else 0) ==> !raises(steps[k])
      ensures forall k :: 0 <= k < |steps| ==>
                steps[k].Deliver? && steps[k].event in queue
                && steps[k].callback in CallbacksAfter(history, steps[k].event.name)
    {
      steps, failed := [], false;
      for i := 0 to |queue|
        invariant steps == DispatchSteps(queue[..i], callbacks)
        invariant forall k :: 0 <= k < |steps| ==> !raises(steps[k])
      {
        var delivered, raised := DeliverEvent(queue[i], Get(queue[i].name), callbacks, raises);
        DispatchNext(queue, i, callbacks, delivered);
        steps := steps + delivered;
        if raised {
          failed := true;
          DeliveriesSound(queue, steps, callbacks);
          return;
        }
      }
      assert queue[..|queue|] == queue;
      DeliveriesSound(queue, steps, callbacks);
    }
  }

  /**
   * The inner loop of `_dispatch_events`: the event is delivered to each
   * callback of its list in order, and a callback that raises ends the loop.
   */
  method DeliverEvent(event: Event, list: seq<CallbackId>, ghost table: map<string, seq<CallbackId>>, raises: Step -> bool)
    returns (delivered: seq<Step>, failed: bool)
    requires list == CallbacksIn(table, event.name)
    ensures !failed ==> delivered == EventSteps(event, table)
    ensures failed ==> 0 < |delivered| && delivered <= EventSteps(event, table) && raises(delivered[|delivered| - 1])
    ensures forall k :: 0 <= k < |delivered| - (if failed then 1 else 0) ==> !raises(delivered[k])
  {
    delivered, failed := [], false;
    for j := 0 to |list|
      invariant delivered == EventSteps(event, table)[..j]
      invariant forall k :: 0 <= k < |delivered| ==> !raises(delivered[k])
    {
      assert EventSteps(event, table)[..j + 1] == EventSteps(event, table)[..j] + [Deliver(list[j], event)];
      delivered := delivered + [Deliver(list[j], event)];
      if raises(Deliver(list[j], event)) {
        failed := true;
        return;
      }
    }
    assert EventSteps(event, table)[..|list|] == EventSteps(event, table);
  }

  /**
   * A beginning of one event's deliveries, after the deliveries of the
   * events before it, is a beginning of the whole dispatch; all of them
   * complete the dispatch of the events up to it.
   */
  lemma {:induction false} DispatchNext(queue: seq<Event>, i: nat, table: map<string, seq<CallbackId>>, delivered: seq<Step>)
    requires i < |queue| && delivered <= EventSteps(queue[i], table)
    ensures DispatchSteps(queue[..i], table) + delivered <= DispatchSteps(queue, table)
    ensures delivered == EventSteps(queue[i], table) ==>
              DispatchSteps(queue[..i], table) + delivered == DispatchSteps(queue[..i + 1], table)
  {
    var before := DispatchSteps(queue[..i], table);
    var all := EventSteps(queue[i], table);
    assert queue[..i + 1][..i] == queue[..i] && queue[..i + 1][i] == queue[i];
    assert DispatchSteps(queue[..i + 1], table) == before + all;
    DispatchPrefix(queue, i, table);
    assert (before + all)[..|before + delivered|] == before + delivered;
  }

  /** What is dispatched for the first events of the queue is how its dispatch begins. */
  lemma {:induction false} DispatchPrefix(queue: seq<Event>, i: nat, table: map<string, seq<CallbackId>>)
    requires i < |queue|
    ensures DispatchSteps(queue[..i + 1], table) <= DispatchSteps(queue, table)
  {
    DispatchStepsAppend(queue[..i + 1], queue[i + 1..], table);
    assert queue[..i + 1] + queue[i + 1..] == queue;
  }

  /** Every step of a beginning of the dispatch delivers a queued event to one of its name's callbacks. */
  lemma {:induction false} DeliveriesSound(queue: seq<Event>, steps: seq<Step>, table: map<string, seq<CallbackId>>)
    requires steps <= DispatchSteps(queue, table)
    ensures forall k :: 0 <= k < |steps| ==>
              steps[k].Deliver? && steps[k].event in queue && steps[k].callback in CallbacksIn(table, steps[k].event.name)
  {
    forall k | 0 <= k < |steps|
      ensures steps[k].Deliver? && steps[k].event in queue && steps[k].callback in CallbacksIn(table, steps[k].event.name)
    {
      DispatchStepsSound(queue, table, k);
    }
  }

  // ---------------------------------------------------------------------
  // System hooks (`_system_callbacks`)

  /**
   * The hook a name has after these registrations: the last registration
   * for it wins; the three built-in names start as the no-op; any other
   * name is absent until registered.
   */
  function HookAfter(history: seq<(string, CallbackId)>, name: string): (r: Option<Hook>)
    ensures (forall i :: 0 <= i < |history| ==> history[i].0 != name) ==>
              r == if name in SystemHookNames then Some(Dummy) else None
    ensures (exists i :: 0 <= i < |history| && history[i].0 == name) ==> r.Some? && r.value.Registered?
  {
    if |history| == 0 then (if name in SystemHookNames then Some(Dummy) else None)
    else
      var n := |history| - 1;
      if history[n].0 == name then Some(Registered(history[n].1))
      else
        var r := HookAfter(history[..n], name);
        assert forall i :: 0 <= i < n ==> history[..n][i] == history[i];
        r
  }

  /** A registration replaces the hook: after it, later registrations for other names do not matter. */
  lemma {:induction false} HookAfterLastWins(history: seq<(string, CallbackId)>, name: string, cb: CallbackId, rest: seq<(string, CallbackId)>)
    requires forall i :: 0 <= i < |rest| ==> rest[i].0 != name
    ensures HookAfter(history + [(name, cb)] + rest, name) == Some(Registered(cb))
    decreases |rest|
  {
    if |rest| > 0 {
      var n := |rest| - 1;
      HookAfterLastWins(history, name, cb, rest[..n]);
      assert (history + [(name, cb)] + rest)[..|history| + 1 + n] == history + [(name, cb)] + rest[..n];
    } else {
      assert history + [(name, cb)] + rest == history + [(name, cb)];
    }
  }

  /** The steps running a hook produces: none for the no-op, one run otherwise. */
  function HookSteps(hookName: string, hook: Hook, arg: HookArg): seq<Step>
  {
    match hook
    case Dummy => []
    case Registered(cb) => [RunHook(hookName, cb, arg)]
  }

  class SystemCallbacks {
    var hooks: map<string, Hook>
    /** Every registration so far, oldest first. */
    ghost var history: seq<(string, CallbackId)>

    function Lookup(name: string): Option<Hook>
      reads this
    {
      if name in hooks then Some(hooks[name]) else None
    }

    ghost predicate Valid()
      reads this
    {
      forall name :: Lookup(name) == HookAfter(history, name)
    }

    /** The module-level table: the three hooks set to the no-op. */
    constructor ()
      ensures Valid() && history == []
    {
      hooks := map[OnSessionOpen := Dummy, OnSessionClosed := Dummy, OnEvent := Dummy];
      history := [];
    }

    /** `register_system_callback`: replaces (or adds) the hook for that name. */
    method Register(name: string, callback: CallbackId)
      requires Valid()
      modifies this
      ensures Valid() && history == old(history) + [(name, callback)]
      ensures Lookup(name) == Some(Registered(callback))
      ensures forall other :: other != name ==> Lookup(other) == old(Lookup(other))
    {
      hooks := hooks[name := Registered(callback)];
      history := history + [(name, callback)];
      forall other
        ensures Lookup(other) == HookAfter(history, other)
      {
        if other != name {
          assert history[..|history| - 1] == old(history);
        }
      }
    }

    /**
     * `run_system_callback`: KeyError for a name that has no hook;
     * otherwise the hook's run, which for a built-in name never
     * registered is the no-op.
     */
    method Run(name: string, arg: HookArg) returns (r: Result<seq<Step>, Exception>)
      requires Valid()
      ensures r.Failure? <==> name !in SystemHookNames && forall i :: 0 <= i < |history| ==> history[i].0 != name
      ensures r.Failure? ==> r.error == KeyError(name)
      ensures r.Success? ==> r.value == HookSteps(name, HookAfter(history, name).value, arg)
      ensures name in SystemHookNames && (forall i :: 0 <= i < |history| ==> history[i].0 != name) ==> r == Success([])
    {
      if name !in hooks {
        assert Lookup(name) == None;
        return Failure(KeyError(name));
      }
      assert Lookup(name) == Some(hooks[name]);
      r := Success(HookSteps(name, hooks[name], arg));
    }
  }

  // ---------------------------------------------------------------------
  // The listener and the session lifecycle

  /** What `session.listen_event()` yields each time: an event, or an exception. */
  datatype Received = Got(name: string, data: string) | Raised(error: Exception)

  /** How the listener task stops: still awaiting, suppressed SessionClosed, or another exception. */
  datatype ListenEnd = Waiting | Closed | Failed(error: Exception)

  /** How many events are read before the first exception. */
  function EventsBeforeStop(incoming: seq<Received>): (k: nat)
    ensures k <= |incoming|
    ensures forall i :: 0 <= i < k ==> incoming[i].Got?
    ensures k < |incoming| ==> incoming[k].Raised?
  {
    if |incoming| == 0 || incoming[0].Raised? then 0 else 1 + EventsBeforeStop(incoming[1..])
  }

  /** The events of `incoming` with their context bound to `session`. */
  function BindAll(session: SessionId, incoming: seq<Received>): seq<Event>
    requires forall i :: 0 <= i < |incoming| ==> incoming[i].Got?
  {
    seq(|incoming|, i requires 0 <= i < |incoming| => Event(incoming[i].name, incoming[i].data, Some(session)))
  }

  /** The listener's steps for these events: the `on_event` hook, then the queue put, per event. */
  function ListenSteps(events: seq<Event>, onEvent: Hook): seq<Step>
  {
    if |events| == 0 then []
    else
      var e := events[|events| - 1];
      ListenSteps(events[..|events| - 1], onEvent) + HookSteps(OnEvent, onEvent, EventArg(e)) + [Put(e)]
  }

  /** Every event the listener hands to `on_event` or to the queue is bound to the reading session. */
  lemma {:induction false} ListenStepsBound(events: seq<Event>, onEvent: Hook, session: SessionId, k: nat)
    requires forall i :: 0 <= i < |events| ==> events[i].ctx == Some(session)
    requires k < |ListenSteps(events, onEvent)|
    ensures var s := ListenSteps(events, onEvent)[k];
            && !s.Deliver?
            && (s.Put? ==> s.event.ctx == Some(session))
            && (s.RunHook? ==> s.hookName == OnEvent && s.arg.EventArg? && s.arg.event.ctx == Some(session))
  {
    var n := |events| - 1;
    if k < |ListenSteps(events[..n], onEvent)| {
      ListenStepsBound(events[..n], onEvent, session, k);
    }
  }

  /**
   * `_listen_events`: reads events until an exception, binding each to
   * the session, running `on_event` on it and then queueing it.
   * SessionClosed is suppressed; any other exception ends the task with it.
   */
  method ListenEvents(session: SessionId, incoming: seq<Received>, hooks: SystemCallbacks)
    returns (steps: seq<Step>, queued: seq<Event>, end: ListenEnd)
    requires hooks.Valid()
    ensures var k := EventsBeforeStop(incoming);
            && queued == BindAll(session, incoming[..k])
            && steps == ListenSteps(queued, HookAfter(hooks.history, OnEvent).value)
            && end == if k == |incoming| then Waiting
                      else if incoming[k].error == SessionClosed then Closed
                      else Failed(incoming[k].error)
  {
    var k := EventsBeforeStop(incoming);
    ghost var onEvent := HookAfter(hooks.history, OnEvent).value;
    steps, queued := [], [];
    var i := 0;
    while i < |incoming| && incoming[i].Got?
      invariant 0 <= i <= k
      invariant queued == BindAll(session, incoming[..i])
      invariant steps == ListenSteps(queued, onEvent)
    {
      var event := Event(incoming[i].name, incoming[i].data, Some(session));
      var run := hooks.Run(OnEvent, EventArg(event));
      assert queued + [event] == BindAll(session, incoming[..i + 1]);
      assert (queued + [event])[..|queued|] == queued;
      steps := steps + run.value + [Put(event)];
      queued := queued + [event];
      i := i + 1;
    }
    if i == |incoming| {
      end := Waiting;
    } else if incoming[i].error == SessionClosed {
      end := Closed;
    } else {
      end := Failed(incoming[i].error);
    }
  }

  /**
   * `on_session` under one schedule of its two tasks: the listener reads
   * until it stops and the dispatcher then drains what was queued, until a
   * callback raises. `on_session_open` runs first. `asyncio.wait` returns
   * once both tasks are done: the listener is done once it stopped, the
   * dispatcher only when a callback raised (it never finishes otherwise).
   * `on_session_closed` runs, last, exactly when both are done or when the
   * task is cancelled while waiting.
   */
  method OnSession(session: SessionId, incoming: seq<Received>, hooks: SystemCallbacks, registry: EventCallbacks,
                   raises: Step -> bool, cancelled: bool)
    returns (steps: seq<Step>)
    requires hooks.Valid() && registry.Valid()
    ensures var opening := HookSteps(OnSessionOpen, HookAfter(hooks.history, OnSessionOpen).value, SessionArg(session));
            var closing := HookSteps(OnSessionClosed, HookAfter(hooks.history, OnSessionClosed).value, SessionArg(session));
            var queued := BindAll(session, incoming[..EventsBeforeStop(incoming)]);
            var dispatched := DispatchSteps(queued, registry.callbacks);
            var bothDone := EventsBeforeStop(incoming) < |incoming| && AnyOf(dispatched, raises);
            steps == opening + (ListenSteps(queued, HookAfter(hooks.history, OnEvent).value) + UntilFirst(dispatched, raises))
                     + (if cancelled || bothDone then closing else [])
  {
    var open := hooks.Run(OnSessionOpen, SessionArg(session));
    assert open.Success?;
    var listened, queued, end := ListenEvents(session, incoming, hooks);
    var delivered, failed := registry.DispatchEvents(queued, raises);
    PrefixUntilFirst(delivered, DispatchSteps(queued, registry.callbacks), failed, raises);
    steps := open.value + (listened + delivered);
    if cancelled || (end != Waiting && failed) {
      var close := hooks.Run(OnSessionClosed, SessionArg(session));
      assert close.Success?;
      steps := steps + close.value;
    } else {
      assert steps == steps + [];
    }
  }

  /**
   * Before the final step, no `on_session_closed` run happens: neither
   * the opening hook, the listener nor any part of the dispatch runs it.
   */
  lemma {:induction false} OnSessionClosedOnlyAtEnd(session: SessionId, incoming: seq<Received>, onEvent: Hook, openHook: Hook,
                                                    table: map<string, seq<CallbackId>>, delivered: seq<Step>, k: nat)
    requires delivered <= DispatchSteps(BindAll(session, incoming[..EventsBeforeStop(incoming)]), table)
    requires k < |HookSteps(OnSessionOpen, openHook, SessionArg(session))
                  + (ListenSteps(BindAll(session, incoming[..EventsBeforeStop(incoming)]), onEvent) + delivered)|
    ensures var s := (HookSteps(OnSessionOpen, openHook, SessionArg(session))
                  + (ListenSteps(BindAll(session, incoming[..EventsBeforeStop(incoming)]), onEvent) + delivered))[k];
            s.RunHook? ==> s.hookName != OnSessionClosed
  {
    var queued := BindAll(session, incoming[..EventsBeforeStop(incoming)]);
    var a := HookSteps(OnSessionOpen, openHook, SessionArg(session));
    var b := ListenSteps(queued, onEvent);
    if |a| <= k < |a| + |b| {
      ListenStepsBound(queued, onEvent, session, k - |a|);
    } else if |a| + |b| <= k {
      DispatchStepsSound(queued, table, k - |a| - |b|);
    }
  }
}
