/**
 * The module-level signal bus (_bus.py): a FIFO queue of (signal, data)
 * messages, a dict from signal to a set of handlers, the listener that
 * drains the queue, and the tick that calls the EVERY_SECOND handlers.
 *
 * A handler is identified by name; what it does is not modelled, only
 * whether a call raises (the parameter `raises`). A loop over a handler
 * set visits it in an order Python leaves open, so the methods return that
 * order as a ghost value and promise only that it lists the set once.
 */
module SignalBus {
  import opened Common

  type Signal = string
  type HandlerId = string

  // server-level signals
  const ServerStartup: Signal := "SERVER_STARTUP"
  const ServerShutdown: Signal := "SERVER_SHUTDOWN"
  const ClientConnected: Signal := "CLIENT_CONNECTED"
  const ClientDisconnected: Signal := "CLIENT_DISCONNECTED"
  const CmdCall: Signal := "CMD_CALL"
  // app-level signals
  const LayoutClean: Signal := "LAYOUT_CLEAN"
  const LayoutUpdated: Signal := "LAYOUT_UPDATED"
  const EverySecond: Signal := "EVERY_SECOND"
  const VarUpdated: Signal := "VAR_UPDATED"
  // commands
  const ClearLayoutCommand := "clear_layout"
  const AppendComponentCommand := "append_component"
  const UpdateVarCommand := "update_var"

  datatype Message = Message(signal: Signal, data: Data)

  /** The handlers registered for a signal, none when it has no entry. */
  function HandlersIn(handlers: map<Signal, set<HandlerId>>, signal: Signal): set<HandlerId>
  {
    if signal in handlers then handlers[signal] else {}
  }

  /** The calls made when handlers run in `order`, each with `data`. */
  function Calls(order: seq<HandlerId>, data: Data): seq<(HandlerId, Data)>
  {
    seq(|order|, k requires 0 <= k < |order| => (order[k], data))
  }

  /** The calls made when the messages are handled in FIFO order, each message's handlers in its order. */
  function Deliveries(messages: seq<Message>, orders: seq<seq<HandlerId>>): seq<(HandlerId, Data)>
    requires |orders| == |messages|
  {
    if |messages| == 0 then []
    else
      var n := |messages| - 1;
      Deliveries(messages[..n], orders[..n]) + Calls(orders[n], messages[n].data)
  }

  /**
   * FIFO: the calls for a batch of messages handled after another come
   * after all the calls for the earlier batch.
   */
  lemma {:induction false} DeliveriesAppend(a: seq<Message>, oa: seq<seq<HandlerId>>, b: seq<Message>, ob: seq<seq<HandlerId>>)
    requires |oa| == |a| && |ob| == |b|
    ensures Deliveries(a + b, oa + ob) == Deliveries(a, oa) + Deliveries(b, ob)
    decreases |b|
  {
    if |b| == 0 {
      assert a + b == a && oa + ob == oa;
    } else {
      var n := |b| - 1;
      var ab, oab := a + b, oa + ob;
      DeliveriesAppend(a, oa, b[..n], ob[..n]);
      assert ab[..|ab| - 1] == a + b[..n] && ab[|ab| - 1] == b[n];
      assert oab[..|oab| - 1] == oa + ob[..n] && oab[|oab| - 1] == ob[n];
      var last := Calls(ob[n], b[n].data);
      assert Deliveries(ab, oab) == Deliveries(a + b[..n], oa + ob[..n]) + last;
      Regroup(Deliveries(a, oa), Deliveries(b[..n], ob[..n]), last);
      assert Deliveries(b, ob) == Deliveries(b[..n], ob[..n]) + last;
    }
  }

  /** Handling one more message appends its calls. */
  lemma {:induction false} DeliveriesSnoc(msgs: seq<Message>, orders: seq<seq<HandlerId>>, order: seq<HandlerId>)
    requires |orders| < |msgs|
    ensures Deliveries(msgs[..|orders| + 1], orders + [order])
            == Deliveries(msgs[..|orders|], orders) + Calls(order, msgs[|orders|].data)
  {
    var n := |orders|;
    var ms, os := msgs[..n + 1], orders + [order];
    assert |ms| - 1 == n && ms[..n] == msgs[..n] && ms[n] == msgs[n];
    assert os[..n] == orders && os[n] == order;
  }

  /**
   * The state of the listener after handling the first `|orders|` of
   * `msgs`: each message's handlers visited in an enumeration of its set,
   * the calls those make, and whether the last call raised.
   */
  ghost predicate Handled(msgs: seq<Message>, handlers: map<Signal, set<HandlerId>>, orders: seq<seq<HandlerId>>,
                          calls: seq<(HandlerId, Data)>, failed: bool, raises: ((HandlerId, Data)) -> bool)
  {
    && |orders| <= |msgs|
    && (forall k :: 0 <= k < |orders| ==> Enumerates(orders[k], HandlersIn(handlers, msgs[k].signal)))
    && (!failed ==> calls == Deliveries(msgs[..|orders|], orders))
    && (failed ==> 0 < |calls| && calls <= Deliveries(msgs[..|orders|], orders) && raises(calls[|calls| - 1]))
    && (forall k :: 0 <= k < |calls| - (if failed then 1 else 0) ==> !raises(calls[k]))
  }

  lemma {:induction false} HandledStep(msgs: seq<Message>, handlers: map<Signal, set<HandlerId>>, orders: seq<seq<HandlerId>>,
                    calls: seq<(HandlerId, Data)>, some: seq<(HandlerId, Data)>, f: bool, order: seq<HandlerId>,
                    raises: ((HandlerId, Data)) -> bool)
    requires Handled(msgs, handlers, orders, calls, false, raises) && |orders| < |msgs|
    requires Enumerates(order, HandlersIn(handlers, msgs[|orders|].signal))
    requires !f ==> some == Calls(order, msgs[|orders|].data)
    requires f ==> 0 < |some| && some <= Calls(order, msgs[|orders|].data) && raises(some[|some| - 1])
    requires forall k :: 0 <= k < |some| - (if f then 1 else 0) ==> !raises(some[k])
    ensures Handled(msgs, handlers, orders + [order], calls + some, f, raises)
  {
    var n := |orders|;
    DeliveriesSnoc(msgs, orders, order);
    var all := calls + some;
    assert forall k :: 0 <= k < |calls| ==> all[k] == calls[k];
    assert forall k :: 0 <= k < |some| ==> all[|calls| + k] == some[k];
    forall k | 0 <= k < |orders| + 1
      ensures Enumerates((orders + [order])[k], HandlersIn(handlers, msgs[k].signal))
    {
      if k < n {
        assert (orders + [order])[k] == orders[k];
      }
    }
  }

  lemma {:induction false} CallsPrefix(order: seq<HandlerId>, full: seq<HandlerId>, data: Data)
    requires order <= full
    ensures Calls(order, data) <= Calls(full, data)
  {
  }

  class Bus {
    /** `_messages`. */
    var messages: seq<Message>
    /** `_handlers`, a defaultdict of sets. */
    var handlers: map<Signal, set<HandlerId>>

    constructor ()
      ensures messages == [] && handlers == map[]
    {
      messages := [];
      handlers := map[];
    }

    function HandlersOf(signal: Signal): set<HandlerId>
      reads this
    {
      HandlersIn(handlers, signal)
    }

    /** `emit_signal`: exactly one message enqueued at the back, with `{}` for missing data. */
    method EmitSignal(signal: Signal, data: Option<Data>)
      modifies this
      ensures messages == old(messages) + [Message(signal, if data.Some? then data.value else map[])]
      ensures handlers == old(handlers)
    {
      var d := if data.Some? && data.value != map[] then data.value else map[];
      messages := messages + [Message(signal, d)];
    }

    /** `call_command`: one CMD_CALL message holding the command name and its params (`{}` if none). */
    method CallCommand(command: string, params: Option<Data>)
      modifies this
      ensures messages == old(messages) + [Message(CmdCall, map["command" := Str(command),
                                                                 "params" := Dict(if params.Some? then params.value else map[])])]
      ensures handlers == old(handlers)
    {
      var p := if params.Some? && params.value != map[] then params.value else map[];
      EmitSignal(CmdCall, Some(map["command" := Str(command), "params" := Dict(p)]));
    }

    /** `add_handler`: a set insert, so adding a handler already there changes nothing. */
    method AddHandler(signal: Signal, handler: HandlerId)
      modifies this
      ensures handlers == old(handlers)[signal := old(HandlersOf(signal)) + {handler}]
      ensures handler in old(HandlersOf(signal)) ==> handlers == old(handlers)
      ensures messages == old(messages)
    {
      if handler in HandlersOf(signal) {
        assert HandlersOf(signal) + {handler} == handlers[signal];
        assert handlers[signal := HandlersOf(signal) + {handler}] == handlers;
      }
      handlers := handlers[signal := HandlersOf(signal) + {handler}];
    }

    /**
     * Awaiting each handler of a signal with the data: every handler once,
     * in some order of the set, until one raises.
     */
    method RunHandlers(signal: Signal, data: Data, raises: ((HandlerId, Data)) -> bool)
      returns (calls: seq<(HandlerId, Data)>, failed: bool, ghost order: seq<HandlerId>)
      ensures Enumerates(order, HandlersOf(signal))
      ensures !failed ==> calls == Calls(order, data)
      ensures failed ==> 0 < |calls| && calls <= Calls(order, data) && raises(calls[|calls| - 1])
      ensures forall k :: 0 <= k < |calls| - (if failed then 1 else 0) ==> !raises(calls[k])
    {
      var todo := HandlersOf(signal);
      calls, failed, order := [], false, [];
      while todo != {} && !failed
        invariant todo <= HandlersOf(signal) && Enumerates(order, HandlersOf(signal) - todo)
        invariant calls == Calls(order, data)
        invariant failed ==> 0 < |calls| && raises(calls[|calls| - 1])
        invariant forall k :: 0 <= k < |calls| - (if failed then 1 else 0) ==> !raises(calls[k])
        decreases |todo|
      {
        var h :| h in todo;
        calls := calls + [(h, data)];
        failed := raises((h, data));
        order := order + [h];
        todo := todo - {h};
      }
      // The handlers not reached, in any order, complete the enumeration.
      ghost var full := CompleteEnumeration(order, HandlersOf(signal), todo);
      CallsPrefix(order, full, data);
      order := full;
    }

    /**
     * `listener_task`: takes messages from the front of the queue; one
     * whose signal has no handler entry is skipped; otherwise each of its
     * handlers is awaited once with its data. The first exception ends the
     * loop, leaving the later messages queued.
     */
    method Listen(raises: ((HandlerId, Data)) -> bool)
      returns (calls: seq<(HandlerId, Data)>, failed: bool, ghost orders: seq<seq<HandlerId>>)
      modifies this
      ensures handlers == old(handlers)
      ensures |orders| <= |old(messages)| && messages == old(messages)[|orders|..]
      ensures forall k :: 0 <= k < |orders| ==> Enumerates(orders[k], HandlersOf(old(messages)[k].signal))
      ensures !failed ==> messages == [] && calls == Deliveries(old(messages), orders)
      ensures failed ==> 0 < |calls| && calls <= Deliveries(old(messages)[..|orders|], orders) && raises(calls[|calls| - 1])
      ensures forall k :: 0 <= k < |calls| - (if failed then 1 else 0) ==> !raises(calls[k])
    {
      ghost var msgs := messages;
      calls, failed, orders := [], false, [];
      while messages != [] && !failed
        invariant handlers == old(handlers)
        invariant |orders| <= |msgs| && messages == msgs[|orders|..]
        invariant Handled(msgs, handlers, orders, calls, failed, raises)
        decreases |messages|
      {
        var m := messages[0];
        assert m == msgs[|orders|];
        messages := messages[1..];
        var some: seq<(HandlerId, Data)>, f: bool;
        ghost var order: seq<HandlerId>;
        if m.signal in handlers {
          some, f, order := RunHandlers(m.signal, m.data, raises);
        } else {
          some, f, order := [], false, [];
        }
        HandledStep(msgs, handlers, orders, calls, some, f, order, raises);
        calls := calls + some;
        failed := f;
        orders := orders + [order];
      }
      if !failed {
        assert msgs[..|orders|] == msgs;
      }
    }

    /**
     * One `on_tick` after the sleep: nothing without an EVERY_SECOND entry;
     * otherwise each EVERY_SECOND handler awaited once with `{}`, until one
     * raises (which ends the tick task).
     */
    method OnTick(raises: ((HandlerId, Data)) -> bool)
      returns (calls: seq<(HandlerId, Data)>, failed: bool, ghost order: seq<HandlerId>)
      ensures EverySecond !in handlers ==> calls == [] && !failed
      ensures Enumerates(order, HandlersOf(EverySecond))
      ensures !failed ==> calls == Calls(order, map[])
      ensures failed ==> 0 < |calls| && calls <= Calls(order, map[]) && raises(calls[|calls| - 1])
      ensures forall k :: 0 <= k < |calls| - (if failed then 1 else 0) ==> !raises(calls[k])
    {
      if EverySecond !in handlers {
        return [], false, [];
      }
      calls, failed, order := RunHandlers(EverySecond, map[], raises);
    }
  }
}
