/**
 * The scheduler mixin (scheduler.py): a module-level dict of scheduled
 * sessions, filled when a session opens and emptied when it closes, and a
 * loop that on every pass dispatches one EVERY_SECOND event per scheduled
 * session, bound to that session.
 *
 * A session object is its id plus an object identity. The dict keeps
 * insertion order, so it is a sequence of (id, session) entries with
 * distinct ids. Whether dispatching a tick raises is a parameter.
 */
module Scheduler {
  import opened Common

  type SessionId = string

  /** A session object: its id and its identity. */
  datatype Session = Session(id: SessionId, ref: nat)

  const EverySecond := "EVERY_SECOND"

  /** An event dispatched by the scheduler, with its context bound to a session. */
  datatype Tick = Tick(name: string, ctx: Session)

  /** No two entries share an id. */
  predicate DistinctIds(entries: seq<Session>)
  {
    forall i, j :: 0 <= i < j < |entries| ==> entries[i].id != entries[j].id
  }

  /** The dict the entry sequence represents. */
  function AsMap(entries: seq<Session>): map<SessionId, Session>
  {
    if |entries| == 0 then map[]
    else AsMap(entries[..|entries| - 1])[entries[|entries| - 1].id := entries[|entries| - 1]]
  }

  /** The position of the entry with this id, if any (the last one, should ids repeat). */
  function IndexOf(entries: seq<Session>, id: SessionId): (r: Option<nat>)
    ensures r.None? <==> forall i :: 0 <= i < |entries| ==> entries[i].id != id
    ensures r.Some? ==> r.value < |entries| && entries[r.value].id == id
  {
    if |entries| == 0 then None
    else if entries[|entries| - 1].id == id then Some(|entries| - 1)
    else
      var r := IndexOf(entries[..|entries| - 1], id);
      assert forall i :: 0 <= i < |entries| - 1 ==> entries[..|entries| - 1][i] == entries[i];
      r
  }

  /** An id is a key of the dict exactly when some entry has it, and then it maps to that entry. */
  lemma {:induction false} AsMapLookup(entries: seq<Session>, id: SessionId)
    ensures id in AsMap(entries) <==> IndexOf(entries, id).Some?
    ensures id in AsMap(entries) ==> AsMap(entries)[id] == entries[IndexOf(entries, id).value]
  {
    if |entries| > 0 {
      AsMapLookup(entries[..|entries| - 1], id);
    }
  }

  /**
   * The ticks one pass dispatches, in entry order, stopping after the
   * first dispatch that raises.
   */
  function PassTicks(entries: seq<Session>, raises: Session -> bool): (r: seq<Tick>)
    ensures |r| <= |entries|
    ensures forall k :: 0 <= k < |r| ==> r[k] == Tick(EverySecond, entries[k])
    ensures (forall k :: 0 <= k < |entries| ==> !raises(entries[k])) ==> |r| == |entries|
    ensures |r| < |entries| ==> |r| > 0 && raises(entries[|r| - 1])
  {
    if |entries| == 0 then []
    else if raises(entries[0]) then [Tick(EverySecond, entries[0])]
    else [Tick(EverySecond, entries[0])] + PassTicks(entries[1..], raises)
  }

  /** The pass ends the loop exactly when some dispatch raised. */
  function PassStops(entries: seq<Session>, raises: Session -> bool): bool
  {
    exists k :: 0 <= k < |entries| && raises(entries[k])
  }

  class ScheduledSessions {
    /** `_scheduled_sessions`, in insertion order. */
    var entries: seq<Session>

    ghost predicate Valid()
      reads this
    {
      DistinctIds(entries)
    }

    constructor ()
      ensures Valid() && entries == []
    {
      entries := [];
    }

    /**
     * `_on_session_open` after the base hook: the session is stored under
     * its id. A new id goes last; an id already present keeps its place
     * and its entry is replaced.
     */
    method Open(session: Session)
      requires Valid()
      modifies this
      ensures Valid()
      ensures AsMap(entries) == old(AsMap(entries))[session.id := session]
      ensures IndexOf(old(entries), session.id).None? ==> entries == old(entries) + [session]
      ensures IndexOf(old(entries), session.id).Some? ==>
                entries == old(entries)[IndexOf(old(entries), session.id).value := session]
    {
      match IndexOf(entries, session.id)
      case None =>
        entries := entries + [session];
        assert entries[..|entries| - 1] == old(entries);
      case Some(i) =>
        entries := entries[i := session];
        AsMapUpdate(old(entries), i, session);
    }

    /**
     * `_on_session_close` after the base hook: KeyError, nothing changed,
     * for an id not scheduled; otherwise that entry alone is removed and
     * the others keep their order.
     */
    method Close(session: Session) returns (r: Result<(), Exception>)
      requires Valid()
      modifies this
      ensures Valid()
      ensures r.Failure? <==> session.id !in old(AsMap(entries))
      ensures r.Failure? ==> r.error == KeyError(session.id) && entries == old(entries)
      ensures r.Success? ==> AsMap(entries) == old(AsMap(entries)) - {session.id}
      ensures r.Success? ==> exists i :: 0 <= i < |old(entries)| && entries == old(entries)[..i] + old(entries)[i + 1..]
    {
      match IndexOf(entries, session.id)
      case None =>
        AsMapLookup(entries, session.id);
        r := Failure(KeyError(session.id));
      case Some(i) =>
        AsMapLookup(entries, session.id);
        AsMapRemove(entries, i);
        entries := entries[..i] + entries[i + 1..];
        r := Success(());
    }

    /**
     * One pass of `scheduler`: for each scheduled session in order, an
     * EVERY_SECOND bound to it is dispatched and awaited before the next;
     * a dispatch that raises ends the loop for good (`stopped`).
     */
    method Pass(raises: Session -> bool) returns (ticks: seq<Tick>, stopped: bool)
      ensures ticks == PassTicks(entries, raises)
      ensures stopped == PassStops(entries, raises)
    {
      var es := entries;
      ticks := [];
      stopped := false;
      var i := 0;
      while i < |es| && !stopped
        invariant 0 <= i <= |es| && |ticks| == i
        invariant forall k :: 0 <= k < i ==> ticks[k] == Tick(EverySecond, es[k])
        invariant stopped ==> i > 0 && raises(es[i - 1])
        invariant forall k :: 0 <= k < i - (if stopped then 1 else 0) ==> !raises(es[k])
      {
        ticks := ticks + [Tick(EverySecond, es[i])];
        stopped := raises(es[i]);
        i := i + 1;
      }
      if !stopped {
        assert |PassTicks(es, raises)| == |es|;
      } else {
        PassTicksStop(es, raises, i - 1);
      }
    }
  }

  lemma {:induction false} PassTicksStop(entries: seq<Session>, raises: Session -> bool, i: nat)
    requires i < |entries| && raises(entries[i])
    requires forall k :: 0 <= k < i ==> !raises(entries[k])
    ensures |PassTicks(entries, raises)| == i + 1
  {
    if i > 0 {
      PassTicksStop(entries[1..], raises, i - 1);
    }
  }

  /** Replacing the entry at `i` by one with the same id updates the dict at that id. */
  lemma {:induction false} AsMapUpdate(entries: seq<Session>, i: nat, s: Session)
    requires DistinctIds(entries) && i < |entries| && entries[i].id == s.id
    ensures AsMap(entries[i := s]) == AsMap(entries)[s.id := s]
  {
    var n := |entries| - 1;
    if i < n {
      AsMapUpdate(entries[..n], i, s);
      assert entries[i := s][..n] == entries[..n][i := s];
    } else {
      assert entries[i := s][..n] == entries[..n];
    }
  }

  /** Removing one entry keeps the ids distinct. */
  lemma {:induction false} DistinctIdsRemove(entries: seq<Session>, i: nat)
    requires DistinctIds(entries) && i < |entries|
    ensures DistinctIds(entries[..i] + entries[i + 1..])
  {
    var rest := entries[..i] + entries[i + 1..];
    forall a, b | 0 <= a < b < |rest|
      ensures rest[a].id != rest[b].id
    {
      var a' := if a < i then a else a + 1;
      var b' := if b < i then b else b + 1;
      assert rest[a] == entries[a'] && rest[b] == entries[b'];
    }
  }

  /** Removing one key and then setting another is setting it and then removing the first. */
  lemma {:induction false} UpdateAfterRemove<K, V>(m: map<K, V>, k: K, v: V, gone: K)
    requires k != gone
    ensures (m - {gone})[k := v] == m[k := v] - {gone}
  {
  }

  /** Removing the entry at `i` removes its id from the dict and keeps the rest. */
  lemma {:induction false} AsMapRemove(entries: seq<Session>, i: nat)
    requires DistinctIds(entries) && i < |entries|
    ensures DistinctIds(entries[..i] + entries[i + 1..])
    ensures AsMap(entries[..i] + entries[i + 1..]) == AsMap(entries) - {entries[i].id}
  {
    DistinctIdsRemove(entries, i);
    var n := |entries| - 1;
    var front := entries[..n];
    var last := entries[n];
    var rest := entries[..i] + entries[i + 1..];
    AsMapLookup(front, last.id);
    assert last.id !in AsMap(front);
    if i < n {
      AsMapRemove(front, i);
      var shorter := front[..i] + front[i + 1..];
      assert rest == shorter + [last];
      assert rest[..|rest| - 1] == shorter;
      assert AsMap(rest) == AsMap(shorter)[last.id := last];
      assert entries[i].id != last.id;
      assert AsMap(entries) == AsMap(front)[last.id := last];
      UpdateAfterRemove(AsMap(front), last.id, last, entries[i].id);
    } else {
      assert rest == front;
      assert AsMap(entries) == AsMap(front)[last.id := last];
    }
  }
}
