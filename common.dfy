/**
 * Types shared by every module of the model: an Option, a Result, the
 * Python exceptions the modelled code raises, and the dynamic values that
 * travel inside message payloads and component variables.
 */
module Common {

  datatype Option<+T> = None | Some(value: T)

  datatype Result<+T, +E> = Success(value: T) | Failure(error: E) {
    predicate IsFailure() { Failure? }
    function PropagateFailure<U>(): Result<U, E>
      requires Failure?
    {
      Failure(error)
    }
    function Extract(): T
      requires Success?
    {
      value
    }
  }

  /** The exceptions raised by the modelled code, named as Python names them. */
  datatype Exception =
    | KeyError(key: string)
    | ValueError(text: string)
    | AttributeError(attribute: string)
    | RuntimeError
    | TypeError
    | LookupError
    | SessionClosed
    | JsSyntaxError

  /** A dynamically typed value: what a dataclass field or a dict entry holds. */
  datatype Value =
    | Str(s: string)
    | Int(i: int)
    | Bool(b: bool)
    | Null
    | Dict(entries: map<string, Value>)

  /** A Python dict from field or variable name to value. */
  type Data = map<string, Value>

  /**
   * `order` lists each member of `s` exactly once: the order in which a
   * loop over a Python set visits it, which the language leaves open.
   */
  ghost predicate Enumerates<T(!new)>(order: seq<T>, s: set<T>)
  {
    && (forall i, j :: 0 <= i < j < |order| ==> order[i] != order[j])
    && (forall x :: x in order <==> x in s)
  }

  /** Three sequences joined in order, grouped from the right. */
  lemma {:induction false} Regroup<T>(x: seq<T>, y: seq<T>, z: seq<T>)
    ensures (x + y) + z == x + (y + z)
  {
  }

  /** An enumeration of part of a set, extended in some order by the members left out. */
  lemma {:induction false} CompleteEnumeration<T(!new)>(order: seq<T>, s: set<T>, left: set<T>) returns (full: seq<T>)
    requires left <= s && Enumerates(order, s - left)
    ensures Enumerates(full, s) && order <= full
    ensures left == {} ==> full == order
  {
    var rest := left;
    full := order;
    while rest != {}
      invariant rest <= left && Enumerates(full, s - rest) && order <= full
      invariant left == {} ==> full == order
      decreases |rest|
    {
      var h :| h in rest;
      full := full + [h];
      rest := rest - {h};
    }
  }

  // ---------------------------------------------------------------------
  // Loops that stop at the first call that raises

  /** Whether `stop` holds of some element of `s`. */
  predicate AnyOf<T>(s: seq<T>, stop: T -> bool)
  {
    exists k :: 0 <= k < |s| && stop(s[k])
  }

  /**
   * The elements of `s` up to and including the first one `stop` holds
   * of (the call that raises); all of `s` when there is none.
   */
  function UntilFirst<T>(s: seq<T>, stop: T -> bool): seq<T>
  {
    if |s| == 0 then []
    else if stop(s[0]) then [s[0]]
    else [s[0]] + UntilFirst(s[1..], stop)
  }

  /**
   * A beginning of `full` in which only the last element may stop, and
   * does exactly when the flag says so, is `full` up to its first stopping
   * element, and the flag says whether `full` has one.
   */
  lemma {:induction false} PrefixUntilFirst<T>(done: seq<T>, full: seq<T>, failed: bool, stop: T -> bool)
    requires done <= full
    requires !failed ==> done == full
    requires failed ==> 0 < |done| && stop(done[|done| - 1])
    requires forall k :: 0 <= k < |done| - (if failed then 1 else 0) ==> !stop(done[k])
    ensures done == UntilFirst(full, stop)
    ensures failed == AnyOf(full, stop)
  {
    if |done| == 0 {
      assert full == [];
    } else if stop(done[0]) {
      assert failed && |done| == 1;
      assert done == [full[0]];
    } else {
      assert full[0] == done[0];
      PrefixUntilFirst(done[1..], full[1..], failed, stop);
      assert done == [done[0]] + done[1..];
      if AnyOf(full[1..], stop) {
        var k :| 0 <= k < |full[1..]| && stop(full[1..][k]);
        assert stop(full[k + 1]);
      }
      if AnyOf(full, stop) {
        var k :| 0 <= k < |full| && stop(full[k]);
        assert k > 0 && stop(full[1..][k - 1]);
      }
    }
  }

  /** What runs before the stop is a beginning of the whole, and is the whole when nothing stops. */
  lemma {:induction false} UntilFirstPrefix<T>(s: seq<T>, stop: T -> bool)
    ensures UntilFirst(s, stop) <= s
    ensures !AnyOf(s, stop) <==> UntilFirst(s, stop) == s && (|s| == 0 || !stop(s[|s| - 1]))
  {
    if |s| > 0 && !stop(s[0]) {
      UntilFirstPrefix(s[1..], stop);
      assert s == [s[0]] + s[1..];
      if AnyOf(s[1..], stop) {
        var k :| 0 <= k < |s[1..]| && stop(s[1..][k]);
        assert stop(s[k + 1]);
      }
      if AnyOf(s, stop) {
        var k :| 0 <= k < |s| && stop(s[k]);
        assert k > 0 && stop(s[1..][k - 1]);
      }
    }
  }
}
