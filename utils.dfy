/**
 * Reflection helpers (utils.py). A Python function object is reduced to
 * what these helpers read from it: its `__qualname__`, its `__name__`, and
 * the object it is bound to, if any (an object identity is a number).
 */
module Utils {
  import opened Common
  import Text

  datatype Callable = Callable(qualname: string, name: string, boundSelf: Option<nat>)

  /** `get_f_self`: the object a bound method is bound to, None for a plain function. */
  function GetSelf(f: Callable): Option<nat>
  {
    f.boundSelf
  }

  /**
   * `get_f_cls_name`: the qualname split at dots. One piece (a module-level
   * function) gives None; two pieces (a method defined directly in a class
   * body) give the class name, the text before the dot; three or more
   * pieces raise RuntimeError.
   */
  function GetClassName(f: Callable): (r: Result<Option<string>, Exception>)
    ensures r.Failure? <==> Text.Count(f.qualname, '.') >= 2
    ensures r.Failure? ==> r.error == RuntimeError
    ensures r == Success(None) <==> '.' !in f.qualname
    ensures Text.Count(f.qualname, '.') == 1 ==> r.Success? && r.value.Some?
    ensures r.Success? && r.value.Some? ==>
              var cls := r.value.value;
              && '.' !in cls
              && |cls| < |f.qualname|
              && f.qualname[..|cls|] == cls
              && f.qualname[|cls|] == '.'
  {
    var parts := Text.Split(f.qualname, '.');
    Text.SplitCount(f.qualname, '.');
    if |parts| > 2 then Failure(RuntimeError)
    else if |parts| == 2 then
      FirstPieceIsPrefix(f.qualname, '.');
      Success(Some(parts[0]))
    else
      assert Text.Count(f.qualname, '.') == 0;
      CountZeroAbsent(f.qualname, '.');
      Success(None)
  }

  lemma {:induction false} FirstPieceIsPrefix(s: string, c: char)
    requires c in s
    ensures var p := Text.Split(s, c)[0]; |p| < |s| && s[..|p|] == p && s[|p|] == c
  {
  }

  lemma {:induction false} CountZeroAbsent(s: string, c: char)
    requires Text.Count(s, c) == 0
    ensures c !in s
  {
    if |s| > 0 {
      CountZeroAbsent(s[1..], c);
      assert s == [s[0]] + s[1..];
    }
  }
}
