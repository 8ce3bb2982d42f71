/** Shared vocabulary of the model. */
module Common {

  datatype Option<+T> = None | Some(value: T)

  /** The elements to keep, in order. */
  function Filter<T>(s: seq<T>, keep: T -> bool): seq<T> {
    if s == [] then []
    else Filter(s[..|s| - 1], keep) + if keep(s[|s| - 1]) then [s[|s| - 1]] else []
  }

  lemma {:induction false} FilterKeeps<T>(s: seq<T>, keep: T -> bool)
    ensures forall x :: x in Filter(s, keep) ==> x in s && keep(x)
    ensures forall x :: x in s && keep(x) ==> x in Filter(s, keep)
  {
    if s == [] {
    } else {
      FilterKeeps(s[..|s| - 1], keep);
    }
  }

  /** Element by element and in order: that is all a filter can be. */
  lemma {:induction false} FilterSplits<T>(s: seq<T>, t: seq<T>, keep: T -> bool)
    ensures Filter(s + t, keep) == Filter(s, keep) + Filter(t, keep)
  {
    if t == [] {
      assert s + t == s;
    } else {
      var init, last := t[..|t| - 1], t[|t| - 1];
      FilterSplits(s, init, keep);
      assert (s + t)[..|s + t| - 1] == s + init;
      var end := if keep(last) then [last] else [];
      assert Filter(s + t, keep) == Filter(s + init, keep) + end;
    }
  }

  lemma FilterOfOne<T>(x: T, keep: T -> bool)
    ensures Filter([x], keep) == if keep(x) then [x] else []
  {
  }
}
