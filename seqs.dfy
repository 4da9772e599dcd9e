/** Sequence helpers shared by the components: `Array.prototype.filter` and summation of amounts. */
module Seqs {
  import opened Wrappers

  /** `s.filter(keep)`: the elements of `s` that satisfy `keep`, in their original order. */
  function Filter<T>(s: seq<T>, keep: T -> bool): (r: seq<T>)
    ensures |r| <= |s|
    decreases |s|
  {
    if s == [] then []
    else (if keep(s[0]) then [s[0]] else []) + Filter(s[1..], keep)
  }

  /** An element is kept exactly when it occurs in `s` and satisfies `keep`. */
  lemma {:induction false} FilterMembers<T(!new)>(s: seq<T>, keep: T -> bool)
    ensures forall x :: x in Filter(s, keep) <==> x in s && keep(x)
    decreases |s|
  {
    if s != [] {
      FilterMembers(s[1..], keep);
      assert s == [s[0]] + s[1..];
    }
  }

  /** Filtering distributes over concatenation, so the relative order of kept elements is preserved. */
  lemma {:induction false} FilterAppend<T>(a: seq<T>, b: seq<T>, keep: T -> bool)
    ensures Filter(a + b, keep) == Filter(a, keep) + Filter(b, keep)
    decreases |a|
  {
    if a == [] {
      assert a + b == b;
    } else {
      var head := if keep(a[0]) then [a[0]] else [];
      assert (a + b)[0] == a[0] && (a + b)[1..] == a[1..] + b;
      FilterAppend(a[1..], b, keep);
      calc {
        Filter(a + b, keep);
        head + Filter(a[1..] + b, keep);
        head + (Filter(a[1..], keep) + Filter(b, keep));
        (head + Filter(a[1..], keep)) + Filter(b, keep);
      }
    }
  }

  /** The values `f` gives to the elements of `s`, in order, skipping the elements it maps to `None`. */
  function FilterMap<T, U>(s: seq<T>, f: T -> Option<U>): (r: seq<U>)
    ensures |r| <= |s|
    decreases |s|
  {
    if s == [] then [] else FilterMap(s[..|s| - 1], f) + f(s[|s| - 1]).ToSeq()
  }

  lemma {:induction false} FilterMapAppend<T, U>(a: seq<T>, b: seq<T>, f: T -> Option<U>)
    ensures FilterMap(a + b, f) == FilterMap(a, f) + FilterMap(b, f)
    decreases |b|
  {
    if b == [] {
      assert a + b == a;
    } else {
      var b' := b[..|b| - 1];
      assert (a + b)[..|a + b| - 1] == a + b';
      assert (a + b)[|a + b| - 1] == b[|b| - 1];
      FilterMapAppend(a, b', f);
    }
  }

  /** A value is produced exactly when some element maps to it. */
  lemma {:induction false} FilterMapMembers<T, U>(s: seq<T>, f: T -> Option<U>, y: U)
    ensures y in FilterMap(s, f) <==> exists i :: 0 <= i < |s| && f(s[i]) == Some(y)
    decreases |s|
  {
    if s != [] {
      var front, last := s[..|s| - 1], s[|s| - 1];
      assert FilterMap(s, f) == FilterMap(front, f) + f(last).ToSeq();
      FilterMapMembers(front, f, y);
      if y in FilterMap(s, f) {
        if y in FilterMap(front, f) {
          var i :| 0 <= i < |front| && f(front[i]) == Some(y);
          assert s[i] == front[i];
        } else {
          assert f(s[|s| - 1]) == Some(y);
        }
      }
      if exists i :: 0 <= i < |s| && f(s[i]) == Some(y) {
        var i :| 0 <= i < |s| && f(s[i]) == Some(y);
        if i < |front| {
          assert front[i] == s[i];
        }
      }
    }
  }

  /** What `FilterMap` produces from all but the first element comes from one of those elements. */
  lemma FilterMapTailMembers<T, U>(s: seq<T>, f: T -> Option<U>, y: U)
    requires s != []
    ensures y in FilterMap(s[1..], f) <==> exists i :: 1 <= i < |s| && f(s[i]) == Some(y)
  {
    var rest := s[1..];
    FilterMapMembers(rest, f, y);
    if y in FilterMap(rest, f) {
      var j :| 0 <= j < |rest| && f(rest[j]) == Some(y);
      assert s[j + 1] == rest[j];
    }
    if exists i :: 1 <= i < |s| && f(s[i]) == Some(y) {
      var i :| 1 <= i < |s| && f(s[i]) == Some(y);
      assert rest[i - 1] == s[i];
    }
  }

  /** The sum of `amount(x)` over the elements of `s`. */
  function SumBy<T>(s: seq<T>, amount: T -> real): real
    decreases |s|
  {
    if s == [] then 0.0 else amount(s[0]) + SumBy(s[1..], amount)
  }

  lemma {:induction false} SumByAppend<T>(a: seq<T>, b: seq<T>, amount: T -> real)
    ensures SumBy(a + b, amount) == SumBy(a, amount) + SumBy(b, amount)
    decreases |a|
  {
    if a == [] {
      assert a + b == b;
    } else {
      assert (a + b)[1..] == a[1..] + b;
      SumByAppend(a[1..], b, amount);
    }
  }

  /** The complement of a filter condition. */
  function Not<T>(keep: T -> bool): T -> bool {
    x => !keep(x)
  }

  /** A sum splits into the part over the kept elements and the part over the dropped ones. */
  lemma {:induction false} SumByFilterSplit<T>(s: seq<T>, keep: T -> bool, amount: T -> real)
    ensures SumBy(s, amount) == SumBy(Filter(s, keep), amount) + SumBy(Filter(s, Not(keep)), amount)
    decreases |s|
  {
    if s != [] {
      SumByFilterSplit(s[1..], keep, amount);
      var head := if keep(s[0]) then [s[0]] else [];
      var headOut := if !keep(s[0]) then [s[0]] else [];
      SumByAppend(head, Filter(s[1..], keep), amount);
      SumByAppend(headOut, Filter(s[1..], Not(keep)), amount);
    }
  }
}
