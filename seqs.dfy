/** `Array.prototype.filter` and the SQL `WHERE` clauses that select rows, over sequences. */
module Seqs {

  /** The elements of `s` that satisfy `keep`, in their original order. */
  function Filter<T>(s: seq<T>, keep: T -> bool): (r: seq<T>)
    ensures |r| <= |s|
    ensures forall x :: x in r ==> x in s && keep(x)
    ensures forall x :: x in s && keep(x) ==> x in r
    ensures multiset(r) <= multiset(s)
  {
    if s == [] then []
    else
      var rest := Filter(s[1..], keep);
      assert s == [s[0]] + s[1..];
      if keep(s[0]) then [s[0]] + rest else rest
  }

  /** Filtering a sequence with a known first element. */
  lemma FilterCons<T>(x: T, t: seq<T>, keep: T -> bool)
    ensures Filter([x] + t, keep) == if keep(x) then [x] + Filter(t, keep) else Filter(t, keep)
  {
    assert ([x] + t)[1..] == t;
  }

  /** Filtering works piecewise, so it keeps the relative order of what it keeps. */
  lemma {:induction false} FilterConcat<T>(a: seq<T>, b: seq<T>, keep: T -> bool)
    ensures Filter(a + b, keep) == Filter(a, keep) + Filter(b, keep)
  {
    if a == [] {
      assert a + b == b;
    } else {
      assert (a + b)[1..] == a[1..] + b;
      FilterConcat(a[1..], b, keep);
    }
  }

  /** A filter that rejects nothing returns its input unchanged. */
  lemma {:induction false} FilterKeepsAll<T>(s: seq<T>, keep: T -> bool)
    requires forall x :: x in s ==> keep(x)
    ensures Filter(s, keep) == s
  {
    if s != [] {
      FilterKeepsAll(s[1..], keep);
    }
  }

  /** A filter that rejects exactly the element at `k` cuts it out and
      leaves the rest joined in order. */
  lemma {:induction false} FilterCutsOut<T>(s: seq<T>, k: int, keep: T -> bool)
    requires 0 <= k < |s|
    requires !keep(s[k])
    requires forall j :: 0 <= j < |s| && j != k ==> keep(s[j])
    ensures Filter(s, keep) == s[..k] + s[k + 1..]
    decreases k
  {
    var t := s[1..];
    if k == 0 {
      assert Filter(s, keep) == t by {
        assert s == [s[0]] + t;
        FilterCons(s[0], t, keep);
        FilterKeepsSlice(s, 1, |s|, keep);
        assert s[1..|s|] == t;
      }
      assert s[..k] + s[k + 1..] == t;
    } else {
      assert Filter(s, keep) == [s[0]] + (t[..k - 1] + t[k..]) by {
        assert s == [s[0]] + t;
        FilterCons(s[0], t, keep);
        TailKeepsOthers(s, k, keep);
        FilterCutsOut(t, k - 1, keep);
      }
      assert [s[0]] + (t[..k - 1] + t[k..]) == s[..k] + s[k + 1..] by {
        assert s[..k] == [s[0]] + t[..k - 1];
        assert s[k + 1..] == t[k..];
      }
    }
  }

  /** The tail keeps the filter's verdicts, shifted down by one. */
  lemma TailKeepsOthers<T>(s: seq<T>, k: int, keep: T -> bool)
    requires 0 < k < |s|
    requires forall j :: 0 <= j < |s| && j != k ==> keep(s[j])
    ensures forall j :: 0 <= j < |s| - 1 && j != k - 1 ==> keep(s[1..][j])
  {
    forall j | 0 <= j < |s| - 1 && j != k - 1 ensures keep(s[1..][j]) {
      assert s[1..][j] == s[j + 1];
    }
  }

  /** A stretch whose every element passes the filter is kept whole. */
  lemma FilterKeepsSlice<T>(s: seq<T>, lo: int, hi: int, keep: T -> bool)
    requires 0 <= lo <= hi <= |s|
    requires forall j :: lo <= j < hi ==> keep(s[j])
    ensures Filter(s[lo..hi], keep) == s[lo..hi]
  {
    var part := s[lo..hi];
    forall x | x in part ensures keep(x) {
      var j :| 0 <= j < |part| && part[j] == x;
      assert s[lo + j] == x;
    }
    FilterKeepsAll(part, keep);
  }

  /** Filters that agree on the elements of `s` select the same elements. */
  lemma {:induction false} FilterAgree<T>(s: seq<T>, p: T -> bool, q: T -> bool)
    requires forall x :: x in s ==> p(x) == q(x)
    ensures Filter(s, p) == Filter(s, q)
  {
    if s != [] {
      FilterAgree(s[1..], p, q);
    }
  }

  /** A predicate and its negation split a sequence into two parts that hold,
      together, exactly its elements. */
  lemma {:induction false} FilterSplit<T>(s: seq<T>, keep: T -> bool, drop: T -> bool)
    requires forall x :: x in s ==> drop(x) == !keep(x)
    ensures multiset(Filter(s, keep)) + multiset(Filter(s, drop)) == multiset(s)
  {
    if s != [] {
      var t := s[1..];
      assert s == [s[0]] + t;
      FilterSplit(t, keep, drop);
      if keep(s[0]) {
        assert Filter(s, keep) == [s[0]] + Filter(t, keep);
      } else {
        assert Filter(s, drop) == [s[0]] + Filter(t, drop);
      }
    }
  }
}
