/** The JavaScript array operations the configuration code is built from
    (`map`, `filter`, `splice(i, 1)`), as functions on sequences. */
module Seqs {

  /** `s.map(f)`: one result per element, in the same positions. */
  function Map<T, U>(s: seq<T>, f: T -> U): (r: seq<U>)
    ensures |r| == |s|
    ensures forall i :: 0 <= i < |s| ==> r[i] == f(s[i])
  {
    if s == [] then [] else [f(s[0])] + Map(s[1..], f)
  }

  /** `r` is obtained from `s` by dropping elements, keeping the rest in order. */
  predicate Subsequence<T(==)>(r: seq<T>, s: seq<T>)
    decreases |s|
  {
    r == [] || (s != [] && ((r[0] == s[0] && Subsequence(r[1..], s[1..])) || Subsequence(r, s[1..])))
  }

  /** `s.filter(keep)`: every element that passes, each as often as in `s`,
      none that fails, and in the original order. */
  function Filter<T(==,!new)>(s: seq<T>, keep: T -> bool): (r: seq<T>)
    ensures |r| <= |s|
    ensures Subsequence(r, s)
    ensures forall x :: x in r <==> x in s && keep(x)
  {
    if s == [] then []
    else if keep(s[0]) then [s[0]] + Filter(s[1..], keep) else Filter(s[1..], keep)
  }

  /** Each kept value occurs in the result exactly as often as in `s`. */
  lemma {:induction false} FilterCounts<T(!new)>(s: seq<T>, keep: T -> bool)
    ensures forall x :: multiset(Filter(s, keep))[x] == if keep(x) then multiset(s)[x] else 0
  {
    if s != [] {
      FilterCounts(s[1..], keep);
      assert s == [s[0]] + s[1..];
    }
  }

  /** Filtering a sequence none of whose elements is rejected gives it back. */
  lemma {:induction false} FilterKeepsAll<T(!new)>(s: seq<T>, keep: T -> bool)
    requires forall k :: 0 <= k < |s| ==> keep(s[k])
    ensures Filter(s, keep) == s
  {
    if s != [] {
      assert keep(s[0]);
      assert forall k :: 0 <= k < |s[1..]| ==> s[1..][k] == s[k + 1];
      FilterKeepsAll(s[1..], keep);
      assert s == [s[0]] + s[1..];
    }
  }

  /** Filtering twice with the same test is filtering once. */
  lemma FilterIdempotent<T(!new)>(s: seq<T>, keep: T -> bool)
    ensures Filter(Filter(s, keep), keep) == Filter(s, keep)
  {
    var r := Filter(s, keep);
    assert forall k :: 0 <= k < |r| ==> r[k] in r;
    FilterKeepsAll(r, keep);
  }

  /** Filtering works piecewise, so the kept elements of an earlier part
      stay ahead of those of a later part. */
  lemma {:induction false} FilterConcat<T(!new)>(a: seq<T>, b: seq<T>, keep: T -> bool)
    ensures Filter(a + b, keep) == Filter(a, keep) + Filter(b, keep)
  {
    if a == [] {
      assert a + b == b;
    } else {
      assert (a + b)[0] == a[0];
      assert (a + b)[1..] == a[1..] + b;
      FilterConcat(a[1..], b, keep);
    }
  }

  /** When some element is rejected, the result is strictly shorter. */
  lemma {:induction false} FilterDrops<T(!new)>(s: seq<T>, keep: T -> bool, k: nat)
    requires k < |s| && !keep(s[k])
    ensures |Filter(s, keep)| < |s|
  {
    if k == 0 {
      assert Filter(s, keep) == Filter(s[1..], keep);
    } else {
      assert s[1..][k - 1] == s[k];
      FilterDrops(s[1..], keep, k - 1);
      assert |Filter(s, keep)| <= 1 + |Filter(s[1..], keep)|;
    }
  }

  /** When the element at `i` is the only one rejected, filtering is
      splicing it out. */
  lemma {:induction false} FilterRejectsOnly<T(!new)>(s: seq<T>, keep: T -> bool, i: nat)
    requires i < |s| && !keep(s[i])
    requires forall k :: 0 <= k < |s| && k != i ==> keep(s[k])
    ensures Filter(s, keep) == RemoveAt(s, i)
  {
    var t := s[1..];
    assert forall k :: 0 <= k < |t| ==> t[k] == s[k + 1];
    if i == 0 {
      assert Filter(s, keep) == Filter(t, keep);
      FilterKeepsAll(t, keep);
      assert RemoveAt(s, i) == t;
    } else {
      assert keep(s[0]);
      assert Filter(s, keep) == [s[0]] + Filter(t, keep);
      FilterRejectsOnly(t, keep, i - 1);
      assert RemoveAt(s, i) == [s[0]] + RemoveAt(t, i - 1);
    }
  }

  /** `s.splice(i, 1)`: the element at `i` goes, later ones move down by one. */
  function RemoveAt<T>(s: seq<T>, i: nat): (r: seq<T>)
    requires i < |s|
    ensures |r| == |s| - 1
    ensures forall j :: 0 <= j < i ==> r[j] == s[j]
    ensures forall j :: i <= j < |r| ==> r[j] == s[j + 1]
  {
    s[..i] + s[i + 1..]
  }

  /** Splicing removes exactly one occurrence of the element at `i`. */
  lemma RemoveAtMultiset<T>(s: seq<T>, i: nat)
    requires i < |s|
    ensures multiset(RemoveAt(s, i)) + multiset{s[i]} == multiset(s)
  {
    assert s == s[..i] + [s[i]] + s[i + 1..];
  }
}
