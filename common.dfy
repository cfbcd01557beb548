/** Small shared helpers: a value that may be `undefined`, and `Array.prototype.filter`. */
module Common {
  datatype Option<T> = None | Some(value: T)

  /** `s.map(f)`. */
  function MapSeq<T, U>(s: seq<T>, f: T -> U): (r: seq<U>)
    ensures |r| == |s| && forall i :: 0 <= i < |s| ==> r[i] == f(s[i])
  {
    seq(|s|, i requires 0 <= i < |s| => f(s[i]))
  }

  /** `s.filter(keep)`: the elements that pass, in their original order. */
  function Filter<T>(s: seq<T>, keep: T -> bool): (r: seq<T>)
    ensures |r| <= |s|
    ensures forall x :: x in r ==> x in s && keep(x)
    ensures (forall i :: 0 <= i < |s| ==> keep(s[i])) ==> r == s
    ensures (forall i :: 0 <= i < |s| ==> !keep(s[i])) ==> r == []
  {
    if s == [] then [] else (if keep(s[0]) then [s[0]] else []) + Filter(s[1..], keep)
  }

  lemma {:induction false} FilterConcat<T>(a: seq<T>, b: seq<T>, keep: T -> bool)
    ensures Filter(a + b, keep) == Filter(a, keep) + Filter(b, keep)
    decreases |a|
  {
    if a == [] {
      assert a + b == b;
    } else {
      assert (a + b)[1..] == a[1..] + b;
      FilterConcat(a[1..], b, keep);
    }
  }

  /** Filtering a concatenation whose left part all passes and whose right part all fails. */
  lemma FilterLeft<T>(a: seq<T>, b: seq<T>, keep: T -> bool)
    requires forall i :: 0 <= i < |a| ==> keep(a[i])
    requires forall i :: 0 <= i < |b| ==> !keep(b[i])
    ensures Filter(a + b, keep) == a
  {
    FilterConcat(a, b, keep);
  }

  /** Filtering a concatenation whose left part all fails and whose right part all passes. */
  lemma FilterRight<T>(a: seq<T>, b: seq<T>, keep: T -> bool)
    requires forall i :: 0 <= i < |a| ==> !keep(a[i])
    requires forall i :: 0 <= i < |b| ==> keep(b[i])
    ensures Filter(a + b, keep) == b
  {
    FilterConcat(a, b, keep);
  }

  /** Filtering a concatenation none of whose elements passes. */
  lemma FilterNone<T>(a: seq<T>, b: seq<T>, keep: T -> bool)
    requires forall i :: 0 <= i < |a| ==> !keep(a[i])
    requires forall i :: 0 <= i < |b| ==> !keep(b[i])
    ensures Filter(a + b, keep) == []
  {
    FilterConcat(a, b, keep);
  }

  /** Filtering twice with the same test keeps what filtering once kept. */
  lemma FilterIdempotent<T>(s: seq<T>, keep: T -> bool)
    ensures Filter(Filter(s, keep), keep) == Filter(s, keep)
  {
    var r := Filter(s, keep);
    assert forall i :: 0 <= i < |r| ==> r[i] in r;
  }

  /** `s.findIndex(p)` started at `from`: the first index at or after `from` that passes, or -1. */
  function FindIndexFrom<T>(s: seq<T>, p: T -> bool, from: nat): (r: int)
    requires from <= |s|
    ensures r == -1 || (from <= r < |s| && p(s[r]))
    ensures forall k :: from <= k < |s| && (r == -1 || k < r) ==> !p(s[k])
    decreases |s| - from
  {
    if from == |s| then -1 else if p(s[from]) then from else FindIndexFrom(s, p, from + 1)
  }

  /** The first passing index is the one before which nothing passes. */
  lemma FindIndexFirst<T>(s: seq<T>, p: T -> bool, i: nat)
    requires i <= |s|
    requires forall j :: 0 <= j < i ==> !p(s[j])
    requires i == |s| || p(s[i])
    ensures FindIndexFrom(s, p, 0) == (if i == |s| then -1 else i)
  {
  }

  /** A non-empty sequence is its front followed by its last element. */
  lemma SnocSplit<T>(s: seq<T>)
    requires |s| > 0
    ensures s == s[..|s| - 1] + [s[|s| - 1]]
  {
  }

  /** The elements of a non-empty sequence are those of its front and its last one. */
  lemma SnocMembers<T>(s: seq<T>)
    requires |s| > 0
    ensures forall x :: x in s <==> x in s[..|s| - 1] || x == s[|s| - 1]
  {
    SnocSplit(s);
  }

  /** The number of elements that pass a test. */
  function CountWhere<T>(s: seq<T>, keep: T -> bool): nat {
    |Filter(s, keep)|
  }
}
