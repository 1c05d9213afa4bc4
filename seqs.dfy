/** Sequence helpers shared by the engine modules: duplicate-free lists. */
module Seqs {

  predicate NoDup<T(==)>(s: seq<T>) {
    forall i, j :: 0 <= i < j < |s| ==> s[i] != s[j]
  }

  /** Position of the first occurrence of x in s. */
  function IndexOf<T(==)>(s: seq<T>, x: T): (k: nat)
    requires x in s
    ensures k < |s| && s[k] == x && x !in s[..k]
  {
    if s[0] == x then 0
    else
      var k := IndexOf(s[1..], x);
      assert s[..k + 1] == [s[0]] + s[1..][..k];
      k + 1
  }

  /** The elements of s without repetitions, each kept where it first occurs:
      the list an "append unless already present" loop builds. */
  function Dedup<T(==)>(s: seq<T>): (r: seq<T>)
    ensures NoDup(r)
    ensures forall i :: 0 <= i < |r| ==> r[i] in s
    ensures forall i :: 0 <= i < |s| ==> s[i] in r
    ensures |r| <= |s|
  {
    if s == [] then []
    else
      var p, last := s[..|s| - 1], s[|s| - 1];
      assert s == p + [last];
      var d := Dedup(p);
      if last in d then d else d + [last]
  }

  lemma {:induction false} IndexOfExtend<T>(p: seq<T>, y: T, x: T)
    requires x in p
    ensures IndexOf(p + [y], x) == IndexOf(p, x)
  {
    if p[0] != x {
      assert (p + [y])[1..] == p[1..] + [y];
      IndexOfExtend(p[1..], y, x);
    }
  }

  /** Dedup keeps the order in which elements first occur in s. */
  lemma {:induction false} DedupKeepsFirstOccurrenceOrder<T>(s: seq<T>)
    ensures forall i, j :: 0 <= i < j < |Dedup(s)| ==>
      IndexOf(s, Dedup(s)[i]) < IndexOf(s, Dedup(s)[j])
  {
    if s != [] {
      var p, last := s[..|s| - 1], s[|s| - 1];
      assert s == p + [last];
      DedupKeepsFirstOccurrenceOrder(p);
      var d := Dedup(p);
      forall x | x in p ensures IndexOf(s, x) == IndexOf(p, x) {
        IndexOfExtend(p, last, x);
      }
      if last !in d {
        assert last !in p;
        assert IndexOf(s, last) == |p| by {
          assert s[|p|] == last && last !in s[..|p|];
          IndexOfUnique(s, last, |p|);
        }
      }
    }
  }

  lemma IndexOfUnique<T>(s: seq<T>, x: T, k: nat)
    requires k < |s| && s[k] == x && x !in s[..k]
    ensures IndexOf(s, x) == k
  {
  }

  /** An iteration order of a dictionary's keys: each key exactly once. */
  predicate IsOrderOf<K(==), V>(order: seq<K>, m: map<K, V>) {
    NoDup(order) && (forall k :: 0 <= k < |order| ==> order[k] in m) &&
    (forall n :: n in m ==> n in order)
  }

  /** The right part of a concatenation is its slice after the left part. */
  lemma SliceOfAppended<T>(a: seq<T>, b: seq<T>)
    ensures (a + b)[|a|..|a| + |b|] == b
  {
    forall i | 0 <= i < |b| ensures (a + b)[|a|..|a| + |b|][i] == b[i] {
      assert (a + b)[|a| + i] == b[i];
    }
  }

  /** A slice of a concatenation inside its left part is a slice of that part. */
  lemma SliceOfLeft<T>(a: seq<T>, b: seq<T>, lo: nat, hi: nat)
    requires lo <= hi <= |a|
    ensures (a + b)[lo..hi] == a[lo..hi]
  {
    forall i | 0 <= i < hi - lo ensures (a + b)[lo..hi][i] == a[lo..hi][i] {
      assert (a + b)[lo + i] == a[lo + i];
    }
  }

  /** A slice of a concatenation inside its right part is a slice of that part. */
  lemma SliceOfRight<T>(a: seq<T>, b: seq<T>, lo: nat, hi: nat)
    requires lo <= hi <= |b|
    ensures (a + b)[|a| + lo..|a| + hi] == b[lo..hi]
  {
  }
}
