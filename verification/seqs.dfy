/** Generic sequence vocabulary: duplicate-freedom, first occurrence,
    order-preserving de-duplication (`Array.from(new Set(xs))`),
    flattening, joining and subsequences. */
module Seqs {

  predicate NoDup<T(==)>(s: seq<T>) {
    forall i, j :: 0 <= i < j < |s| ==> s[i] != s[j]
  }

  function Min(a: int, b: int): int {
    if a <= b then a else b
  }

  /** Position of the first occurrence of `x` in `s`. */
  function IndexOf<T(==)>(s: seq<T>, x: T): (i: nat)
    requires x in s
    ensures i < |s| && s[i] == x
    ensures forall j :: 0 <= j < i ==> s[j] != x
  {
    if s[0] == x then 0 else 1 + IndexOf(s[1..], x)
  }

  /** A prefix that already holds `x` has its first occurrence where the
      whole sequence has it. */
  lemma {:induction false} IndexOfPrefix<T>(s: seq<T>, k: nat, x: T)
    requires k <= |s| && x in s[..k]
    ensures x in s && IndexOf(s, x) == IndexOf(s[..k], x)
  {
    var i := IndexOf(s[..k], x);
    assert s[i] == x;
    var i' := IndexOf(s, x);
    assert i' <= i;
    assert s[..k][i'] == x;
  }

  /** The elements of `s` in order of first occurrence, each once; this
      is what iterating a JavaScript `Set` or `Map` built from `s` gives. */
  function Distinct<T(==)>(s: seq<T>): (r: seq<T>)
    ensures NoDup(r)
    ensures forall x | x in r :: x in s
    ensures forall x | x in s :: x in r
    ensures |r| <= |s|
  {
    if |s| == 0 then []
    else
      var d := Distinct(s[..|s| - 1]);
      var x := s[|s| - 1];
      assert forall y | y in s :: y in s[..|s| - 1] || y == x;
      if x in d then d else d + [x]
  }

  /** Extending the input by one element extends `Distinct` by it
      exactly when it is new. */
  lemma DistinctSnoc<T>(s: seq<T>, x: T)
    ensures Distinct(s + [x]) == if x in s then Distinct(s) else Distinct(s) + [x]
  {
    assert (s + [x])[..|s|] == s;
  }

  /** Dropping the first part of a three-part concatenation. */
  lemma ConcatRest<T>(a: seq<T>, b: seq<T>, c: seq<T>)
    ensures (a + b + c)[|a|..] == b + c
  {
  }

  /** A left-nested four-part concatenation is a prefix of the same parts
      nested to the right and followed by more. */
  lemma FourPartPrefix<T>(a: seq<T>, b: seq<T>, c: seq<T>, d: seq<T>, e: seq<T>)
    ensures a + b + c + d <= a + (b + (c + d)) + e
  {
    assert a + (b + (c + d)) + e == (a + b + c + d) + e;
  }

  /** `Distinct` lists the elements in the order in which they first
      occur. */
  lemma {:induction false} DistinctFirstOccurrenceOrder<T>(s: seq<T>)
    ensures forall i, j :: 0 <= i < j < |Distinct(s)| ==>
      IndexOf(s, Distinct(s)[i]) < IndexOf(s, Distinct(s)[j])
  {
    if |s| > 0 {
      var n := |s| - 1;
      var init := s[..n];
      var d := Distinct(init);
      DistinctFirstOccurrenceOrder(init);
      forall y | y in d
        ensures IndexOf(s, y) == IndexOf(init, y) < n
      {
        IndexOfPrefix(s, n, y);
      }
      if s[n] !in d {
        assert s[n] !in init;
        assert IndexOf(s, s[n]) == n;
        assert Distinct(s) == d + [s[n]];
      }
    }
  }

  /** Concatenation of the inner sequences, in order (`flatMap`). */
  function Flatten<T>(ss: seq<seq<T>>): seq<T> {
    if |ss| == 0 then [] else ss[0] + Flatten(ss[1..])
  }

  /** `parts.join(sep)`. */
  function Join(parts: seq<string>, sep: string): string {
    if |parts| == 0 then ""
    else if |parts| == 1 then parts[0]
    else parts[0] + sep + Join(parts[1..], sep)
  }

  /** `a` is obtained from `b` by deleting elements, keeping order. */
  predicate IsSubseq<T(==)>(a: seq<T>, b: seq<T>)
    decreases |b|
  {
    if |a| == 0 then true
    else if |b| == 0 then false
    else (a[0] == b[0] && IsSubseq(a[1..], b[1..])) || IsSubseq(a, b[1..])
  }

  lemma {:induction false} SubseqLength<T>(a: seq<T>, b: seq<T>)
    requires IsSubseq(a, b)
    ensures |a| <= |b|
    decreases |b|
  {
    if |a| > 0 {
      if a[0] == b[0] && IsSubseq(a[1..], b[1..]) {
        SubseqLength(a[1..], b[1..]);
      } else {
        SubseqLength(a, b[1..]);
      }
    }
  }
}
