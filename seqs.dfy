/** Sequence operations that the TypeScript source gets from `Array.prototype` and `Set`. */
module Seqs {
  import opened Wrappers

  /** `a` can be obtained from `b` by deleting elements (order is kept). */
  ghost predicate IsSubseq<T>(a: seq<T>, b: seq<T>)
    decreases |b|
  {
    a == [] || (b != [] && ((a[0] == b[0] && IsSubseq(a[1..], b[1..])) || IsSubseq(a, b[1..])))
  }

  predicate NoDups<T(==)>(s: seq<T>)
  {
    forall i, j :: 0 <= i < j < |s| ==> s[i] != s[j]
  }

  function Elems<T>(s: seq<T>): set<T>
  {
    set x | x in s
  }

  /** `s.filter(p)`: the elements satisfying `p`, in their original order. */
  function Filter<T(!new)>(s: seq<T>, p: T -> bool): (r: seq<T>)
    ensures |r| <= |s|
    ensures forall x :: x in r <==> x in s && p(x)
    ensures r == [] <==> forall x :: x in s ==> !p(x)
    ensures IsSubseq(r, s)
  {
    if s == [] then []
    else if p(s[0]) then [s[0]] + Filter(s[1..], p)
    else Filter(s[1..], p)
  }

  lemma {:induction false} FilterAppend<T(!new)>(a: seq<T>, b: seq<T>, p: T -> bool)
    ensures Filter(a + b, p) == Filter(a, p) + Filter(b, p)
  {
    if a == [] {
      assert a + b == b;
    } else {
      assert (a + b)[0] == a[0] && (a + b)[1..] == a[1..] + b;
      FilterAppend(a[1..], b, p);
    }
  }

  /**
   * `s.slice(0, end)` with JavaScript's rules: a negative `end` counts from
   * the back, and an `end` past the length stops at the length.
   */
  function SliceTo<T>(s: seq<T>, end: int): (r: seq<T>)
    ensures 0 <= end ==> |r| == Min(end, |s|)
    ensures end < 0 ==> |r| == Max(0, |s| + end)
    ensures |r| <= |s| && r == s[..|r|]
  {
    if end >= 0 then s[..Min(end, |s|)] else s[..Max(0, |s| + end)]
  }

  /** A non-empty prefix is the shorter prefix plus its last element. */
  lemma TakeLast<T>(s: seq<T>, n: nat)
    requires 0 < n <= |s|
    ensures s[..n] == s[..n - 1] + [s[n - 1]]
  {
  }

  /** Slicing to a bound the sequence already fits in changes nothing. */
  lemma SliceToShort<T>(s: seq<T>, end: int)
    requires |s| <= Max(0, end)
    ensures SliceTo(s, end) == s
  {
  }

  /** `[...new Set(s)]`: a `Set` iterates in insertion order, so the first occurrence of each value stays. */
  function Dedup<T(==,!new)>(s: seq<T>): (r: seq<T>)
    ensures NoDups(r)
    ensures forall x :: x in r <==> x in s
    ensures |r| <= |s|
  {
    DedupAfter(s, {})
  }

  function DedupAfter<T(==,!new)>(s: seq<T>, seen: set<T>): (r: seq<T>)
    ensures NoDups(r)
    ensures forall x :: x in r <==> x in s && x !in seen
    ensures |r| <= |s|
  {
    if s == [] then []
    else if s[0] in seen then DedupAfter(s[1..], seen)
    else [s[0]] + DedupAfter(s[1..], seen + {s[0]})
  }

  /** De-duplicating a concatenation: the second part continues with everything the first part showed as seen. */
  lemma {:induction false} DedupAfterAppend<T(!new)>(a: seq<T>, b: seq<T>, seen: set<T>)
    ensures DedupAfter(a + b, seen) == DedupAfter(a, seen) + DedupAfter(b, seen + Elems(a))
  {
    if a == [] {
      assert a + b == b;
      assert seen + Elems(a) == seen;
    } else {
      assert (a + b)[0] == a[0] && (a + b)[1..] == a[1..] + b;
      assert Elems(a) == {a[0]} + Elems(a[1..]);
      if a[0] in seen {
        DedupAfterAppend(a[1..], b, seen);
        assert seen + Elems(a) == seen + Elems(a[1..]);
      } else {
        DedupAfterAppend(a[1..], b, seen + {a[0]});
        assert seen + Elems(a) == seen + {a[0]} + Elems(a[1..]);
      }
    }
  }

  /** Independent statement of keep-the-first: an element stays iff it does not occur earlier. */
  function FirstOccurrences<T(==)>(s: seq<T>): seq<T>
  {
    if s == [] then []
    else
      var prefix := s[..|s| - 1];
      var last := s[|s| - 1];
      FirstOccurrences(prefix) + (if last in prefix then [] else [last])
  }

  /** `Dedup` keeps exactly the first occurrence of each value, in input order. */
  lemma {:induction false} DedupKeepsFirst<T(!new)>(s: seq<T>)
    ensures Dedup(s) == FirstOccurrences(s)
  {
    if s != [] {
      var prefix := s[..|s| - 1];
      var last := s[|s| - 1];
      assert s == prefix + [last];
      DedupKeepsFirst(prefix);
      DedupAfterAppend(prefix, [last], {});
      assert {} + Elems(prefix) == Elems(prefix);
      assert [last][1..] == [];
    }
  }

  lemma {:induction false} DistinctCard<T>(s: seq<T>)
    requires NoDups(s)
    ensures |Elems(s)| == |s|
  {
    if s != [] {
      DistinctCard(s[1..]);
      assert Elems(s) == Elems(s[1..]) + {s[0]};
      assert s[0] !in Elems(s[1..]);
    }
  }

  lemma {:induction false} SubsetCard<T>(a: set<T>, b: set<T>)
    requires a <= b
    ensures |a| <= |b|
  {
    if a != {} {
      var x :| x in a;
      SubsetCard(a - {x}, b - {x});
    }
  }
}
