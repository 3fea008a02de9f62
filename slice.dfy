/** The slice assertions of slice.go. Each scans its slices with an index
    loop and either returns or panics; here the panic is a `Verdict` that
    records what the panic message reports (the lengths, or the index). */
module Slice {

  /** The result of a slice assertion. */
  datatype Verdict =
    | Pass
    | LengthsDiffer(lenA: nat, lenB: nat)   // "slice lengths differ: %d != %d"
    | DiffersAt(index: nat)                 // "slices differ at index %d"
    | NotFound                              // "%v not found in %v"
    | NotSortedAt(index: nat)               // "slice not sorted at index i-1, i"

  /** Every element is at most every later one. */
  ghost predicate Sorted(s: seq<int>)
  {
    forall i, j :: 0 <= i <= j < |s| ==> s[i] <= s[j]
  }

  /** Every adjacent pair is in non-decreasing order. */
  ghost predicate AdjacentOrdered(s: seq<int>)
  {
    forall i :: 1 <= i < |s| ==> s[i - 1] <= s[i]
  }

  lemma {:induction false} AdjacentChain(s: seq<int>, i: int, j: int)
    requires AdjacentOrdered(s)
    requires 0 <= i <= j < |s|
    ensures s[i] <= s[j]
    decreases j - i
  {
    if i < j {
      AdjacentChain(s, i, j - 1);
    }
  }

  /** Checking adjacent pairs is enough to decide sortedness. */
  lemma {:induction false} AdjacentOrderedIffSorted(s: seq<int>)
    ensures AdjacentOrdered(s) <==> Sorted(s)
  {
    if AdjacentOrdered(s) {
      forall i, j | 0 <= i <= j < |s|
        ensures s[i] <= s[j]
      {
        AdjacentChain(s, i, j);
      }
    }
  }

  /** `SliceEq` (slice.go:8-18): the lengths are compared first; then the
      elements in index order, reporting the first index where they differ. */
  method SliceEq<T(==)>(a: seq<T>, b: seq<T>) returns (r: Verdict)
    ensures r.Pass? || r.LengthsDiffer? || r.DiffersAt?
    ensures r.Pass? <==> a == b
    ensures r.LengthsDiffer? <==> |a| != |b|
    ensures r.LengthsDiffer? ==> r.lenA == |a| && r.lenB == |b|
    ensures r.DiffersAt? ==> r.index < |a| == |b| && a[r.index] != b[r.index]
    ensures r.DiffersAt? ==> a[..r.index] == b[..r.index]
  {
    if |a| != |b| {
      return LengthsDiffer(|a|, |b|);
    }
    for i := 0 to |a|
      invariant a[..i] == b[..i]
    {
      if a[i] != b[i] {
        return DiffersAt(i);
      }
    }
    assert a == a[..|a|] && b == b[..|b|];
    return Pass;
  }

  /** `SliceContains` (slice.go:20-28): passes as soon as an element equals
      `v`, and panics after scanning the whole slice otherwise. */
  method SliceContains<T(==)>(s: seq<T>, v: T) returns (r: Verdict)
    ensures r.Pass? || r.NotFound?
    ensures r.Pass? <==> v in s
  {
    for i := 0 to |s|
      invariant v !in s[..i]
    {
      if s[i] == v {
        return Pass;
      }
    }
    assert s == s[..|s|];
    return NotFound;
  }

  /** `SliceSorted` (slice.go:30-37): compares each element with the one
      before it and panics at the first descent. */
  method SliceSorted(s: seq<int>) returns (r: Verdict)
    ensures r.Pass? || r.NotSortedAt?
    ensures r.Pass? <==> Sorted(s)
    ensures r.NotSortedAt? ==> 1 <= r.index < |s| && s[r.index] < s[r.index - 1]
    ensures r.NotSortedAt? ==> Sorted(s[..r.index])
  {
    var i := 1;
    while i < |s|
      invariant 1 <= i <= |s| || |s| == 0
      invariant forall k :: 1 <= k < i && k < |s| ==> s[k - 1] <= s[k]
    {
      if s[i] < s[i - 1] {
        AdjacentOrderedIffSorted(s);
        AdjacentOrderedIffSorted(s[..i]);
        return NotSortedAt(i);
      }
      i := i + 1;
    }
    AdjacentOrderedIffSorted(s);
    return Pass;
  }

  /** The cases of TestSliceEq (slice_test.go:14-21). */
  method SliceEqTable() returns (rs: seq<Verdict>)
    ensures |rs| == 6
    ensures rs[0].Pass? && rs[1].Pass?
    ensures rs[2] == LengthsDiffer(2, 3)
    ensures rs[3] == DiffersAt(1)
    ensures rs[4].Pass? && rs[5] == DiffersAt(0)
  {
    var r0 := SliceEq([1, 2, 3], [1, 2, 3]);
    var r1 := SliceEq<int>([], []);
    var r2 := SliceEq([1, 2], [1, 2, 3]);
    var r3 := SliceEq([1, 2, 3], [1, 4, 3]);
    var r4 := SliceEq([5], [5]);
    var r5 := SliceEq([5], [6]);
    assert [1, 2, 3][..1] == [1, 4, 3][..1];
    rs := [r0, r1, r2, r3, r4, r5];
  }

  /** The cases of TestSliceContains (slice_test.go:54-59). */
  method SliceContainsTable() returns (rs: seq<Verdict>)
    ensures rs == [Pass, NotFound, NotFound, Pass, Pass]
  {
    var r0 := SliceContains([1, 2, 3], 2);
    var r1 := SliceContains([1, 2, 3], 4);
    var r2 := SliceContains([], 1);
    var r3 := SliceContains([10, 20, 30], 10);
    var r4 := SliceContains([10, 20, 30], 30);
    rs := [r0, r1, r2, r3, r4];
  }

  /** The cases of TestSliceSorted (slice_test.go:91-99). */
  method SliceSortedTable() returns (rs: seq<Verdict>)
    ensures rs == [Pass, Pass, Pass, NotSortedAt(1), NotSortedAt(3), Pass, Pass, NotSortedAt(1)]
  {
    var r0 := SliceSorted([1, 2, 3, 4, 5]);
    var r1 := SliceSorted([]);
    var r2 := SliceSorted([42]);
    var r3 := SliceSorted([5, 4, 3, 2, 1]);
    var r4 := SliceSorted([1, 2, 5, 3, 4]);
    var r5 := SliceSorted([7, 7, 7, 7]);
    var r6 := SliceSorted([1, 2]);
    var r7 := SliceSorted([2, 1]);
    var down, mid := [5, 4, 3, 2, 1], [1, 2, 5, 3, 4];
    assert down[0] > down[1] && mid[2] > mid[3] && [2, 1][0] > [2, 1][1];
    rs := [r0, r1, r2, r3, r4, r5, r6, r7];
  }
}
