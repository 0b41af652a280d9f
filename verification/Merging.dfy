/**
 The merge of equally long segments, one output at a time.
 */
module Merging {
  import opened Sorting

  /** `k` is the position of the `i`-th element of segment `s`. */
  function Pos(s: nat, size: nat, i: nat): nat {
    s * size + i
  }

  lemma PosInside(s: nat, n: nat, size: nat)
    requires s < n
    ensures Pos(s, size, size) <= n * size
  {
    assert (n - 1 - s) * size >= 0;
  }

  lemma PosBelow(s: nat, n: nat, size: nat, i: nat)
    requires s < n && i < size
    ensures s * size + i == Pos(s, size, i) < n * size
  {
    PosInside(s, n, size);
  }

  ghost predicate SegmentsSorted(a: seq<int>, n: nat, size: nat) {
    forall s :: 0 <= s < n ==> SegmentSorted(a, s, size)
  }

  ghost predicate SegmentSorted(a: seq<int>, s: nat, size: nat) {
    Pos(s, size, size) <= |a| && Sorted(a[Pos(s, size, 0)..Pos(s, size, size)])
  }

  /** The first `idx[s]` elements of each of the first `k` segments. */
  ghost function Taken(a: seq<int>, size: nat, idx: seq<nat>, k: nat): multiset<int>
    requires k <= |idx|
  {
    if k == 0 then multiset{}
    else Taken(a, size, idx, k - 1) + multiset(Front(a, k - 1, size, idx[k - 1]))
  }

  ghost function Front(a: seq<int>, s: nat, size: nat, i: nat): seq<int> {
    if Pos(s, size, i) <= |a| then a[Pos(s, size, 0)..Pos(s, size, i)] else []
  }

  ghost function Sum(idx: seq<nat>, k: nat): nat
    requires k <= |idx|
  {
    if k == 0 then 0 else Sum(idx, k - 1) + idx[k - 1]
  }

  lemma FrontGrows(a: seq<int>, s: nat, size: nat, i: nat)
    requires Pos(s, size, i) < |a|
    ensures multiset(Front(a, s, size, i + 1)) == multiset(Front(a, s, size, i)) + multiset{a[Pos(s, size, i)]}
  {
    assert Front(a, s, size, i + 1) == Front(a, s, size, i) + [a[Pos(s, size, i)]];
  }

  lemma {:induction false} TakeOne(a: seq<int>, size: nat, idx: seq<nat>, k: nat, m: nat)
    requires m < |idx| && k <= |idx| && Pos(m, size, idx[m]) < |a|
    ensures var idx' := idx[m := idx[m] + 1];
      && Sum(idx', k) == Sum(idx, k) + (if m < k then 1 else 0)
      && Taken(a, size, idx', k) == Taken(a, size, idx, k) + if m < k then multiset{a[Pos(m, size, idx[m])]} else multiset{}
    decreases k
  {
    hide Pos, Front;
    if k > 0 {
      TakeOne(a, size, idx, k - 1, m);
      if m == k - 1 {
        FrontGrows(a, m, size, idx[m]);
      }
    }
  }

  lemma {:induction false} NothingTaken(a: seq<int>, size: nat, idx: seq<nat>, k: nat)
    requires k <= |idx| && k * size <= |a| && forall s :: 0 <= s < k ==> idx[s] == 0
    ensures Sum(idx, k) == 0 && Taken(a, size, idx, k) == multiset{}
    decreases k
  {
    if k > 0 {
      NothingTaken(a, size, idx, k - 1);
    }
  }

  lemma LastSegment(a: seq<int>, size: nat, k: nat)
    requires 0 < k && k * size <= |a|
    ensures (k - 1) * size + size == k * size <= |a|
    ensures multiset(a[..k * size]) == multiset(a[..(k - 1) * size]) + multiset(Front(a, k - 1, size, size))
  {
    assert (k - 1) * size + size == k * size;
    assert a[..k * size] == a[..(k - 1) * size] + Front(a, k - 1, size, size);
  }

  /** When as many elements are taken as there are, all are. */
  lemma {:induction false} AllTaken(a: seq<int>, size: nat, idx: seq<nat>, k: nat)
    requires k <= |idx| && k * size <= |a| && forall s :: 0 <= s < k ==> idx[s] <= size
    ensures Sum(idx, k) <= k * size
    ensures Sum(idx, k) == k * size ==> Taken(a, size, idx, k) == multiset(a[..k * size])
    ensures Sum(idx, k) == k * size <==> forall s :: 0 <= s < k ==> idx[s] == size
    decreases k
  {
    hide Pos, Front;
    if k > 0 {
      LastSegment(a, size, k);
      AllTaken(a, size, idx, k - 1);
    }
  }

  /** The smallest element that is not taken is the head of a segment. */
  ghost predicate HeadsBound(a: seq<int>, size: nat, idx: seq<nat>, low: int) {
    forall s :: 0 <= s < |idx| && idx[s] < size && Pos(s, size, idx[s]) < |a| ==> low <= a[Pos(s, size, idx[s])]
  }

  lemma TakeKeepsBound(a: seq<int>, n: nat, size: nat, idx: seq<nat>, m: nat)
    requires n * size <= |a| && |idx| == n && SegmentsSorted(a, n, size)
    requires m < n && idx[m] < size && Pos(m, size, idx[m]) < |a| && HeadsBound(a, size, idx, a[Pos(m, size, idx[m])])
    ensures HeadsBound(a, size, idx[m := idx[m] + 1], a[Pos(m, size, idx[m])])
  {
    var i := idx[m];
    if i + 1 < size {
      assert SegmentSorted(a, m, size);
      var seg := a[Pos(m, size, 0)..Pos(m, size, size)];
      assert seg[i] == a[Pos(m, size, i)] && seg[i + 1] == a[Pos(m, size, i + 1)];
    }
  }

  // --- The merge.

  /** The inner loop: the segment whose next element is the smallest, if any element is left;
      -1 stands for the initial `min_seg`. */
  method FindMin(a: array<int>, n: nat, size: nat, idx: array<nat>) returns (seg: int, val: int)
    requires n * size <= a.Length && idx.Length == n && forall s :: 0 <= s < n ==> idx[s] <= size
    ensures seg == -1 <==> forall s :: 0 <= s < n ==> idx[s] == size
    ensures seg == -1 ==> val == 0
    ensures seg != -1 ==> 0 <= seg < n && idx[seg] < size && Pos(seg, size, idx[seg]) < a.Length
    ensures seg != -1 ==> val == a[Pos(seg, size, idx[seg])] && HeadsBound(a[..], size, idx[..], val)
  {
    hide Pos;
    seg, val := -1, 0;
    for s := 0 to n
      invariant -1 <= seg < s && (seg == -1 ==> val == 0)
      invariant seg == -1 <==> forall t :: 0 <= t < s ==> idx[t] == size
      invariant seg != -1 ==> idx[seg] < size && Pos(seg, size, idx[seg]) < a.Length && val == a[Pos(seg, size, idx[seg])]
      invariant seg != -1 ==> forall t :: 0 <= t < s && idx[t] < size && Pos(t, size, idx[t]) < a.Length ==> val <= a[Pos(t, size, idx[t])]
    {
      if idx[s] < size {
        PosBelow(s, n, size, idx[s]);
        var v := a[s * size + idx[s]];
        if seg == -1 || v < val {
          val, seg := v, s;
        }
      }
    }
  }

  /** How many elements are in whole segments. */
  function Whole(length: nat, size: nat): (w: nat)
    requires size > 0
    ensures w <= length && length - w == length % size
  {
    (length / size) * size
  }

  /** The positions from `low` on. */
  function Upward(low: nat, high: nat): (r: seq<nat>)
    requires low <= high
    ensures |r| == high - low && forall k :: 0 <= k < |r| ==> r[k] == low + k
  {
    seq(high - low, k requires 0 <= k < high - low => low + k)
  }

  function Zeros(n: nat): (r: seq<int>)
    ensures |r| == n && forall k :: 0 <= k < n ==> r[k] == 0
  {
    seq(n, _ => 0)
  }

  /** Merges the segments into one array. A length that is no multiple of the segment size is
      only logged: the loop goes on, and `missed` are the outputs at which it finds no element
      left, logs that, and writes 0. They are those after the last whole segment. */
  method MergeSegments(a: array<int>, size: nat) returns (warned: bool, missed: seq<nat>)
    requires size > 0
    modifies a
    ensures warned == (a.Length % size != 0)
    ensures missed == Upward(Whole(a.Length, size), a.Length)
    ensures Perm(old(a[..Whole(a.Length, size)]), a[..Whole(a.Length, size)])
    ensures forall k :: Whole(a.Length, size) <= k < a.Length ==> a[k] == 0
    ensures SegmentsSorted(old(a[..]), a.Length / size, size) ==> Sorted(a[..Whole(a.Length, size)])
  {
    hide Perm, Sorted, SegmentsSorted;
    warned := a.Length % size != 0;
    var n := a.Length / size;
    assert n * size == Whole(a.Length, size);
    var tmp;
    tmp, missed := Merged(a, n, size);
    for i := 0 to a.Length
      invariant a[..i] == tmp[..i]
    {
      a[i] := tmp[i];
    }
    assert a[..] == tmp;
    assert a[..n * size] == tmp[..n * size];
  }

  /** No output is missed exactly when the length is a multiple of the segment size. */
  lemma MissedIff(length: nat, size: nat)
    requires size > 0
    ensures Upward(Whole(length, size), length) == [] <==> length % size == 0
    ensures forall out :: out in Upward(Whole(length, size), length) <==> Whole(length, size) <= out < length
  {
    var r := Upward(Whole(length, size), length);
    forall out | Whole(length, size) <= out < length ensures out in r { assert r[out - Whole(length, size)] == out; }
  }

  /** The elements after the last whole segment are lost: the result has the elements of the
      input if and only if those were all 0. */
  lemma KeepsElementsIff(s: seq<int>, t: seq<int>, w: nat)
    requires |s| == |t| && w <= |s| && Perm(s[..w], t[..w]) && forall k :: w <= k < |t| ==> t[k] == 0
    ensures Perm(s, t) <==> forall k :: w <= k < |s| ==> s[k] == 0
  {
    var x, y := s[w..], t[w..];
    assert s == s[..w] + x && t == t[..w] + y;
    if Perm(s, t) {
      Cancel(multiset(s[..w]), multiset(x), multiset(y), multiset{});
      BoundsInside(y, x, 0);
      forall k | w <= k < |s| ensures s[k] == 0 { assert s[k] == x[k - w]; }
    } else {
      assert x != y;
    }
  }

  /** Such an input: of five elements in segments of two, the last is replaced by 0. */
  method MissedElement(a: array<int>) returns (missed: seq<nat>)
    requires a[..] == [3, 4, 1, 2, 5]
    modifies a
    ensures missed == [4] && a[4] == 0 && !Perm(old(a[..]), a[..])
  {
    hide Perm, SegmentsSorted;
    ghost var was := a[..];
    assert Whole(5, 2) == 4 && was[4] == 5;
    var warned;
    warned, missed := MergeSegments(a, 2);
    KeepsElementsIff(was, a[..], 4);
  }

  /** What the merge has put out: as many elements as were taken, the same ones, and, if the
      segments are sorted, in order and before all that remain. */
  ghost predicate Progress(a: seq<int>, n: nat, size: nat, idx: seq<nat>, front: seq<int>) {
    && |idx| == n && n * size <= |a| && (forall s :: 0 <= s < n ==> idx[s] <= size)
    && |front| == Sum(idx, n) && multiset(front) == Taken(a, size, idx, n)
    && (SegmentsSorted(a, n, size) ==> Sorted(front) && forall k :: 0 <= k < |front| ==> HeadsBound(a, size, idx, front[k]))
  }

  lemma ProgressStarts(a: seq<int>, n: nat, size: nat, idx: seq<nat>)
    requires |idx| == n && n * size <= |a| && forall s :: 0 <= s < n ==> idx[s] == 0
    ensures Progress(a, n, size, idx, [])
  {
    NothingTaken(a, size, idx, n);
  }

  lemma ProgressFacts(a: seq<int>, n: nat, size: nat, idx: seq<nat>, front: seq<int>)
    requires Progress(a, n, size, idx, front)
    ensures forall s :: 0 <= s < n ==> idx[s] <= size
    ensures |front| <= n * size
    ensures |front| == n * size <==> forall s :: 0 <= s < n ==> idx[s] == size
  {
    AllTaken(a, size, idx, n);
  }

  lemma ProgressTakes(a: seq<int>, n: nat, size: nat, idx: seq<nat>, front: seq<int>, m: nat)
    requires Progress(a, n, size, idx, front)
    requires m < n && idx[m] < size && Pos(m, size, idx[m]) < |a| && HeadsBound(a, size, idx, a[Pos(m, size, idx[m])])
    ensures Progress(a, n, size, idx[m := idx[m] + 1], front + [a[Pos(m, size, idx[m])]])
  {
    hide Pos, Taken, Sum, HeadsBound, SegmentsSorted, Sorted;
    TakeOne(a, size, idx, n, m);
    if SegmentsSorted(a, n, size) {
      NextIsLargest(a, n, size, idx, m, front);
    }
  }

  lemma ProgressEnds(a: seq<int>, n: nat, size: nat, idx: seq<nat>, front: seq<int>)
    requires Progress(a, n, size, idx, front) && |front| == n * size
    ensures Perm(a[..n * size], front) && (SegmentsSorted(a, n, size) ==> Sorted(front))
  {
    AllTaken(a, size, idx, n);
  }

  method Merged(a: array<int>, n: nat, size: nat) returns (tmp: seq<int>, missed: seq<nat>)
    requires n * size <= a.Length
    ensures |tmp| == a.Length && missed == Upward(n * size, a.Length)
    ensures Perm(a[..n * size], tmp[..n * size])
    ensures forall k :: n * size <= k < |tmp| ==> tmp[k] == 0
    ensures SegmentsSorted(a[..], n, size) ==> Sorted(tmp[..n * size])
  {
    hide Pos, Progress, HeadsBound, SegmentsSorted, Sorted, Perm;
    var idx := new nat[n](_ => 0);
    tmp, missed := [], [];
    ghost var s, w, front: seq<int> := a[..], n * size, [];
    ProgressStarts(s, n, size, idx[..]);
    for out := 0 to a.Length
      invariant Progress(s, n, size, idx[..], front)
      invariant |front| == if out < w then out else w
      invariant |tmp| == out && tmp[..|front|] == front && forall k :: w <= k < out ==> tmp[k] == 0
      invariant missed == if out < w then [] else Upward(w, out)
    {
      ProgressFacts(s, n, size, idx[..], front);
      var seg, val := FindMin(a, n, size, idx);
      if seg == -1 {
        missed := missed + [out];
      } else {
        ProgressTakes(s, n, size, idx[..], front, seg);
        ghost var before := idx[..];
        idx[seg] := idx[seg] + 1;
        assert idx[..] == before[seg := before[seg] + 1];
        front := front + [val];
      }
      tmp := tmp + [val];
    }
    ProgressEnds(s, n, size, idx[..], front);
  }

  lemma NextIsLargest(a: seq<int>, n: nat, size: nat, idx: seq<nat>, m: nat, tmp: seq<int>)
    requires n * size <= |a| && |idx| == n && SegmentsSorted(a, n, size) && Sorted(tmp)
    requires m < n && idx[m] < size && Pos(m, size, idx[m]) < |a| && HeadsBound(a, size, idx, a[Pos(m, size, idx[m])])
    requires forall k :: 0 <= k < |tmp| ==> HeadsBound(a, size, idx, tmp[k])
    ensures var tmp' := tmp + [a[Pos(m, size, idx[m])]];
      Sorted(tmp') && forall k :: 0 <= k < |tmp'| ==> HeadsBound(a, size, idx[m := idx[m] + 1], tmp'[k])
  {
    var val, idx' := a[Pos(m, size, idx[m])], idx[m := idx[m] + 1];
    forall k | 0 <= k < |tmp| ensures tmp[k] <= val { assert HeadsBound(a, size, idx, tmp[k]); }
    TakeKeepsBound(a, n, size, idx, m);
    forall k | 0 <= k < |tmp| ensures HeadsBound(a, size, idx', tmp[k]) { BoundWeakens(a, size, idx', val, tmp[k]); }
  }

  lemma BoundWeakens(a: seq<int>, size: nat, idx: seq<nat>, low: int, lower: int)
    requires HeadsBound(a, size, idx, low) && lower <= low
    ensures HeadsBound(a, size, idx, lower)
  {}

  /** Sorting every segment and merging them sorts the array, for every segment size that
      divides its length. */
  method SortBySegments(a: array<int>, size: nat)
    requires size > 0 && a.Length % size == 0
    modifies a
    ensures Sorted(a[..]) && Perm(old(a[..]), a[..])
  {
    var n := a.Length / size;
    ghost var was := a[..];
    for k := 0 to n
      invariant Perm(was, a[..])
      invariant forall s :: 0 <= s < k ==> SegmentSorted(a[..], s, size)
    {
      PosInside(k, n, size);
      ghost var before := a[..];
      SortSegment(a, k * size, size);
      PermTrans(was, before, a[..]);
      forall s | 0 <= s < k ensures SegmentSorted(a[..], s, size) { OtherSegment(before, a[..], s, k, size); }
    }
    ghost var before := a[..];
    var warned, missed := MergeSegments(a, size);
    assert before[..a.Length] == before && a[..a.Length] == a[..];
    PermTrans(was, before, a[..]);
  }

  lemma OtherSegment(s: seq<int>, t: seq<int>, i: nat, k: nat, size: nat)
    requires i < k && SegmentSorted(s, i, size) && SameOutside(s, t, k * size, k * size + size)
    ensures SegmentSorted(t, i, size)
  {
    PosInside(i, k, size);
    assert s[Pos(i, size, 0)..Pos(i, size, size)] == t[Pos(i, size, 0)..Pos(i, size, size)];
  }
}
