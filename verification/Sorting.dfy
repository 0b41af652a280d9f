/**
 The sorting application: quicksort on each segment of the shared array, then a merge of the
 segments.
 */
module Sorting {

  predicate Sorted(s: seq<int>) {
    forall i, j :: 0 <= i < j < |s| ==> s[i] <= s[j]
  }

  predicate Perm(s: seq<int>, t: seq<int>) {
    |s| == |t| && multiset(s) == multiset(t)
  }

  /** `t` differs from `s` at most between `low` and `high`. */
  predicate SameOutside(s: seq<int>, t: seq<int>, low: int, high: int) {
    |s| == |t| && forall k :: 0 <= k < |s| && !(low <= k < high) ==> s[k] == t[k]
  }

  // --- Quicksort.

  lemma PermInside(s: seq<int>, t: seq<int>, low: nat, high: nat)
    requires low <= high <= |s| && Perm(s, t) && SameOutside(s, t, low, high)
    ensures Perm(s[low..high], t[low..high])
  {
    ThreeParts(s, low, high);
    ThreeParts(t, low, high);
    assert s[..low] == t[..low] && s[high..] == t[high..];
    Cancel(multiset(s[..low]), multiset(s[low..high]), multiset(t[low..high]), multiset(s[high..]));
  }

  lemma Cancel(a: multiset<int>, x: multiset<int>, y: multiset<int>, b: multiset<int>)
    requires a + x + b == a + y + b
    ensures x == y
  {
    forall e ensures x[e] == y[e] { assert (a + x + b)[e] == (a + y + b)[e]; }
  }

  lemma ThreeParts(s: seq<int>, low: nat, high: nat)
    requires low <= high <= |s|
    ensures multiset(s) == multiset(s[..low]) + multiset(s[low..high]) + multiset(s[high..])
  {
    assert s == s[..low] + s[low..high] + s[high..];
  }

  lemma PermTrans(s: seq<int>, t: seq<int>, u: seq<int>)
    requires Perm(s, t) && Perm(t, u)
    ensures Perm(s, u)
  {}

  lemma BoundsInside(s: seq<int>, t: seq<int>, x: int)
    requires Perm(s, t)
    ensures (forall k :: 0 <= k < |s| ==> s[k] <= x) ==> forall k :: 0 <= k < |t| ==> t[k] <= x
    ensures (forall k :: 0 <= k < |s| ==> x <= s[k]) ==> forall k :: 0 <= k < |t| ==> x <= t[k]
  {
    forall k | 0 <= k < |t| ensures exists i :: 0 <= i < |s| && s[i] == t[k] {
      assert t[k] in multiset(t);
      assert t[k] in multiset(s);
    }
  }

  lemma SelfPerm(s: seq<int>)
    ensures Perm(s, s)
  {}

  method Swap(a: array<int>, i: nat, j: nat)
    requires i < a.Length && j < a.Length
    modifies a
    ensures a[i] == old(a[j]) && a[j] == old(a[i])
    ensures forall k :: 0 <= k < a.Length && k != i && k != j ==> a[k] == old(a[k])
    ensures Perm(old(a[..]), a[..])
  {
    var temp := a[i];
    a[i] := a[j];
    a[j] := temp;
    assert a[..] == old(a[..])[i := old(a[j])][j := old(a[i])];
  }

  method Partition(a: array<int>, low: nat, high: nat) returns (p: nat)
    requires low <= high < a.Length
    modifies a
    ensures low <= p <= high
    ensures forall k :: low <= k < p ==> a[k] <= a[p]
    ensures forall k :: p < k <= high ==> a[p] < a[k]
    ensures Perm(old(a[..]), a[..]) && SameOutside(old(a[..]), a[..], low, high + 1)
  {
    hide Perm;
    ghost var was := a[..];
    SelfPerm(was);
    var pivot := a[high];
    var i: int := low - 1;
    for j := low to high
      invariant low - 1 <= i < j && a[high] == pivot
      invariant forall k :: low <= k <= i ==> a[k] <= pivot
      invariant forall k :: i < k < j ==> pivot < a[k]
      invariant Perm(was, a[..]) && SameOutside(was, a[..], low, high + 1)
    {
      if a[j] <= pivot {
        i := i + 1;
        ghost var s := a[..];
        Swap(a, i, j);
        PermTrans(was, s, a[..]);
      }
    }
    ghost var s := a[..];
    Swap(a, i + 1, high);
    PermTrans(was, s, a[..]);
    p := i + 1;
  }

  method QuickSort(a: array<int>, low: int, high: int)
    requires 0 <= low <= high + 1 <= a.Length
    modifies a
    ensures Sorted(a[low..high + 1])
    ensures Perm(old(a[..]), a[..]) && SameOutside(old(a[..]), a[..], low, high + 1)
    decreases high + 1 - low
  {
    if low < high {
      var p: int := Partition(a, low, high);
      ghost var s := a[..];
      QuickSort(a, low, p - 1);
      ghost var t := a[..];
      QuickSort(a, p + 1, high);
      Combine(s, t, a[..], low, p, high + 1);
    }
  }

  /** Sorting both sides of the pivot sorts the whole. */
  lemma Combine(s: seq<int>, t: seq<int>, u: seq<int>, low: nat, p: nat, high: nat)
    requires low <= p < high <= |s|
    requires forall k :: low <= k < p ==> s[k] <= s[p]
    requires forall k :: p < k < high ==> s[p] < s[k]
    requires Perm(s, t) && SameOutside(s, t, low, p) && Sorted(t[low..p])
    requires Perm(t, u) && SameOutside(t, u, p + 1, high) && Sorted(u[p + 1..high])
    ensures Perm(s, u) && SameOutside(s, u, low, high) && Sorted(u[low..high])
  {
    PermInside(s, t, low, p);
    BoundsInside(s[low..p], t[low..p], s[p]);
    PermInside(t, u, p + 1, high);
    assert t[p + 1..high] == s[p + 1..high];
    BoundsInside(t[p + 1..high], u[p + 1..high], s[p]);
    assert u[low..p] == t[low..p] && u[p] == s[p];
    SortedJoin(u[low..p], u[p], u[p + 1..high], u[low..high]);
  }

  lemma SortedJoin(l: seq<int>, x: int, r: seq<int>, s: seq<int>)
    requires Sorted(l) && Sorted(r) && |s| == |l| + 1 + |r|
    requires forall k :: 0 <= k < |l| ==> s[k] == l[k] && l[k] <= x
    requires forall k :: 0 <= k < |r| ==> s[|l| + 1 + k] == r[k] && x <= r[k]
    requires s[|l|] == x
    ensures Sorted(s)
  {
    forall i, j | 0 <= i < j < |s| ensures s[i] <= s[j] {
      assert i > |l| ==> s[i] == r[i - |l| - 1];
      assert j > |l| ==> s[j] == r[j - |l| - 1];
    }
  }

  /** `sort` on the segment that starts at `offset`. */
  method SortSegment(a: array<int>, offset: nat, size: nat)
    requires offset + size <= a.Length
    modifies a
    ensures Sorted(a[offset..offset + size])
    ensures Perm(old(a[..]), a[..]) && SameOutside(old(a[..]), a[..], offset, offset + size)
  {
    if size == 0 {
      return;
    }
    QuickSort(a, offset, offset + size - 1);
  }

  method IsSorted(a: array<int>) returns (r: bool)
    ensures r == Sorted(a[..])
  {
    if a.Length == 0 {
      return true;
    }
    var i := 0;
    while i < a.Length - 1
      invariant 0 <= i <= a.Length - 1 && Sorted(a[..i + 1])
    {
      if a[i] > a[i + 1] {
        assert a[..][i] > a[..][i + 1];
        return false;
      }
      i := i + 1;
    }
    assert a[..i + 1] == a[..];
    return true;
  }
}
