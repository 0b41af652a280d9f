/**
 The circular list whose entries hold the links. A list is the ring of its head and its
 entries, in order; every operation rewrites a few links in place.
 */
module Links {

  /** Null stands for the poison values. */
  class Link {
    var next: Link?
    var prev: Link?
  }

  ghost predicate Linked(a: Link, b: Link)
    reads a, b
  {
    a.next == b && b.prev == a
  }

  predicate Distinct(r: seq<Link>) {
    forall i, j :: 0 <= i < j < |r| ==> r[i] != r[j]
  }

  predicate Disjoint(r: seq<Link>, q: seq<Link>) {
    (forall e :: e in r ==> e !in q) && (forall e :: e in q ==> e !in r)
  }

  /** Each element is linked to the next one, and the last one to the first. */
  ghost predicate Ring(r: seq<Link>)
    reads r
  {
    && r != [] && Distinct(r)
    && (forall i :: 0 <= i < |r| - 1 ==> Linked(r[i], r[i + 1]))
    && Linked(r[|r| - 1], r[0])
  }

  /** The element after position `k`. */
  function Succ(r: seq<Link>, k: nat): Link
    requires k < |r|
  {
    if k + 1 < |r| then r[k + 1] else r[0]
  }

  function Inserted(r: seq<Link>, k: nat, x: Link): seq<Link>
    requires k < |r|
  {
    r[..k + 1] + [x] + r[k + 1..]
  }

  function Deleted(r: seq<Link>, k: nat): seq<Link>
    requires k < |r|
  {
    r[..k] + r[k + 1..]
  }

  method Init(l: Link)
    modifies l
    ensures Ring([l])
  {
    l.next := l;
    l.prev := l;
  }

  lemma Fields(r: seq<Link>)
    requires Ring(r)
    ensures forall i :: 0 <= i < |r| ==> r[i].next == if i + 1 < |r| then r[i + 1] else r[0]
    ensures forall i :: 0 <= i < |r| ==> r[i].prev == if i > 0 then r[i - 1] else r[|r| - 1]
  {
    forall i | 0 <= i < |r| ensures r[i].prev == if i > 0 then r[i - 1] else r[|r| - 1] {
      assert i > 0 ==> Linked(r[i - 1], r[i]);
    }
  }

  /** `__list_add`, between position `k` and the next. */
  method AddBetween(x: Link, prev: Link, next: Link, ghost r: seq<Link>, ghost k: nat)
    requires Ring(r) && k < |r| && prev == r[k] && next == Succ(r, k) && x !in r
    modifies x, prev, next
    ensures Ring(Inserted(r, k, x))
  {
    next.prev := x;
    x.next := next;
    x.prev := prev;
    prev.next := x;
  }

  method Add(x: Link, head: Link, ghost r: seq<Link>)
    requires Ring(r) && r[0] == head && x !in r
    modifies r, x
    ensures Ring([head, x] + r[1..])
  {
    assert Inserted(r, 0, x) == [head, x] + r[1..];
    assert Linked(head, Succ(r, 0));
    AddBetween(x, head, head.next, r, 0);
  }

  method AddTail(x: Link, head: Link, ghost r: seq<Link>)
    requires Ring(r) && r[0] == head && x !in r
    modifies r, x
    ensures Ring(r + [x])
  {
    assert Inserted(r, |r| - 1, x) == r + [x];
    AddBetween(x, head.prev, head, r, |r| - 1);
  }

  /** `__list_del_entry`. */
  method Unlink(x: Link, ghost r: seq<Link>, ghost k: nat)
    requires Ring(r) && 0 < k < |r| && r[k] == x
    modifies r
    ensures Ring(Deleted(r, k)) && unchanged(x)
  {
    var prev, next := x.prev, x.next;
    assert prev == r[k - 1] && next == Succ(r, k);
    next.prev := prev;
    prev.next := next;
  }

  /** `list_del`. */
  method Delete(x: Link, ghost r: seq<Link>, ghost k: nat)
    requires Ring(r) && 0 < k < |r| && r[k] == x
    modifies r
    ensures Ring(Deleted(r, k)) && x.next == null && x.prev == null
  {
    Unlink(x, r, k);
    x.next := null;
    x.prev := null;
  }

  /** `list_move_tail` within one list. */
  method MoveTail(x: Link, head: Link, ghost r: seq<Link>, ghost k: nat)
    requires Ring(r) && 0 < k < |r| && r[k] == x && r[0] == head
    modifies r
    ensures Ring(Deleted(r, k) + [x])
  {
    Unlink(x, r, k);
    assert forall e :: e in Deleted(r, k) ==> e in r;
    AddTail(x, head, Deleted(r, k));
  }

  /** `list_move_tail` from one list to another. */
  method MoveTailTo(x: Link, head: Link, ghost r: seq<Link>, ghost k: nat, ghost q: seq<Link>)
    requires Ring(r) && 0 < k < |r| && r[k] == x
    requires Ring(q) && q[0] == head && Disjoint(r, q)
    modifies r, q
    ensures Ring(Deleted(r, k)) && Ring(q + [x])
  {
    DeletedElements(r, k, q);
    label start:
    Unlink(x, r, k);
    RingKept@start(q);
    label unlinked:
    AddTail(x, head, q);
    RingKept@unlinked(Deleted(r, k));
  }

  /** A ring none of whose elements changed is still a ring. */
  twostate lemma RingKept(r: seq<Link>)
    requires old(Ring(r)) && forall e :: e in r ==> unchanged(e)
    ensures Ring(r)
  {
    assert forall i :: 0 <= i < |r| ==> r[i] in r;
  }

  lemma DeletedElements(r: seq<Link>, k: nat, q: seq<Link>)
    requires k < |r| && Distinct(r) && Disjoint(r, q)
    ensures Disjoint(Deleted(r, k), q) && r[k] !in Deleted(r, k) && r[k] !in q
  {}

  /** `list_empty` and `list_is_singular`. */
  method IsEmpty(head: Link, ghost r: seq<Link>) returns (b: bool)
    requires Ring(r) && r[0] == head
    ensures b == (|r| == 1)
  {
    assert Linked(head, Succ(r, 0));
    b := head.next == head;
  }

  method IsSingular(head: Link, ghost r: seq<Link>) returns (b: bool)
    requires Ring(r) && r[0] == head
    ensures b == (|r| == 2)
  {
    assert Linked(head, Succ(r, 0)) && Linked(r[|r| - 1], head);
    var e := IsEmpty(head, r);
    b := !e && head.next == head.prev;
  }

  method RotateLeft(head: Link, ghost r: seq<Link>)
    requires Ring(r) && r[0] == head
    modifies r
    ensures Ring(if |r| == 1 then r else [head] + r[2..] + [r[1]])
  {
    var empty := IsEmpty(head, r);
    if !empty {
      assert Linked(head, Succ(r, 0));
      assert Deleted(r, 1) + [r[1]] == [head] + r[2..] + [r[1]];
      MoveTail(head.next, head, r, 1);
    }
  }

  /** `list_cut_position`. The entries up to position `k` go to `list`; an empty list is left
      alone, and so is `list` then. */
  method CutPosition(list: Link, head: Link, entry: Link, ghost r: seq<Link>, ghost k: nat)
    requires Ring(r) && k < |r| && r[0] == head && r[k] == entry && list !in r
    modifies r, list
    ensures |r| == 1 ==> Ring(r) && unchanged(list)
    ensures |r| > 1 ==> Ring([list] + r[1..k + 1]) && Ring([head] + r[k + 1..])
  {
    var empty := IsEmpty(head, r);
    if empty {
      return;
    }
    var singular := IsSingular(head, r);
    if singular && head.next != entry && head != entry {
      return;
    }
    if entry == head {
      Init(list);
      assert [list] + r[1..k + 1] == [list] && [head] + r[k + 1..] == r;
    } else {
      CutAt(list, head, entry, r, k);
    }
  }

  /** `__list_cut_position`. */
  method CutAt(list: Link, head: Link, entry: Link, ghost r: seq<Link>, ghost k: nat)
    requires Ring(r) && 0 < k < |r| && r[0] == head && r[k] == entry && list !in r
    modifies r, list
    ensures Ring([list] + r[1..k + 1]) && Ring([head] + r[k + 1..])
  {
    assert Linked(entry, Succ(r, k)) && Linked(head, r[1]);
    ghost var cut, rest := [list] + r[1..k + 1], [head] + r[k + 1..];
    DistinctParts(r, k, list);
    Fields(r);
    var newFirst := entry.next;
    list.next := head.next;
    list.next.prev := list;
    list.prev := entry;
    entry.next := list;
    assert list.next == r[1] && list.next.prev == list;
    head.next := newFirst;
    newFirst.prev := head;
    forall i | 0 <= i < k ensures Linked(cut[i], cut[i + 1]) {
      assert cut[i + 1] == r[i + 1] && (i > 0 ==> cut[i] == r[i]);
    }
    forall i | 0 <= i < |rest| - 1 ensures Linked(rest[i], rest[i + 1]) {
      if i > 0 { assert rest[i] == r[k + i] && rest[i + 1] == r[k + i + 1]; }
    }
    assert rest[|rest| - 1] == if k == |r| - 1 then head else r[|r| - 1];
  }

  lemma DistinctParts(r: seq<Link>, k: nat, list: Link)
    requires k < |r| && list !in r && Distinct(r)
    ensures Distinct([list] + r[1..k + 1]) && Distinct([r[0]] + r[k + 1..])
  {}

  /** `__list_splice`, after position `k`. */
  method SpliceAt(list: Link, prev: Link, next: Link, ghost l: seq<Link>, ghost r: seq<Link>, ghost k: nat)
    requires Ring(l) && l[0] == list && |l| > 1
    requires Ring(r) && k < |r| && prev == r[k] && next == Succ(r, k) && Disjoint(l, r)
    modifies l, r
    ensures Ring(r[..k + 1] + l[1..] + r[k + 1..]) && unchanged(list)
  {
    assert Linked(list, l[1]) && Linked(l[|l| - 1], list);
    ghost var s := r[..k + 1] + l[1..] + r[k + 1..];
    DistinctSplice(l, r, k, s);
    Fields(l);
    Fields(r);
    NoneShared(l, r);
    var first, last := list.next, list.prev;
    first.prev := prev;
    prev.next := first;
    last.next := next;
    next.prev := last;
    forall i | 0 <= i < |s| - 1 ensures Linked(s[i], s[i + 1]) {
      if i < k {
        assert s[i] == r[i] && s[i + 1] == r[i + 1];
      } else if i < k + |l| - 1 {
        assert s[i + 1] == l[i - k + 1] && (i > k ==> s[i] == l[i - k]);
      } else if i > k + |l| - 1 {
        assert s[i] == r[i - |l| + 1] && s[i + 1] == r[i - |l| + 2];
      }
    }
    assert s[|s| - 1] == if k == |r| - 1 then last else r[|r| - 1];
    assert Linked(s[|s| - 1], s[0]);
  }

  lemma NoneShared(l: seq<Link>, r: seq<Link>)
    requires Disjoint(l, r)
    ensures forall i, j :: 0 <= i < |l| && 0 <= j < |r| ==> l[i] != r[j]
  {
    forall i, j | 0 <= i < |l| && 0 <= j < |r| ensures l[i] != r[j] {
      assert l[i] in l && r[j] in r;
    }
  }

  lemma DistinctSplice(l: seq<Link>, r: seq<Link>, k: nat, s: seq<Link>)
    requires Distinct(l) && Distinct(r) && Disjoint(l, r) && k < |r| && l != [] && s == r[..k + 1] + l[1..] + r[k + 1..]
    ensures Distinct(s)
  {
    forall i, j | 0 <= i < j < |s| ensures s[i] != s[j] {
      assert s[i] in if k < i < k + |l| then l else r;
      assert s[j] in if k < j < k + |l| then l else r;
    }
  }

  method Splice(list: Link, head: Link, ghost l: seq<Link>, ghost r: seq<Link>)
    requires Ring(l) && l[0] == list && Ring(r) && r[0] == head && Disjoint(l, r)
    modifies l, r
    ensures Ring([head] + l[1..] + r[1..])
  {
    var empty := IsEmpty(list, l);
    if empty {
      assert [head] + l[1..] + r[1..] == r;
    } else {
      assert Linked(head, Succ(r, 0));
      assert r[..1] == [head];
      SpliceAt(list, head, head.next, l, r, 0);
    }
  }

  method SpliceTail(list: Link, head: Link, ghost l: seq<Link>, ghost r: seq<Link>)
    requires Ring(l) && l[0] == list && Ring(r) && r[0] == head && Disjoint(l, r)
    modifies l, r
    ensures Ring(r + l[1..])
  {
    var empty := IsEmpty(list, l);
    if empty {
      assert r + l[1..] == r;
    } else {
      assert Linked(r[|r| - 1], head);
      SpliceAt(list, head.prev, head, l, r, |r| - 1);
      assert r[..|r| - 1 + 1] + l[1..] + r[|r| - 1 + 1..] == r + l[1..];
    }
  }

  /** Cutting a list anywhere and splicing the part back at the head restores the list, unless
      it is empty and `list` is not: then the entries `l` of `list` end up in it. Only an empty
      list leaves `list` as it was, so only then must it be a list before. */
  method CutAndSplice(list: Link, head: Link, entry: Link, ghost r: seq<Link>, ghost k: nat, ghost l: seq<Link>)
    requires Ring(r) && k < |r| && r[0] == head && r[k] == entry && list !in r
    requires |r| == 1 ==> Ring(l) && l[0] == list && Disjoint(l, r)
    modifies r, list, if |r| == 1 then l else []
    ensures |r| > 1 || |l| == 1 ==> Ring(r)
    ensures |r| == 1 && |l| > 1 ==> Ring(r + l[1..])
  {
    ghost var cut, rest := [list] + r[1..k + 1], [head] + r[k + 1..];
    CutParts(r, k, list);
    label start:
    CutPosition(list, head, entry, r, k);
    if |r| == 1 {
      assert [head] + l[1..] + r[1..] == r + l[1..];
      assert |l| == 1 ==> r + l[1..] == r;
      assert forall e :: e in l ==> e == list || (e !in r && e != list);
      assert forall e :: e in l ==> unchanged@start(e);
      RingKept@start(l);
      cut, rest := l, r;
    }
    Splice(list, head, cut, rest);
  }

  lemma CutParts(r: seq<Link>, k: nat, list: Link)
    requires k < |r| && list !in r && Distinct(r)
    ensures var cut, rest := [list] + r[1..k + 1], [r[0]] + r[k + 1..];
      && Disjoint(cut, rest) && [r[0]] + cut[1..] + rest[1..] == r
      && (|r| == 1 ==> cut == [list] && rest == r)
      && (forall e :: e in cut ==> e == list || e in r) && (forall e :: e in rest ==> e in r)
  {}
}
