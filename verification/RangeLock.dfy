/**
 Locking a range of addresses page by page in ascending order, over abstract readers-writer
 locks. One range is active on each node.
 */
module RangeLock {
  import opened PageLock
  import opened PageCell

  // --- The pages of a range.

  /** `get_page_index`. */
  function PageIndex(dsm: nat, adr: nat): nat
    requires dsm <= adr
  {
    (adr - dsm) / PAGE_SIZE
  }

  /** Some byte of the range is on the page. */
  ghost predicate Meets(dsm: nat, adr: nat, size: nat, page: nat)
    requires dsm <= adr
  {
    exists x :: adr <= x < adr + size && PageIndex(dsm, x) == page
  }

  lemma MeetsIff(dsm: nat, adr: nat, size: nat, page: nat)
    requires dsm <= adr && size > 0
    ensures Meets(dsm, adr, size, page) <==> PageIndex(dsm, adr) <= page <= PageIndex(dsm, adr + size - 1)
  {
    if PageIndex(dsm, adr) <= page <= PageIndex(dsm, adr + size - 1) {
      var x := if PageIndex(dsm, adr) == page then adr else dsm + page * PAGE_SIZE;
      assert adr <= x < adr + size && PageIndex(dsm, x) == page;
    }
  }

  /** `exclude_others`: the pages on which it calls `ask_lock` or `unlock`, in this order. */
  method ExcludeOthers(dsm: nat, adr: nat, size: nat) returns (pages: seq<nat>)
    requires dsm <= adr && size > 0
    ensures forall p :: p in pages <==> Meets(dsm, adr, size, p)
    ensures forall i, j :: 0 <= i < j < |pages| ==> pages[i] < pages[j]
  {
    var first, last := PageIndex(dsm, adr), PageIndex(dsm, adr + size - 1);
    pages := [];
    var p := first;
    while p <= last
      invariant first <= p <= last + 1
      invariant forall q :: q in pages <==> first <= q < p
      invariant forall i, j :: 0 <= i < j < |pages| ==> pages[i] < pages[j]
      invariant forall i :: 0 <= i < |pages| ==> pages[i] < p
      decreases last + 1 - p
    {
      pages := pages + [p];
      p := p + 1;
    }
    forall q ensures q in pages <==> Meets(dsm, adr, size, q) { MeetsIff(dsm, adr, size, q); }
  }

  // --- Nodes that lock and unlock ranges.

  /** `Locking` holds the pages from `lo` up to `next`, `Unlocking` those from `next` up to `hi`;
      a node whose `next` is beyond `hi` holds the whole range. */
  datatype Caller =
    | Idle
    | Locking(lo: nat, next: nat, hi: nat, mode: LockType)
    | Unlocking(next: nat, hi: nat, mode: LockType)

  predicate Valid(c: Caller) {
    match c
    case Idle => true
    case Locking(lo, next, hi, _) => lo <= next <= hi + 1
    case Unlocking(next, hi, _) => next <= hi
  }

  predicate Has(c: Caller, p: nat) {
    match c
    case Idle => false
    case Locking(lo, next, _, _) => lo <= p < next
    case Unlocking(next, hi, _) => next <= p <= hi
  }

  /** `n` asks for a page that another node has, and one of the two writes. */
  predicate BlockedBy(s: seq<Caller>, n: nat, m: nat)
    requires n < |s| && m < |s|
  {
    && n != m && s[n].Locking? && s[n].next <= s[n].hi && Has(s[m], s[n].next)
    && !(s[n].mode == Read && s[m].mode == Read)
  }

  predicate Blocked(s: seq<Caller>, n: nat)
    requires n < |s|
  {
    exists m :: 0 <= m < |s| && BlockedBy(s, n, m)
  }

  datatype Event =
    | CallLock(n: nat, lo: nat, hi: nat, mode: LockType)
    | GetPage(n: nat)
    | CallUnlock(n: nat)
    | FreePage(n: nat)

  predicate Enabled(s: seq<Caller>, e: Event) {
    && e.n < |s|
    && match e
       case CallLock(n, lo, hi, _) => s[n] == Idle && lo <= hi
       case GetPage(n) => s[n].Locking? && s[n].next <= s[n].hi && !Blocked(s, n)
       case CallUnlock(n) => s[n].Locking? && s[n].lo <= s[n].hi < s[n].next
       case FreePage(n) => s[n].Unlocking?
  }

  function Step(s: seq<Caller>, e: Event): seq<Caller>
    requires Enabled(s, e)
  {
    match e
    case CallLock(n, lo, hi, t) => s[n := Locking(lo, lo, hi, t)]
    case GetPage(n) => s[n := Locking(s[n].lo, s[n].next + 1, s[n].hi, s[n].mode)]
    case CallUnlock(n) => s[n := Unlocking(s[n].lo, s[n].hi, s[n].mode)]
    case FreePage(n) => s[n := if s[n].next == s[n].hi then Idle else Unlocking(s[n].next + 1, s[n].hi, s[n].mode)]
  }

  predicate IsRun(s: seq<Caller>, es: seq<Event>)
    decreases |es|
  {
    es == [] || (Enabled(s, es[0]) && IsRun(Step(s, es[0]), es[1..]))
  }

  function After(s: seq<Caller>, es: seq<Event>): seq<Caller>
    requires IsRun(s, es)
    decreases |es|
  {
    if es == [] then s else After(Step(s, es[0]), es[1..])
  }

  // --- Exclusion.

  /** The callers are in order, and pages that two of them have are only read. */
  ghost predicate Inv(s: seq<Caller>) {
    && (forall n :: 0 <= n < |s| ==> Valid(s[n]) && (s[n].Locking? ==> s[n].lo <= s[n].hi))
    && (forall n, m, p :: 0 <= n < m < |s| && Has(s[n], p) && Has(s[m], p) ==> s[n].mode == Read && s[m].mode == Read)
  }

  lemma StepKeepsInv(s: seq<Caller>, e: Event)
    requires Inv(s) && Enabled(s, e)
    ensures Inv(Step(s, e))
  {
    var s', n := Step(s, e), e.n;
    forall k, m, p | 0 <= k < m < |s'| && Has(s'[k], p) && Has(s'[m], p) ensures s'[k].mode == Read && s'[m].mode == Read {
      if e.GetPage? && p == s[n].next && (k == n || m == n) {
        assert !BlockedBy(s, n, if k == n then m else k);
      }
    }
  }

  lemma {:induction false} RunKeepsInv(s: seq<Caller>, es: seq<Event>)
    requires Inv(s) && IsRun(s, es)
    ensures Inv(After(s, es))
    decreases |es|
  {
    hide Inv, Step, Enabled;
    if es != [] {
      StepKeepsInv(s, es[0]);
      RunKeepsInv(Step(s, es[0]), es[1..]);
    }
  }

  function Init(nodes: nat): seq<Caller> {
    seq(nodes, _ => Idle)
  }

  ghost predicate Reachable(s: seq<Caller>) {
    exists es :: IsRun(Init(|s|), es) && After(Init(|s|), es) == s
  }

  lemma InitInv(nodes: nat)
    ensures Inv(Init(nodes))
  {}

  /** Whenever two nodes have the same page, both read; and each has the pages of its range in
      ascending order. */
  lemma ReachableInv(s: seq<Caller>)
    requires Reachable(s)
    ensures Inv(s)
  {
    hide Inv, IsRun, After;
    var es :| IsRun(Init(|s|), es) && After(Init(|s|), es) == s;
    InitInv(|s|);
    RunKeepsInv(Init(|s|), es);
  }

  // --- No deadlock.

  /** Going from a blocked node to one that blocks it, the page asked for grows, so this ends at
      a node that has a lock and is not blocked. */
  lemma {:induction false} HolderCanMove(s: seq<Caller>, n: nat, bound: nat) returns (m: nat)
    requires n < |s| && Blocked(s, n) && (forall k :: 0 <= k < |s| && s[k].Locking? ==> s[k].next <= bound)
    ensures m < |s| && !Blocked(s, m) && exists p :: Has(s[m], p)
    decreases bound - s[n].next
  {
    m :| 0 <= m < |s| && BlockedBy(s, n, m);
    if Blocked(s, m) {
      m := HolderCanMove(s, m, bound);
    }
  }

  lemma {:induction false} Bound(s: seq<Caller>, k: nat) returns (b: nat)
    requires k <= |s|
    ensures forall i :: 0 <= i < k && s[i].Locking? ==> s[i].next <= b
  {
    b := 0;
    if k > 0 {
      b := Bound(s, k - 1);
      if s[k - 1].Locking? && s[k - 1].next > b {
        b := s[k - 1].next;
      }
    }
  }

  /** Whenever a node is blocked, some node that has a lock can take its next step. */
  lemma NoDeadlock(s: seq<Caller>, n: nat)
    requires Inv(s) && n < |s| && Blocked(s, n)
    ensures exists m :: 0 <= m < |s| && !Blocked(s, m) && (exists p :: Has(s[m], p))
              && (Enabled(s, GetPage(m)) || Enabled(s, CallUnlock(m)) || Enabled(s, FreePage(m)))
  {
    var b := Bound(s, |s|);
    var m := HolderCanMove(s, n, b);
    assert Valid(s[m]);
  }

  // --- Every call completes.

  /** The steps that a caller still has to take. */
  function Work(c: Caller): nat
    requires Valid(c)
  {
    match c
    case Idle => 0
    case Locking(lo, next, hi, _) => (hi + 1 - next) + 1 + (hi + 1 - lo)
    case Unlocking(next, hi, _) => hi + 1 - next
  }

  function TotalWork(s: seq<Caller>): nat
    requires forall n :: 0 <= n < |s| ==> Valid(s[n])
  {
    if s == [] then 0 else TotalWork(s[..|s| - 1]) + Work(s[|s| - 1])
  }

  lemma {:induction false} OneChange(s: seq<Caller>, n: nat, c: Caller)
    requires (forall k :: 0 <= k < |s| ==> Valid(s[k])) && n < |s| && Valid(c)
    ensures TotalWork(s[n := c]) == TotalWork(s) - Work(s[n]) + Work(c)
  {
    var k := |s| - 1;
    if n < k {
      OneChange(s[..k], n, c);
      assert s[n := c][..k] == s[..k][n := c];
    } else {
      assert s[n := c][..k] == s[..k];
    }
  }

  lemma StepWorks(s: seq<Caller>, e: Event)
    requires Inv(s) && Enabled(s, e) && !e.CallLock?
    ensures Inv(Step(s, e)) && TotalWork(Step(s, e)) == TotalWork(s) - 1
  {
    StepKeepsInv(s, e);
    var c := Step(s, e)[e.n];
    assert Step(s, e) == s[e.n := c];
    OneChange(s, e.n, c);
  }

  /** Without new calls, every step is one of a fixed number, in whatever order they come. */
  lemma {:induction false} StepsAreCounted(s: seq<Caller>, es: seq<Event>)
    requires Inv(s) && IsRun(s, es) && forall e :: e in es ==> !e.CallLock?
    ensures Inv(After(s, es)) && TotalWork(s) == |es| + TotalWork(After(s, es))
    decreases |es|
  {
    hide Inv, Step, Enabled, TotalWork;
    ValidInInv(s);
    if es != [] {
      assert es[0] in es;
      StepWorks(s, es[0]);
      StepsAreCounted(Step(s, es[0]), es[1..]);
    }
  }

  lemma ValidInInv(s: seq<Caller>)
    requires Inv(s)
    ensures forall n :: 0 <= n < |s| ==> Valid(s[n])
  {}

  /** When no step but a new call is possible, every call has returned. */
  lemma NothingLeftToDo(s: seq<Caller>, n: nat)
    requires Inv(s) && n < |s| && forall e: Event :: !e.CallLock? ==> !Enabled(s, e)
    ensures s[n] == Idle
  {
    assert Valid(s[n]);
    if Blocked(s, n) {
      NoDeadlock(s, n);
    }
    assert !Enabled(s, GetPage(n)) && !Enabled(s, CallUnlock(n)) && !Enabled(s, FreePage(n));
  }

  /** In every run: blocked nodes wait for one that can go on, and if no new range is locked all
      calls return after a number of steps that is known beforehand. */
  lemma RangesComplete(s: seq<Caller>, es: seq<Event>)
    requires Reachable(s) && IsRun(s, es) && forall e :: e in es ==> !e.CallLock?
    ensures forall n :: 0 <= n < |s| ==> Valid(s[n])
    ensures |es| <= TotalWork(s)
    ensures (forall e: Event :: !e.CallLock? ==> !Enabled(After(s, es), e)) ==> forall c :: c in After(s, es) ==> c == Idle
  {
    hide Reachable, Inv, IsRun, After, TotalWork, Enabled;
    ReachableInv(s);
    ValidInInv(s);
    StepsAreCounted(s, es);
    var t := After(s, es);
    if forall e: Event :: !e.CallLock? ==> !Enabled(t, e) {
      forall n | 0 <= n < |t| ensures t[n] == Idle { NothingLeftToDo(t, n); }
    }
  }
}
