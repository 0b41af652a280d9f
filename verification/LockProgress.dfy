/**
 Waiting callers whose requests are kept only by each other, in write-only runs: they come about
 when a node puts a request into its list although its own leads back to the one who asks.
 */
module LockProgress {
  import opened Nodes
  import opened PageLock
  import opened LockMachine
  import opened LockExclusion
  import opened LockTheorems

  /** Waiting callers whose requests are kept only by each other. */
  ghost predicate Deadlocked(s: State, D: set<NodeId>) {
    forall n :: n in D ==> Pending(s, n) && exists m :: m in D && HasClaim(s, n, Listed(m))
  }

  lemma ListsOnlyGrow(s: State, e: Event, m: NodeId)
    requires Enabled(s, e) && Pending(s, m)
    ensures m in Step(s, e).pages
    ensures forall r :: r in s.pages[m].requests ==> r in Step(s, e).pages[m].requests
  {}

  lemma OnlyGrantsWake(s: State, e: Event, n: NodeId)
    requires Enabled(s, e) && Pending(s, n) && forall x :: !HasClaim(s, n, Granted(x))
    ensures Pending(Step(s, e), n)
  {
    match e
    case DeliverGet(d, x) => assert HasClaim(s, d, Granted(x));
    case _ =>
  }

  lemma ListedStaysListed(s: State, a: Account, e: Event, n: NodeId, m: NodeId)
    requires Enabled(s, e) && ClaimInv(s, a) && HasClaim(s, n, Listed(m)) && Pending(s, n) && Pending(s, m)
    ensures Pending(Step(s, e), n) && HasClaim(Step(s, e), n, Listed(m))
  {
    hide Step, Enabled;
    ListsOnlyGrow(s, e, m);
    OnlyGrantsWake(s, e, n);
  }

  lemma DeadlockStep(s: State, a: Account, e: Event, D: set<NodeId>)
    requires Enabled(s, e) && ClaimInv(s, a) && Deadlocked(s, D)
    ensures Deadlocked(Step(s, e), D)
  {
    hide Step, Enabled, Pending, HasClaim, ClaimInv;
    var s' := Step(s, e);
    forall n | n in D ensures Pending(s', n) && exists m :: m in D && HasClaim(s', n, Listed(m)) {
      var m :| m in D && HasClaim(s, n, Listed(m));
      ListedStaysListed(s, a, e, n, m);
    }
  }

  /** Such callers wait forever, in every run. */
  lemma {:induction false} DeadlockIsForever(s: State, a: Account, D: set<NodeId>, es: seq<Event>)
    requires Inv(s, a) && Deadlocked(s, D) && IsRun(s, es)
    ensures Deadlocked(After(s, es), D)
    decreases |es|
  {
    hide Deadlocked, ShapeInv, TokenInv, ClaimInv;
    if es != [] {
      DeadlockStep(s, a, es[0], D);
      var a' := StepKeepsInv(s, a, es[0]);
      DeadlockIsForever(Step(s, es[0]), a', D, es[1..]);
    }
  }

  // --- How such a set comes about.

  ghost predicate NoDeadlock(s: State) {
    forall D :: D != {} ==> !Deadlocked(s, D)
  }

  /** The handler of ASK_LOCK puts the request for writing into the list of `me`. */
  predicate TakesIn(p: Page, me: NodeId) {
    var last := LastWriter(p.requests);
    last == me || (last == EmptyNode && p.haveToken == me && !(p.mode == Unlocked && p.requests == []))
  }

  /** The caller of `n` waits, and its request is in the list of `m`. */
  predicate WaitsFor(s: State, n: NodeId, m: NodeId) {
    Pending(s, n) && HasClaim(s, n, Listed(m))
  }

  /** Each node of the chain waits for the next one. */
  predicate Chain(s: State, p: seq<NodeId>) {
    p != [] && forall i :: 0 <= i < |p| - 1 ==> WaitsFor(s, p[i], p[i + 1])
  }

  /** From `n`, following who waits for whom, one comes to `x`. */
  ghost predicate Leads(s: State, n: NodeId, x: NodeId) {
    exists p :: Chain(s, p) && p[0] == n && p[|p| - 1] == x
  }

  lemma LeadsOn(s: State, n: NodeId, m: NodeId, x: NodeId)
    requires WaitsFor(s, n, m) && Leads(s, m, x)
    ensures Leads(s, n, x)
  {
    var p :| Chain(s, p) && p[0] == m && p[|p| - 1] == x;
    var q := [n] + p;
    forall i | 0 <= i < |q| - 1 ensures WaitsFor(s, q[i], q[i + 1]) {
      if i > 0 { assert q[i] == p[i - 1] && q[i + 1] == p[i]; }
    }
    assert Chain(s, q) && q[0] == n && q[|q| - 1] == x;
  }

  lemma LeadsHome(s: State, n: NodeId)
    ensures Leads(s, n, n)
  {
    assert Chain(s, [n]) && [n][0] == n;
  }

  /** The request of `i` closes a circle of waiting callers. */
  ghost predicate ClosesCircle(s: State, e: Event) {
    e.DeliverAsk? && e.at in s.pages && TakesIn(s.pages[e.at], e.at) && Leads(s, e.at, e.initiator)
  }

  lemma NewEntry(s: State, e: Event, n: NodeId, m: NodeId)
    requires ShapeInv(s) && Enabled(s, e) && HasClaim(Step(s, e), n, Listed(m)) && !HasClaim(s, n, Listed(m))
    ensures e == DeliverAsk(m, n) && TakesIn(s.pages[m], m)
  {
    hide MailOk, ListOk, LastWriter, ShapeInv;
    Facts(s, m);
  }

  lemma NewWaiter(s: State, e: Event, n: NodeId)
    requires ShapeInv(s) && Enabled(s, e) && Pending(Step(s, e), n) && !Pending(s, n)
    ensures e == CallAsk(n)
  {
    hide LastWriter, MailOk, ListOk, ShapeInv;
    Facts(s, n);
  }

  /** Who waits for whom changes only when a request is taken in. */
  lemma WaitedBefore(s: State, a: Account, e: Event, n: NodeId, m: NodeId)
    requires ShapeInv(s) && ClaimInv(s, a) && Enabled(s, e) && WaitsFor(Step(s, e), n, m)
    requires !(e == DeliverAsk(m, n) && TakesIn(s.pages[m], m))
    ensures WaitsFor(s, n, m)
  {
    hide Step, Enabled, ShapeInv, HasClaim;
    if !HasClaim(s, n, Listed(m)) { NewEntry(s, e, n, m); }
    if !Pending(s, n) {
      NoClaim(s, a, n);
      NewWaiter(s, e, n);
    }
  }

  /** The members of `D` from which `i` cannot be reached wait only for one another. */
  lemma CutOff(s: State, D: set<NodeId>, i: NodeId) returns (B: set<NodeId>)
    requires forall n :: n in D && n != i ==> WaitsWithin(s, n, D)
    ensures Deadlocked(s, B) && forall n :: n in D && !Leads(s, n, i) ==> n in B
  {
    hide Leads, Deadlocked, WaitsFor;
    B := set n | n in D && !Leads(s, n, i);
    LeadsHome(s, i);
    forall n | n in B ensures WaitsWithin(s, n, B) {
      assert WaitsWithin(s, n, D);
      var m :| m in D && WaitsFor(s, n, m);
      if Leads(s, m, i) { LeadsOn(s, n, m, i); }
      assert m in B;
    }
    DeadlockIs(s, B);
  }

  ghost predicate WaitsWithin(s: State, n: NodeId, D: set<NodeId>) {
    exists m :: m in D && WaitsFor(s, n, m)
  }

  lemma WaitsOrTaken(s: State, a: Account, e: Event, n: NodeId, D: set<NodeId>)
    requires ShapeInv(s) && ClaimInv(s, a) && Enabled(s, e) && WaitsWithin(Step(s, e), n, D)
    ensures WaitsWithin(s, n, D) || (e.DeliverAsk? && e.initiator == n && e.at in D && TakesIn(s.pages[e.at], e.at))
  {
    hide Step, Enabled, ShapeInv, ClaimInv, WaitsFor, TakesIn;
    AsksAt(s, e);
    var m :| m in D && WaitsFor(Step(s, e), n, m);
    if !(e == DeliverAsk(m, n) && TakesIn(s.pages[m], m)) { WaitedBefore(s, a, e, n, m); }
  }

  lemma DeadlockIs(s: State, D: set<NodeId>)
    ensures Deadlocked(s, D) <==> forall n :: n in D ==> WaitsWithin(s, n, D)
  {
    hide Pending, HasClaim;
    if Deadlocked(s, D) {
      forall n | n in D ensures WaitsWithin(s, n, D) {
        var m :| m in D && HasClaim(s, n, Listed(m));
        assert WaitsFor(s, n, m);
      }
    }
  }

  lemma DeadlockNeedsCircle(s: State, a: Account, e: Event, D: set<NodeId>)
    requires ShapeInv(s) && ClaimInv(s, a) && Enabled(s, e) && NoDeadlock(s)
    requires D != {} && Deadlocked(Step(s, e), D)
    ensures ClosesCircle(s, e)
  {
    hide Step, Enabled, ShapeInv, ClaimInv, WaitsWithin, TakesIn, Leads, Deadlocked;
    AsksAt(s, e);
    DeadlockIs(s, D);
    DeadlockIs(Step(s, e), D);
    var n :| n in D && !WaitsWithin(s, n, D);
    forall k | k in D && !WaitsWithin(s, k, D) ensures e.DeliverAsk? && e.initiator == k { WaitsOrTaken(s, a, e, k, D); }
    WaitsOrTaken(s, a, e, n, D);
    var B := CutOff(s, D, n);
    assert !(e.at in B);
  }

  lemma AsksAt(s: State, e: Event)
    requires Enabled(s, e)
    ensures e.DeliverAsk? ==> e.at in s.pages
  {}

  lemma TakenIn(s: State, a: Account, d: NodeId, i: NodeId)
    requires ShapeInv(s) && ClaimInv(s, a) && Enabled(s, DeliverAsk(d, i)) && TakesIn(s.pages[d], d)
    ensures WaitsFor(Step(s, DeliverAsk(d, i)), i, d)
  {
    hide ShapeInv, MailOk, ListOk, LastWriter;
    assert HasClaim(s, i, Asking(d));
    OneClaim(s, a, i, Asking(d), Listed(d));
    Facts(s, d);
  }

  /** The chain is still there after the step, and its last node now waits for the first. */
  lemma ChainCloses(s: State, a: Account, e: Event, p: seq<NodeId>, k: nat)
    requires ClaimInv(s, a) && Enabled(s, e) && e.DeliverAsk? && Chain(s, p) && p[0] == e.at && p[|p| - 1] == e.initiator
    requires WaitsFor(Step(s, e), e.initiator, e.at) && k < |p|
    ensures WaitsFor(Step(s, e), p[k], if k < |p| - 1 then p[k + 1] else p[0])
  {
    hide Step, Enabled, ClaimInv, HasClaim, Pending;
    StillWaiting(s, e, e.initiator, a);
    if k < |p| - 1 {
      assert WaitsFor(s, p[k], p[k + 1]);
      assert k + 1 < |p| - 1 ==> WaitsFor(s, p[k + 1], p[k + 2]);
      ListedStaysListed(s, a, e, p[k], p[k + 1]);
    }
  }

  lemma CircleDeadlocks(s: State, a: Account, e: Event) returns (D: set<NodeId>)
    requires ShapeInv(s) && ClaimInv(s, a) && Enabled(s, e) && ClosesCircle(s, e)
    ensures D != {} && Deadlocked(Step(s, e), D)
  {
    hide Step, Enabled, ShapeInv, ClaimInv, WaitsFor, TakesIn, Deadlocked;
    TakenIn(s, a, e.at, e.initiator);
    var p :| Chain(s, p) && p[0] == e.at && p[|p| - 1] == e.initiator;
    D := set n | n in p;
    assert e.at in D;
    forall n | n in D ensures WaitsWithin(Step(s, e), n, D) {
      var k :| 0 <= k < |p| && p[k] == n;
      ChainCloses(s, a, e, p, k);
      assert (if k < |p| - 1 then p[k + 1] else p[0]) in D;
    }
    DeadlockIs(Step(s, e), D);
  }

  lemma StillWaiting(s: State, e: Event, i: NodeId, a: Account)
    requires ClaimInv(s, a) && Enabled(s, e) && e.DeliverAsk? && e.initiator == i
    ensures Pending(s, i)
  {
    assert HasClaim(s, i, Asking(e.at));
    OneClaim(s, a, i, Asking(e.at), Asking(e.at));
  }

  /** Where there is no such set yet, a step makes one if and only if a node takes a request into its
      list although its own caller's request leads to the one who asks, in zero or more steps. */
  lemma DeadlockArisesIff(s: State, e: Event)
    requires Reachable(s) && NoDeadlock(s) && Enabled(s, e)
    ensures !NoDeadlock(Step(s, e)) <==> ClosesCircle(s, e)
  {
    hide Reachable, TokenInv, ClaimInv, ShapeInv, Deadlocked, Step, Enabled, ClosesCircle;
    var a := ReachableInv(s);
    if ClosesCircle(s, e) {
      var D := CircleDeadlocks(s, a, e);
    }
    if D :| D != {} && Deadlocked(Step(s, e), D) {
      DeadlockNeedsCircle(s, a, e, D);
    }
  }

  /** Some event of the run closes a circle. */
  ghost predicate SomeCircle(s: State, es: seq<Event>)
    requires IsRun(s, es)
    decreases |es|
  {
    es != [] && (ClosesCircle(s, es[0]) || SomeCircle(Step(s, es[0]), es[1..]))
  }

  /** After any run there is such a set if and only if some event of the run closed a circle. */
  lemma {:induction false} DeadlockIffCircle(s: State, es: seq<Event>)
    requires Reachable(s) && NoDeadlock(s) && IsRun(s, es)
    ensures !NoDeadlock(After(s, es)) <==> SomeCircle(s, es)
    decreases |es|
  {
    hide Reachable, Deadlocked, Step, Enabled, ClosesCircle;
    if es != [] {
      DeadlockArisesIff(s, es[0]);
      ReachableStep(s, es[0]);
      if ClosesCircle(s, es[0]) {
        var D :| D != {} && Deadlocked(Step(s, es[0]), D);
        StaysDeadlocked(Step(s, es[0]), D, es[1..]);
      } else {
        DeadlockIffCircle(Step(s, es[0]), es[1..]);
      }
    }
  }

  lemma StaysDeadlocked(s: State, D: set<NodeId>, es: seq<Event>)
    requires Reachable(s) && Deadlocked(s, D) && IsRun(s, es)
    ensures Deadlocked(After(s, es), D)
  {
    hide Reachable, Deadlocked, Inv, IsRun, After;
    var a := ReachableInv(s);
    DeadlockIsForever(s, a, D, es);
  }

  lemma NoDeadlockAtFirst(nodes: set<NodeId>, first: NodeId)
    requires EmptyNode !in nodes && first in nodes
    ensures NoDeadlock(Init(nodes, first))
  {
    var s := Init(nodes, first);
    forall D | D != {} ensures !Deadlocked(s, D) {
      var n :| n in D;
      assert !Pending(s, n);
    }
  }

  lemma {:induction false} RunExtends(s: State, es: seq<Event>, e: Event)
    requires IsRun(s, es) && Enabled(After(s, es), e)
    ensures IsRun(s, es + [e]) && After(s, es + [e]) == Step(After(s, es), e)
    decreases |es|
  {
    hide Enabled, Step;
    if es == [] {
      assert [e][1..] == [] && es + [e] == [e];
    } else {
      RunExtends(Step(s, es[0]), es[1..], e);
      assert (es + [e])[1..] == es[1..] + [e];
    }
  }

  lemma ReachableStep(s: State, e: Event)
    requires Reachable(s) && Enabled(s, e)
    ensures Reachable(Step(s, e))
  {
    hide Enabled, Step, IsRun, After;
    var nodes, first, es :| EmptyNode !in nodes && first in nodes
      && IsRun(Init(nodes, first), es) && s == After(Init(nodes, first), es);
    RunExtends(Init(nodes, first), es, e);
  }

  lemma ReachableAfter(nodes: set<NodeId>, first: NodeId, es: seq<Event>)
    requires EmptyNode !in nodes && first in nodes && IsRun(Init(nodes, first), es)
    ensures Reachable(After(Init(nodes, first), es))
  {}

  // One such run. A grants the token to B while C's request travels; the request comes back to
  // A, which has meanwhile put C in the place of the token's owner, and A sends it to C itself.

  const A := Node("a", 1)
  const B := Node("b", 2)
  const C := Node("c", 3)

  /** The page of a caller that waits and believes that `t` has the token. */
  function Waiter(t: NodeId, requests: seq<Request>): Page {
    Page(Writing, requests, t, false, true, false)
  }

  const Grant := GetLock(B, A, Write)
  const Asked: State := State(map[A := Fresh(A), B := Waiter(A, []), C := Waiter(A, [])], multiset{AskLock(A, B, Write), AskLock(A, C, Write)})
  const AtB: State := State(map[A := Fresh(C), B := Waiter(A, []), C := Waiter(A, [])], multiset{Grant, AskLock(B, C, Write)})
  const AtC: State := State(map[A := Fresh(C), B := Waiter(C, []), C := Waiter(A, [])], multiset{Grant, AskLock(C, C, Write)})
  const Back: State := State(map[A := Fresh(C), B := Waiter(C, []), C := Waiter(C, [])], multiset{Grant, AskLock(C, C, Write)})

  lemma InitIsReachable(nodes: set<NodeId>, first: NodeId)
    requires EmptyNode !in nodes && first in nodes
    ensures Reachable(Init(nodes, first))
  {
    assert IsRun(Init(nodes, first), []) && After(Init(nodes, first), []) == Init(nodes, first);
  }

  lemma AskedIsReachable()
    ensures Reachable(Asked)
  {
    hide Reachable;
    var s0 := Init({A, B, C}, A);
    InitIsReachable({A, B, C}, A);
    ReachableStep(s0, CallAsk(B));
    var s1 := Step(s0, CallAsk(B));
    assert s1.net == multiset{AskLock(A, B, Write)};
    ReachableStep(s1, CallAsk(C));
    var s2 := Step(s1, CallAsk(C));
    assert s2.pages == Asked.pages;
    assert s2.net == Asked.net;
  }

  lemma AtBIsReachable()
    ensures Reachable(AtB)
  {
    hide Reachable;
    AskedIsReachable();
    ReachableStep(Asked, DeliverAsk(A, B));
    var s1 := Step(Asked, DeliverAsk(A, B));
    assert s1.net == multiset{Grant, AskLock(A, C, Write)};
    ReachableStep(s1, DeliverAsk(A, C));
    var s2 := Step(s1, DeliverAsk(A, C));
    assert s2.pages == AtB.pages;
    assert s2.net == AtB.net;
  }

  lemma AtCIsReachable()
    ensures Reachable(AtC)
  {
    hide Reachable;
    AtBIsReachable();
    ReachableStep(AtB, DeliverAsk(B, C));
    var s1 := Step(AtB, DeliverAsk(B, C));
    assert s1.net == multiset{Grant, AskLock(A, C, Write)};
    ReachableStep(s1, DeliverAsk(A, C));
    var s2 := Step(s1, DeliverAsk(A, C));
    assert s2.pages == AtC.pages;
    assert s2.net == AtC.net;
  }

  lemma BackIsReachable()
    ensures Reachable(Back)
  {
    hide Reachable;
    AtCIsReachable();
    ReachableStep(AtC, DeliverAsk(C, C));
    var s1 := Step(AtC, DeliverAsk(C, C));
    assert s1.net == multiset{Grant, AskLock(A, C, Write)};
    ReachableStep(s1, DeliverAsk(A, C));
    var s2 := Step(s1, DeliverAsk(A, C));
    assert s2.pages == Back.pages;
    assert s2.net == Back.net;
  }

  /** In `Back` nobody waits in a circle, and the next delivery closes a circle of one. */
  lemma BackCloses()
    ensures Enabled(Back, DeliverAsk(C, C)) && NoDeadlock(Back) && ClosesCircle(Back, DeliverAsk(C, C))
  {
    LeadsHome(Back, C);
    assert C in Back.pages && LastWriter([]) == EmptyNode;
    forall D | D != {} ensures !Deadlocked(Back, D) {
      var n :| n in D;
      assert forall m :: !HasClaim(Back, n, Listed(m));
    }
  }
}
