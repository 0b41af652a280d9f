/**
 The callers that the page lock loses in write-only runs: those that wait in every continuation.
 */
module LockLost {
  import opened Nodes
  import opened PageLock
  import opened LockMachine
  import opened LockExclusion
  import opened LockTheorems
  import opened LockProgress
  import opened LockTrap
  import opened LockViews

  /** The caller of `n` waits now and in every continuation, with whatever new calls. */
  ghost predicate Lost(s: State, n: NodeId) {
    Pending(s, n) && forall es :: IsRun(s, es) ==> Pending(After(s, es), n)
  }

  // --- A trap holds its callers for ever.

  /** A caller in a trap waits in every run: only a grant could wake it, and the token is elsewhere. */
  lemma {:induction false} TrapHolds(s: State, a: Account, z: Zone, n: NodeId, es: seq<Event>)
    requires Inv(s, a) && Trapped(s, a, z) && n in z.lost && Pending(s, n) && IsRun(s, es)
    ensures Pending(After(s, es), n)
    decreases |es|
  {
    hide Inv, Trapped, Step, Enabled, Pending;
    if es != [] {
      var a' := StepKeepsInv(s, a, es[0]);
      StepKeepsTrap(s, a, es[0], a', z);
      StaysPending(s, a, z, n, es[0]);
      TrapHolds(Step(s, es[0]), a', z, n, es[1..]);
    }
  }

  lemma StaysPending(s: State, a: Account, z: Zone, n: NodeId, e: Event)
    requires Inv(s, a) && Trapped(s, a, z) && n in z.lost && Pending(s, n) && Enabled(s, e)
    ensures Pending(Step(s, e), n)
  {
    hide ShapeInv, ClaimInv, Step, Enabled, RequestsInside, PathsInside, ClosedOutside;
    forall x ensures !HasClaim(s, n, Granted(x)) {
      assert TokenAt(s, Moving(n, x)) <==> a.place == Moving(n, x);
    }
    OnlyGrantsWake(s, e, n);
  }

  /** Whoever waits in a trap is lost. */
  lemma TrapLoses(s: State, a: Account, z: Zone, n: NodeId)
    requires Inv(s, a) && Trapped(s, a, z) && n in z.lost && Pending(s, n)
    ensures Lost(s, n)
  {
    hide Inv, Trapped, IsRun, After;
    forall es | IsRun(s, es) ensures Pending(After(s, es), n) { TrapHolds(s, a, z, n, es); }
  }

  // --- Lists of waiting callers.

  /** A list has at most one entry, unless its oldest entry is the node itself; a node whose turn
      has ended has none. */
  ghost predicate ShortLists(s: State) {
    forall n {:trigger s.pages[n]} :: n in s.pages ==>
      var rs := s.pages[n].requests;
      && (|rs| > 1 ==> rs[|rs| - 1].who == n)
      && (s.pages[n].mode == Unlocked ==> rs == [])
  }

  lemma ShortChanged(s: State, n: NodeId, p: Page, net: multiset<Message>)
    requires ShortLists(s) && n in s.pages
    requires |p.requests| > 1 ==> p.requests[|p.requests| - 1].who == n
    requires p.mode == Unlocked ==> p.requests == []
    ensures ShortLists(Put(s, n, p, net))
  {}

  lemma ShortAt(s: State, n: NodeId)
    requires ShortLists(s) && n in s.pages
    ensures var rs := s.pages[n].requests;
      (|rs| > 1 ==> rs[|rs| - 1].who == n) && (s.pages[n].mode == Unlocked ==> rs == [])
  {}

  /** A node that has the token and does not wait is not in its own list. */
  lemma HolderList(s: State, a: Account, n: NodeId)
    requires ShapeInv(s) && ClaimInv(s, a) && ShortLists(s) && n in s.pages && !Pending(s, n)
    ensures |s.pages[n].requests| <= 1
  {
    hide ShapeInv, ClaimInv, ShortLists, MailOk;
    Facts(s, n);
    ShortAt(s, n);
    NoClaim(s, a, n);
    var rs := s.pages[n].requests;
    assert !HasClaim(s, n, Listed(n));
    forall r | r in rs ensures r.who != n { assert r == Request(r.who, Write); }
    if rs != [] { NotTheLast(rs, n); }
  }

  lemma NotTheLast(rs: seq<Request>, n: NodeId)
    requires rs != [] && forall r :: r in rs ==> r.who != n
    ensures rs[|rs| - 1].who != n
  {
    assert rs[|rs| - 1] in rs;
  }

  lemma TakingStaysShort(s: State, d: NodeId, i: NodeId)
    requires ShapeInv(s) && d in s.pages && TakesIn(s.pages[d], d) && ShortLists(s)
    requires s.pages[d].mode == Unlocked ==> s.pages[d].requests == []
    ensures var rs := Add(s.pages[d].requests, i, Write);
      (|rs| > 1 ==> rs[|rs| - 1].who == d) && s.pages[d].mode != Unlocked
  {
    hide ShapeInv, MailOk, ShortLists;
    Facts(s, d);
    var rs := s.pages[d].requests;
    LastWriterOfWriters(s.pages.Keys, rs);
    if rs != [] {
      var all := Add(rs, i, Write);
      assert all[|all| - 1] == rs[|rs| - 1];
    }
  }

  lemma StepKeepsShort(s: State, a: Account, e: Event)
    requires Enabled(s, e) && Inv(s, a) && ShortLists(s)
    ensures ShortLists(Step(s, e))
  {
    hide ShortLists, TokenInv, ClaimInv, ShapeInv, MailOk, ListOk, LastWriter;
    match e
    case CallAsk(n) => CallKeepsShort(s, n);
    case CallResume(n) =>
      ShortAt(s, n);
      ShortChanged(s, n, Resume(s.pages[n]), Step(s, e).net);
    case CallUnlock(n) =>
      Facts(s, n);
      HolderList(s, a, n);
      UnlockForms(s, n);
      var s' := Step(s, e);
      ShortChanged(s, n, s'.pages[n], s'.net);
    case DeliverAsk(d, i) => DeliverAskKeepsShort(s, a, d, i);
    case DeliverGet(d, x) =>
      ShortAt(s, d);
      var s' := Step(s, e);
      ShortChanged(s, d, s'.pages[d], s'.net);
  }

  lemma CallKeepsShort(s: State, n: NodeId)
    requires Enabled(s, CallAsk(n)) && ShapeInv(s) && ShortLists(s)
    ensures ShortLists(Step(s, CallAsk(n)))
  {
    hide ShortLists, ShapeInv, MailOk, ListOk;
    var s' := Step(s, CallAsk(n));
    Facts(s, n);
    ShortAt(s, n);
    assert s' == Put(s, n, s'.pages[n], s'.net);
    ShortChanged(s, n, s'.pages[n], s'.net);
  }

  lemma DeliverAskKeepsShort(s: State, a: Account, d: NodeId, i: NodeId)
    requires Enabled(s, DeliverAsk(d, i)) && Inv(s, a) && ShortLists(s)
    ensures ShortLists(Step(s, DeliverAsk(d, i)))
  {
    hide ShortLists, TokenInv, ClaimInv, ShapeInv, TakesIn, Step, Add;
    ShortAt(s, d);
    var p := s.pages[d];
    if TakesIn(p, d) {
      TakingForms(s, d, i);
      TakingStaysShort(s, d, i);
      ShortChanged(s, d, p.(requests := Add(p.requests, i, Write)), s.net - multiset{AskLock(d, i, Write)});
    } else if p.requests == [] && p.haveToken == d {
      AnswerForms(s, d, i);
      ShortChanged(s, d, p.(haveToken := i), s.net - multiset{AskLock(d, i, Write)} + multiset{GetLock(i, d, Write)});
    } else {
      ForwardForms(s, d, i);
      ShortChanged(s, d, if p.requests != [] then p else p.(haveToken := i),
        s.net - multiset{AskLock(d, i, Write)} + multiset{AskLock(Next(p), i, Write)});
    }
  }

  lemma {:induction false} RunKeepsShort(s: State, a: Account, es: seq<Event>)
    requires Inv(s, a) && ShortLists(s) && IsRun(s, es)
    ensures ShortLists(After(s, es))
    decreases |es|
  {
    hide Inv, ShortLists, Step, Enabled;
    if es != [] {
      StepKeepsShort(s, a, es[0]);
      var a' := StepKeepsInv(s, a, es[0]);
      RunKeepsShort(Step(s, es[0]), a', es[1..]);
    }
  }

  lemma ReachableShort(s: State)
    requires Reachable(s)
    ensures ShortLists(s)
  {
    hide Inv, IsRun, After;
    var nodes, first, es :| EmptyNode !in nodes && first in nodes
      && IsRun(Init(nodes, first), es) && s == After(Init(nodes, first), es);
    InitInv(nodes, first);
    assert ShortLists(Init(nodes, first));
    RunKeepsShort(Init(nodes, first), Account(Held(first), map[]), es);
  }

  // --- The queue behind the token is served.

  lemma Prepend(s: State, e: Event, es: seq<Event>)
    requires Enabled(s, e) && IsRun(Step(s, e), es)
    ensures IsRun(s, [e] + es) && After(s, [e] + es) == After(Step(s, e), es)
  {
    assert ([e] + es)[1..] == es;
  }

  /** A chain stays a chain while its later members wait. */
  lemma ChainStays(s: State, a: Account, e: Event, p: seq<NodeId>)
    requires Enabled(s, e) && ClaimInv(s, a) && Chain(s, p) && Pending(s, p[|p| - 1])
    ensures Chain(Step(s, e), p)
  {
    hide Step, Enabled, ClaimInv, HasClaim, Pending;
    forall i | 0 <= i < |p| - 1 ensures WaitsFor(Step(s, e), p[i], p[i + 1]) {
      assert WaitsFor(s, p[i], p[i + 1]);
      assert i + 1 < |p| - 1 ==> WaitsFor(s, p[i + 1], p[i + 2]);
      ListedStaysListed(s, a, e, p[i], p[i + 1]);
    }
  }

  lemma Shorter(s: State, p: seq<NodeId>)
    requires Chain(s, p) && |p| > 1
    ensures Chain(s, p[..|p| - 1]) && WaitsFor(s, p[|p| - 2], p[|p| - 1]) && Pending(s, p[|p| - 2])
  {
    hide WaitsFor;
    var q := p[..|p| - 1];
    forall i | 0 <= i < |q| - 1 ensures WaitsFor(s, q[i], q[i + 1]) {
      assert WaitsFor(s, p[i], p[i + 1]);
    }
    assert WaitsFor(s, p[|p| - 2], p[|p| - 2 + 1]);
    assert Pending(s, p[|p| - 2]) by { WaitsMeansPending(s, p[|p| - 2], p[|p| - 1]); }
  }

  lemma WaitsMeansPending(s: State, n: NodeId, m: NodeId)
    requires WaitsFor(s, n, m)
    ensures Pending(s, n) && HasClaim(s, n, Listed(m)) && m in s.pages
  {}

  /** The token reaches its node. */
  lemma GrantServes(s: State, a: Account, p: seq<NodeId>, x: NodeId)
    requires Inv(s, a) && p != [] && Chain(s, p) && a.place == Moving(p[|p| - 1], x)
    ensures var n, e := p[|p| - 1], DeliverGet(p[|p| - 1], x);
      Enabled(s, e) && Chain(Step(s, e), p) && !Pending(Step(s, e), n) && TokenAt(Step(s, e), Held(n))
  {
    hide ShapeInv, TokenInv, Chain;
    var n := p[|p| - 1];
    assert TokenAt(s, a.place) by { ThePlace(s, a); }
    assert HasClaim(s, n, Granted(x));
    OneClaim(s, a, n, Granted(x), Granted(x));
    NoStuck(s, n);
    ChainStays(s, a, DeliverGet(n, x), p);
  }

  lemma ThePlace(s: State, a: Account)
    requires TokenInv(s, a)
    ensures TokenAt(s, a.place)
  {}

  lemma ResumeServes(s: State, p: seq<NodeId>)
    requires Chain(s, p) && p[|p| - 1] in s.pages && s.pages[p[|p| - 1]].waiting && s.pages[p[|p| - 1]].signalled
    requires s.pages[p[|p| - 1]].haveToken == p[|p| - 1]
    ensures var e := CallResume(p[|p| - 1]);
      && Enabled(s, e) && Chain(Step(s, e), p) && TokenAt(Step(s, e), Held(p[|p| - 1]))
      && p[|p| - 1] in Step(s, e).pages && !Step(s, e).pages[p[|p| - 1]].waiting
  {
    var e := CallResume(p[|p| - 1]);
    hide HasClaim;
    forall i | 0 <= i < |p| - 1 ensures WaitsFor(Step(s, e), p[i], p[i + 1]) {
      assert WaitsFor(s, p[i], p[i + 1]);
      ResumeKeepsWait(s, p[|p| - 1], p[i], p[i + 1]);
    }
  }

  lemma ResumeKeepsWait(s: State, k: NodeId, n: NodeId, m: NodeId)
    requires Enabled(s, CallResume(k)) && WaitsFor(s, n, m)
    ensures WaitsFor(Step(s, CallResume(k)), n, m)
  {}

  /** The holder passes the token to the one who waits for it. */
  lemma UnlockServes(s: State, a: Account, p: seq<NodeId>)
    requires Inv(s, a) && ShortLists(s) && Chain(s, p) && |p| > 1
    requires p[|p| - 1] in s.pages && !s.pages[p[|p| - 1]].waiting
    ensures var n, y, e := p[|p| - 1], p[|p| - 2], CallUnlock(p[|p| - 1]);
      Enabled(s, e) && Chain(Step(s, e), p[..|p| - 1]) && TokenAt(Step(s, e), Moving(y, n))
  {
    hide ShapeInv, TokenInv, ClaimInv, Chain, ShortLists, MailOk;
    var n, y := p[|p| - 1], p[|p| - 2];
    Facts(s, n);
    ShortAt(s, n);
    Shorter(s, p);
    WaitsMeansPending(s, y, n);
    HolderList(s, a, n);
    var rs := s.pages[n].requests;
    assert Request(y, Write) in rs && rs == [Request(y, Write)];
    UnlockForms(s, n);
    ChainStays(s, a, CallUnlock(n), p[..|p| - 1]);
  }

  /** Everybody who waits in the queue of the token can be served without any new call. */
  lemma {:induction false} QueueServes(s: State, a: Account, p: seq<NodeId>) returns (es: seq<Event>)
    requires Inv(s, a) && ShortLists(s) && p != [] && Chain(s, p) && p[|p| - 1] == a.place.n
    ensures IsRun(s, es) && !Pending(After(s, es), p[0])
    ensures forall e :: e in es ==> !e.CallAsk?
    decreases |p|, if a.place.Moving? then 2 else if a.place.n in s.pages && s.pages[a.place.n].waiting then 1 else 0
  {
    hide Inv, ShortLists, Chain, Enabled, Step, Pending;
    var n := a.place.n;
    HeldFacts(s, a);
    if a.place.Held? && |p| == 1 {
      es := [];
    } else {
      var e, q, place := DeliverGet(n, n), p, Held(n);
      if a.place.Moving? {
        e := DeliverGet(n, a.place.sender);
        GrantServes(s, a, p, a.place.sender);
      } else if s.pages[n].waiting {
        e := CallResume(n);
        ResumeServes(s, p);
      } else {
        e, q, place := CallUnlock(n), p[..|p| - 1], Moving(p[|p| - 2], n);
        UnlockServes(s, a, p);
      }
      var s' := Step(s, e);
      var a' := StepKeepsInv(s, a, e);
      StepKeepsShort(s, a, e);
      ThePlaceIs(s', a', place);
      es := QueueServes(s', a', q);
      Prepend(s, e, es);
      es := [e] + es;
    }
  }

  lemma ThePlaceIs(s: State, a: Account, p: Place)
    requires Inv(s, a) && TokenAt(s, p)
    ensures a.place == p
  {}

  lemma HeldFacts(s: State, a: Account)
    requires Inv(s, a)
    ensures var n := a.place.n; a.place.Held? ==>
      n in s.pages && !Pending(s, n) && s.pages[n].haveToken == n && (s.pages[n].waiting ==> s.pages[n].signalled)
  {
    hide ShapeInv, ClaimInv, TokenInv, MailOk, ListOk;
    ThePlace(s, a);
    if a.place.Held? { Facts(s, a.place.n); }
  }

  // --- Who is lost.

  /** The request of `i` travels, and `n` waits behind it. */
  ghost predicate BehindTraveller(s: State, n: NodeId, i: NodeId) {
    Leads(s, n, i) && exists d :: AskLock(d, i, Write) in s.net
  }

  ghost predicate InDeadlock(s: State, n: NodeId) {
    exists D :: n in D && Deadlocked(s, D)
  }

  /** Neither the token nor a travelling request is found at the end of the chain of `n`. */
  ghost predicate NoEnd(s: State, t: NodeId, n: NodeId) {
    !Leads(s, n, t) && forall i :: !BehindTraveller(s, n, i)
  }

  /** A waiting caller without such an end waits for another one. */
  lemma NoEndWaits(s: State, a: Account, n: NodeId) returns (m: NodeId)
    requires Inv(s, a) && ShortLists(s) && Pending(s, n) && NoEnd(s, a.place.n, n)
    ensures WaitsFor(s, n, m) && Pending(s, m) && NoEnd(s, a.place.n, m)
  {
    hide ShapeInv, Leads, ShortLists, MailOk, ListOk;
    LeadsHome(s, n);
    assert !BehindTraveller(s, n, n);
    forall d ensures !HasClaim(s, n, Asking(d)) {}
    forall x ensures !HasClaim(s, n, Granted(x)) { assert TokenAt(s, Moving(n, x)) <==> a.place == Moving(n, x); }
    assert HasClaim(s, n, a.why[n]);
    m := a.why[n].at;
    ListerFacts(s, a, n, m);
    NoEndGoesOn(s, a.place.n, n, m);
    LeadsHome(s, m);
  }

  lemma NoEndGoesOn(s: State, t: NodeId, n: NodeId, m: NodeId)
    requires WaitsFor(s, n, m) && NoEnd(s, t, n)
    ensures NoEnd(s, t, m)
  {
    hide Leads, WaitsFor;
    if Leads(s, m, t) { LeadsOn(s, n, m, t); }
    forall i ensures !BehindTraveller(s, m, i) {
      if Leads(s, m, i) { LeadsOn(s, n, m, i); }
      assert !BehindTraveller(s, n, i);
    }
  }

  /** Who has a list waits itself, or has the token. */
  lemma ListerFacts(s: State, a: Account, n: NodeId, m: NodeId)
    requires ShapeInv(s) && TokenInv(s, a) && ShortLists(s) && HasClaim(s, n, Listed(m))
    ensures Pending(s, m) || a.place == Held(m)
  {
    hide ShapeInv, ShortLists, MailOk, ListOk;
    Facts(s, m);
    ShortAt(s, m);
    assert TokenAt(s, Held(m)) <==> a.place == Held(m);
  }

  /** The chain of a waiting caller ends at the token, ends at a travelling request, or runs into a
      circle. */
  lemma ChainEnds(s: State, a: Account, n: NodeId)
    requires Inv(s, a) && ShortLists(s) && Pending(s, n)
    ensures Leads(s, n, a.place.n) || InDeadlock(s, n) || exists i :: BehindTraveller(s, n, i)
  {
    hide Inv, ShortLists, Leads, Pending, BehindTraveller;
    if NoEnd(s, a.place.n, n) { NoEndIsCircle(s, a, n); }
  }

  lemma NoEndIsCircle(s: State, a: Account, n: NodeId)
    requires Inv(s, a) && ShortLists(s) && Pending(s, n) && NoEnd(s, a.place.n, n)
    ensures InDeadlock(s, n)
  {
    hide Inv, ShortLists, NoEnd, WaitsFor, Pending, WaitsWithin, InDeadlock;
    var t := a.place.n;
    PendingIsNode(s, n);
    var D := set k | k in s.pages && Pending(s, k) && NoEnd(s, t, k);
    forall k | k in D ensures WaitsWithin(s, k, D) {
      var m := NoEndWaits(s, a, k);
      PendingIsNode(s, m);
      WaitsInside(s, k, m, D);
    }
    DeadlockIs(s, D);
    IsInDeadlock(s, n, D);
  }

  lemma WaitsInside(s: State, k: NodeId, m: NodeId, D: set<NodeId>)
    requires WaitsFor(s, k, m) && m in D
    ensures WaitsWithin(s, k, D)
  {
    hide HasClaim, Pending;
  }

  lemma IsInDeadlock(s: State, n: NodeId, D: set<NodeId>)
    requires n in D && Deadlocked(s, D)
    ensures InDeadlock(s, n)
  {}

  lemma PendingIsNode(s: State, n: NodeId)
    requires Pending(s, n)
    ensures n in s.pages
  {}

  lemma QueueIsServed(s: State, a: Account, n: NodeId)
    requires Inv(s, a) && ShortLists(s) && Leads(s, n, a.place.n)
    ensures !Lost(s, n)
  {
    hide Inv, ShortLists, IsRun, After, WaitsFor;
    var p :| Chain(s, p) && p[0] == n && p[|p| - 1] == a.place.n;
    var es := QueueServes(s, a, p);
  }

  /** A chain lasts as long as its last member waits. */
  lemma {:induction false} ChainLasts(s: State, a: Account, p: seq<NodeId>, es: seq<Event>)
    requires Inv(s, a) && p != [] && Chain(s, p) && Lost(s, p[|p| - 1]) && IsRun(s, es)
    ensures Chain(After(s, es), p)
    decreases |es|
  {
    hide Inv, Chain, Step, Enabled;
    if es != [] {
      LostGoesOn(s, p[|p| - 1], es[0]);
      InvParts(s, a);
      ChainStays(s, a, es[0], p);
      var a' := StepKeepsInv(s, a, es[0]);
      ChainLasts(Step(s, es[0]), a', p, es[1..]);
    }
  }

  lemma InvParts(s: State, a: Account)
    requires Inv(s, a)
    ensures ShapeInv(s) && TokenInv(s, a) && ClaimInv(s, a)
  {}

  lemma LostGoesOn(s: State, n: NodeId, e: Event)
    requires Lost(s, n) && Enabled(s, e)
    ensures Lost(Step(s, e), n)
  {
    hide Step, Enabled, Pending;
    var s' := Step(s, e);
    forall es | IsRun(s', es) ensures Pending(After(s', es), n) {
      Prepend(s, e, es);
      assert Pending(After(s, [e] + es), n);
    }
    assert IsRun(s', []) && After(s', []) == s';
  }

  /** Who waits behind a lost caller is lost. */
  lemma BehindLost(s: State, a: Account, n: NodeId, i: NodeId)
    requires Inv(s, a) && Leads(s, n, i) && Lost(s, i)
    ensures Lost(s, n)
  {
    hide Inv, WaitsFor, IsRun, After, Pending;
    var p :| Chain(s, p) && p[0] == n && p[|p| - 1] == i;
    forall es | IsRun(s, es) ensures Pending(After(s, es), n) {
      ChainLasts(s, a, p, es);
      HeadWaits(After(s, es), p);
    }
    HeadWaits(s, p);
  }

  lemma HeadWaits(s: State, p: seq<NodeId>)
    requires Chain(s, p)
    ensures Pending(s, p[|p| - 1]) ==> Pending(s, p[0])
  {
    hide Pending;
    if |p| > 1 {
      assert WaitsFor(s, p[0], p[1]);
      WaitsMeansPending(s, p[0], p[1]);
    }
  }

  /** If the last member of a chain can be served, so can the first. */
  lemma {:induction false} BehindServed(s: State, a: Account, p: seq<NodeId>, es: seq<Event>) returns (r: seq<Event>)
    requires Inv(s, a) && ShortLists(s) && p != [] && Chain(s, p) && Pending(s, p[|p| - 1])
    requires IsRun(s, es) && !Pending(After(s, es), p[|p| - 1])
    ensures IsRun(s, r) && !Pending(After(s, r), p[0])
    decreases |es|
  {
    hide Inv, Chain, Step, Enabled, Pending, ShortLists;
    var n := p[|p| - 1];
    assert es != [];
    var e := es[0];
    var s' := Step(s, e);
    var a' := StepKeepsInv(s, a, e);
    StepKeepsShort(s, a, e);
    InvParts(s, a);
    ChainStays(s, a, e, p);
    if Pending(s', n) {
      r := BehindServed(s', a', p, es[1..]);
    } else {
      ServedByGrant(s, a, e, n, a');
      r := QueueServes(s', a', p);
    }
    Prepend(s, e, r);
    r := [e] + r;
  }

  lemma ServedByGrant(s: State, a: Account, e: Event, n: NodeId, a': Account)
    requires Inv(s, a) && Enabled(s, e) && Pending(s, n) && !Pending(Step(s, e), n) && Inv(Step(s, e), a')
    ensures a'.place.n == n
  {
    hide ShapeInv, ClaimInv, TokenInv, LastWriter, MailOk, ListOk;
    assert e.DeliverGet? && e.at == n by { OnlyGetWakes(s, e, n); }
    NoStuck(s, n);
    ThePlaceIs(Step(s, e), a', Held(n));
  }

  lemma OnlyGetWakes(s: State, e: Event, n: NodeId)
    requires Enabled(s, e) && Pending(s, n) && !Pending(Step(s, e), n)
    ensures e.DeliverGet? && e.at == n
  {
    hide LastWriter;
  }

  /** A waiting caller is lost if and only if it waits in a circle, or behind a caller whose request
      travels and who is lost. */
  lemma LostIff(s: State, n: NodeId)
    requires Reachable(s) && Pending(s, n)
    ensures Lost(s, n) <==> InDeadlock(s, n) || exists i :: BehindTraveller(s, n, i) && Lost(s, i)
  {
    hide Reachable, Inv, ShortLists, Lost, Leads, Pending;
    var a := ReachableInv(s);
    ReachableShort(s);
    if D :| n in D && Deadlocked(s, D) { CircleIsLost(s, a, D, n); }
    if i :| BehindTraveller(s, n, i) && Lost(s, i) { BehindLost(s, a, n, i); }
    if Lost(s, n) {
      ChainEnds(s, a, n);
      if Leads(s, n, a.place.n) { QueueIsServed(s, a, n); }
      if i :| BehindTraveller(s, n, i) { LostTraveller(s, a, n, i); }
    }
  }

  lemma CircleIsLost(s: State, a: Account, D: set<NodeId>, n: NodeId)
    requires Inv(s, a) && Deadlocked(s, D) && n in D
    ensures Lost(s, n)
  {
    hide Inv, IsRun, After, Pending, HasClaim;
    forall es | IsRun(s, es) ensures Pending(After(s, es), n) { DeadlockIsForever(s, a, D, es); }
  }

  lemma LostTraveller(s: State, a: Account, n: NodeId, i: NodeId)
    requires Inv(s, a) && ShortLists(s) && BehindTraveller(s, n, i) && Lost(s, n)
    ensures Lost(s, i)
  {
    hide Inv, ShortLists, IsRun, After, WaitsFor, Pending;
    var p :| Chain(s, p) && p[0] == n && p[|p| - 1] == i;
    var d :| AskLock(d, i, Write) in s.net;
    InvParts(s, a);
    assert HasClaim(s, i, Asking(d));
    OneClaim(s, a, i, Asking(d), Asking(d));
    forall es | IsRun(s, es) ensures Pending(After(s, es), i) {
      if !Pending(After(s, es), i) {
        var r := BehindServed(s, a, p, es);
      }
    }
  }

  /** Where no request travels, the lost callers are those that wait for one another in a circle. */
  lemma LostWhenSettledIff(s: State, n: NodeId)
    requires Reachable(s) && Pending(s, n) && forall m :: m in s.net ==> !m.AskLock?
    ensures Lost(s, n) <==> InDeadlock(s, n)
  {
    hide Reachable, Lost, Leads, InDeadlock;
    LostIff(s, n);
    forall i ensures !BehindTraveller(s, n, i) {}
  }

  /** The request of `i` travels, and `i` is lost. */
  ghost predicate LostOnTheWay(s: State, i: NodeId) {
    Lost(s, i) && exists d :: AskLock(d, i, Write) in s.net
  }

  /** After any write-only run somebody is lost if and only if some delivery of the run closed a
      circle or a caller whose request still travels is lost. */
  lemma RunLosesIff(nodes: set<NodeId>, first: NodeId, es: seq<Event>)
    requires EmptyNode !in nodes && first in nodes && IsRun(Init(nodes, first), es)
    ensures var t := After(Init(nodes, first), es);
      (exists n :: Lost(t, n)) <==> SomeCircle(Init(nodes, first), es) || exists i :: LostOnTheWay(t, i)
  {
    hide Reachable, Deadlocked, SomeCircle, After, IsRun, Init, Lost, Leads, InDeadlock;
    var s := Init(nodes, first);
    var t := After(s, es);
    InitIsReachable(nodes, first);
    NoDeadlockAtFirst(nodes, first);
    DeadlockIffCircle(s, es);
    ReachableAfter(nodes, first, es);
    if n :| Lost(t, n) {
      LostIsPending(t, n);
      LostIff(t, n);
      if i :| BehindTraveller(t, n, i) && Lost(t, i) { assert LostOnTheWay(t, i); }
      if InDeadlock(t, n) { CircleThere(t, n); }
    }
    if D :| D != {} && Deadlocked(t, D) {
      var n :| n in D;
      DeadlockedWaits(t, D, n);
      LostIff(t, n);
    }
  }

  lemma CircleThere(s: State, n: NodeId)
    requires InDeadlock(s, n)
    ensures exists D :: D != {} && Deadlocked(s, D)
  {}

  /** If the run leaves no request travelling, the circles are all there is. */
  lemma RunLosesWhenSettledIff(nodes: set<NodeId>, first: NodeId, es: seq<Event>)
    requires EmptyNode !in nodes && first in nodes && IsRun(Init(nodes, first), es)
    requires forall m :: m in After(Init(nodes, first), es).net ==> !m.AskLock?
    ensures (exists n :: Lost(After(Init(nodes, first), es), n)) <==> SomeCircle(Init(nodes, first), es)
  {
    hide SomeCircle, After, IsRun, Init, Lost;
    RunLosesIff(nodes, first, es);
  }

  lemma LostIsPending(s: State, n: NodeId)
    requires Lost(s, n)
    ensures Pending(s, n)
  {}

  lemma DeadlockedWaits(s: State, D: set<NodeId>, n: NodeId)
    requires Deadlocked(s, D) && n in D
    ensures Pending(s, n) && InDeadlock(s, n)
  {}

  // --- Traps cover both ways of losing callers.

  ghost predicate InTrap(s: State, n: NodeId) {
    exists a, z :: Inv(s, a) && Trapped(s, a, z) && n in z.lost
  }

  lemma CircleClaim(s: State, a: Account, D: set<NodeId>, n: NodeId)
    requires ClaimInv(s, a) && Deadlocked(s, D) && n in D
    ensures Pending(s, n) && n in s.pages
    ensures forall c :: HasClaim(s, n, c) ==> c.Listed? && c.at in D
  {
    hide ClaimInv;
    var m :| m in D && HasClaim(s, n, Listed(m));
    forall c | HasClaim(s, n, c) ensures c == Listed(m) { OneClaim(s, a, n, Listed(m), c); }
  }

  lemma CircleBounds(s: State, a: Account, D: set<NodeId>)
    requires Inv(s, a) && Deadlocked(s, D)
    ensures D <= s.pages.Keys && a.place.n !in D
  {
    hide ShapeInv, TokenInv, ClaimInv, Deadlocked, HasClaim, Pending;
    forall n | n in D ensures n in s.pages && n != a.place.n {
      CircleClaim(s, a, D, n);
      HeldFacts(s, a);
      ThePlace(s, a);
      if a.place.Moving? { assert HasClaim(s, a.place.n, Granted(a.place.sender)) by { MovingClaim(s, a); } }
    }
  }

  lemma MovingClaim(s: State, a: Account)
    requires TokenInv(s, a) && a.place.Moving?
    ensures HasClaim(s, a.place.n, Granted(a.place.sender))
  {
    assert TokenAt(s, a.place);
  }

  lemma CircleRequests(s: State, a: Account, D: set<NodeId>, z: Zone)
    requires Inv(s, a) && Deadlocked(s, D) && z.lost == D
    ensures forall n, m :: (n, m) in Listings(s) && n in D ==> m in D
    ensures forall d, n :: (d, n) in Travels(s.net) ==> n !in D
    ensures forall n :: n in D ==> Pending(s, n) && n in s.pages
  {
    hide ShapeInv, TokenInv, ClaimInv, Deadlocked;
    AllMail(s);
    forall n | n in D ensures Pending(s, n) && n in s.pages { CircleClaim(s, a, D, n); }
    forall n, m | (n, m) in Listings(s) && n in D ensures m in D {
      CircleClaim(s, a, D, n);
      assert HasClaim(s, n, Listed(m));
    }
    forall d, n | (d, n) in Travels(s.net) ensures n !in D {
      assert AskLock(d, n, Write) in s.net;
      if n in D { CircleClaim(s, a, D, n); }
      assert HasClaim(s, n, Asking(d));
    }
  }

  lemma NextIsNode(s: State, n: NodeId)
    requires ShapeInv(s) && n in s.pages
    ensures Next(s.pages[n]) in s.pages && s.pages[n].haveToken in s.pages
  {
    hide ShapeInv, MailOk;
    Facts(s, n);
    LastWriterOfWriters(s.pages.Keys, s.pages[n].requests);
  }

  lemma NamesAreNodes(s: State)
    requires ShapeInv(s)
    ensures forall p :: p in Travels(s.net) ==> p.0 in s.pages && p.1 in s.pages
  {
    hide ShapeInv;
    AllMail(s);
    forall p | p in Travels(s.net) ensures p.0 in s.pages && p.1 in s.pages {
      var m :| m in s.net && m.AskLock? && (m.dst, m.initiator) == p;
      assert Addressed(s.pages.Keys, m);
    }
  }

  lemma ViewIsProper(s: State, t: NodeId)
    requires ShapeInv(s)
    ensures Proper(ViewOf(s, t))
  {
    hide ShapeInv, Next, Travels, Pending;
    NamesAreNodes(s);
  }

  lemma ViewIsKnown(s: State, t: NodeId)
    requires ShapeInv(s)
    ensures Known(ViewOf(s, t))
  {
    hide ShapeInv, Next, Travels, Pending, Proper;
    ViewIsProper(s, t);
    var v := ViewOf(s, t);
    forall x | x in v.next.Values ensures x in v.nodes {
      var n :| n in v.next && v.next[n] == x;
      NextIsNode(s, n);
    }
    forall x | x in v.own.Values ensures x in v.nodes {
      var n :| n in v.own && v.own[n] == x;
      NextIsNode(s, n);
    }
  }

  /** A circle is a trap. */
  lemma CircleIsTrap(s: State, a: Account, D: set<NodeId>)
    requires Inv(s, a) && Deadlocked(s, D)
    ensures Trapped(s, a, Zone(D, {}, {}, s.pages.Keys))
  {
    hide Next, Inv, Deadlocked, Pending, Listings, Travels, Known;
    InvParts(s, a);
    CircleBounds(s, a, D);
    CircleRequests(s, a, D, Zone(D, {}, {}, s.pages.Keys));
    ViewIsKnown(s, a.place.n);
    ListedTrap(ViewOf(s, a.place.n), D);
  }

  // --- Two ways to wait for ever.

  /** A waiting caller takes its own request into its own list and is lost. */
  lemma CircleLoses()
    ensures exists s, e, n :: Reachable(s) && Enabled(s, e) && ClosesCircle(s, e) && Lost(Step(s, e), n)
  {
    hide Reachable, ClosesCircle, Deadlocked, Step, Lost, Inv;
    BackIsReachable();
    BackCloses();
    var e := DeliverAsk(C, C);
    DeadlockArisesIff(Back, e);
    ReachableStep(Back, e);
    var D :| D != {} && Deadlocked(Step(Back, e), D);
    var n :| n in D;
    var a := ReachableInv(Step(Back, e));
    CircleIsLost(Step(Back, e), a, D, n);
  }

  // B asks first and gets the token; A's request comes back to A from B, which believes in A. A
  // then takes C's request into its list, forwards its own to C, and C, which believes in A, back.

  const AllAsked: State := State(
    map[A := Waiter(B, []), B := Waiter(A, []), C := Waiter(A, [])],
    multiset{Grant, AskLock(A, C, Write), AskLock(B, A, Write)})
  const AskedItself: State := State(
    map[A := Waiter(A, []), B := Waiter(A, []), C := Waiter(A, [])],
    multiset{Grant, AskLock(A, C, Write), AskLock(A, A, Write)})
  const BetweenAC: State := State(
    map[A := Waiter(A, [Request(C, Write)]), B := Page(Writing, [], B, false, false, false), C := Waiter(A, [])],
    multiset{AskLock(A, A, Write)})

  lemma CIsNext()
    ensures Enabled(Asked, DeliverAsk(A, B))
    ensures Step(Asked, DeliverAsk(A, B)) == State(Asked.pages[A := Fresh(B)], multiset{Grant, AskLock(A, C, Write)})
  {
    assert Step(Asked, DeliverAsk(A, B)).net == multiset{Grant, AskLock(A, C, Write)};
  }

  lemma AllAskedIsReachable()
    ensures Reachable(AllAsked)
  {
    hide Reachable;
    AskedIsReachable();
    CIsNext();
    ReachableStep(Asked, DeliverAsk(A, B));
    var s1 := State(Asked.pages[A := Fresh(B)], multiset{Grant, AskLock(A, C, Write)});
    ReachableStep(s1, CallAsk(A));
    assert Step(s1, CallAsk(A)).pages == AllAsked.pages;
    assert Step(s1, CallAsk(A)).net == AllAsked.net;
  }

  const AtItself: State := State(AllAsked.pages, multiset{Grant, AskLock(A, C, Write), AskLock(A, A, Write)})

  lemma AtItselfIsReachable()
    ensures Reachable(AtItself)
  {
    hide Reachable;
    AllAskedIsReachable();
    ReachableStep(AllAsked, DeliverAsk(B, A));
    var s1 := Step(AllAsked, DeliverAsk(B, A));
    assert s1.pages == AtItself.pages;
    assert s1.net == AtItself.net;
  }

  lemma AskedItselfIsReachable()
    ensures Reachable(AskedItself)
  {
    hide Reachable;
    AtItselfIsReachable();
    ReachableStep(AtItself, DeliverAsk(A, A));
    var s1 := Step(AtItself, DeliverAsk(A, A));
    assert s1.net == multiset{Grant, AskLock(A, C, Write), AskLock(B, A, Write)};
    ReachableStep(s1, DeliverAsk(B, A));
    var s2 := Step(s1, DeliverAsk(B, A));
    assert s2.pages == AskedItself.pages;
    assert s2.net == AskedItself.net;
  }

  lemma BetweenACIsReachable()
    ensures Reachable(BetweenAC)
  {
    hide Reachable;
    AskedItselfIsReachable();
    ReachableStep(AskedItself, DeliverAsk(A, C));
    var s1 := Step(AskedItself, DeliverAsk(A, C));
    assert s1.net == multiset{Grant, AskLock(A, A, Write)};
    ReachableStep(s1, DeliverGet(B, A));
    var s2 := Step(s1, DeliverGet(B, A));
    assert s2.net == multiset{AskLock(A, A, Write)};
    ReachableStep(s2, CallResume(B));
    var s3 := Step(s2, CallResume(B));
    assert Add([], C, Write) == [Request(C, Write)];
    assert s3.pages[A] == BetweenAC.pages[A];
    assert s3.pages == BetweenAC.pages;
    assert s3.net == BetweenAC.net;
  }

  lemma BetweenACView()
    ensures var v := ViewOf(BetweenAC, B);
      && v.nodes == {A, B, C} && v.next == map[A := C, B := B, C := A] && v.own == map[A := A, B := B, C := A]
      && v.pending == {A, C} && v.full == {A} && v.listed == {(C, A)} && v.asks == {(A, A)} && v.token == {B}
  {
    hide Travels, Listings, LastWriter;
    LastIs([Request(C, Write)]);
    assert Next(BetweenAC.pages[A]) == C;
    assert forall p: (NodeId, NodeId) :: p in Travels(BetweenAC.net) <==> p == (A, A) by { OnlyAA(); }
    assert forall p: (NodeId, NodeId) :: p in Listings(BetweenAC) <==> p == (C, A) by { OnlyCA(); }
  }

  lemma OnlyAA()
    ensures Travels(BetweenAC.net) == {(A, A)}
  {
    assert AskLock(A, A, Write) in BetweenAC.net;
    assert (AskLock(A, A, Write).dst, AskLock(A, A, Write).initiator) in Travels(BetweenAC.net);
  }

  lemma OnlyCA()
    ensures Listings(BetweenAC) == {(C, A)}
  {
    assert Request(C, Write) in BetweenAC.pages[A].requests;
  }

  /** Two callers wait in every continuation although no callers wait for one another in a circle:
      A's request travels between A and C for ever. */
  lemma TravellersAreLost()
    ensures Reachable(BetweenAC) && NoDeadlock(BetweenAC) && Lost(BetweenAC, A) && Lost(BetweenAC, C)
  {
    hide Reachable, Inv, Lost, ViewOf;
    BetweenACIsReachable();
    var a := ReachableInv(BetweenAC);
    ThePlaceIs(BetweenAC, a, Held(B));
    BetweenACView();
    var z := Zone({A, C}, {A, C}, {}, {});
    assert Trapped(BetweenAC, a, z);
    TrapLoses(BetweenAC, a, z, A);
    TrapLoses(BetweenAC, a, z, C);
    NoCircleBetweenAC();
  }

  lemma NoCircleBetweenAC()
    ensures NoDeadlock(BetweenAC)
  {
    hide WaitsWithin;
    forall D | D != {} ensures !Deadlocked(BetweenAC, D) {
      var n :| n in D;
      DeadlockIs(BetweenAC, D);
      if WaitsWithin(BetweenAC, n, D) { OnlyCWaitsInAList(D, n); }
    }
  }

  lemma OnlyCWaitsInAList(D: set<NodeId>, n: NodeId)
    requires WaitsWithin(BetweenAC, n, D)
    ensures A in D && !WaitsWithin(BetweenAC, A, D)
  {
    hide Pending, HasClaim;
    NotListed();
    ListedOnlyAtA(n);
  }

  lemma NotListed()
    ensures forall m :: !HasClaim(BetweenAC, A, Listed(m))
  {}

  lemma ListedOnlyAtA(n: NodeId)
    ensures forall m :: HasClaim(BetweenAC, n, Listed(m)) ==> m == A
  {}
}
