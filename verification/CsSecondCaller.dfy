/**
 What a second caller does: one entry can strand a caller exactly when another caller is blocked at
 the same node, and the token can be made up or sent away under a user.
 */
module CsSecondCaller {
  import opened Nodes
  import opened NaimiTrehel
  import opened CsMachine
  import opened CsToken
  import opened CsTree
  import opened CsQueue
  import opened CsSoundness
  import opened CsTheorems
  import opened CsForwarding
  import opened CsLimits
  import opened CsProgress
  import C = CsCallers

  type Crowd = C.Crowd

  // --- One caller at a time.

  /** A caller enters while another one is blocked at its node. */
  predicate SecondEntry(c: Crowd, e: Event) {
    e.CallEnter? && C.Blocked(c, e.n) > 0
  }

  predicate NoSecondEntry(c: Crowd, es: seq<Event>)
    requires C.IsCrowdRun(c, es)
    decreases |es|
  {
    es == [] || (!SecondEntry(c, es[0]) && NoSecondEntry(C.Next(c, es[0]), es[1..]))
  }

  predicate Departs(e: Event) {
    e.CallLeave? || e.DeliverNewRoot? || e.DeliverReset?
  }

  lemma LiftBlocked(s: State, n: NodeId)
    ensures C.Blocked(C.Lift(s), n) == if n in s.sites && s.sites[n].waiting then 1 else 0
  {}

  lemma PossibleIsLifted(s: State, e: Event)
    ensures C.Possible(C.Lift(s), e) && !SecondEntry(C.Lift(s), e) <==> Enabled(s, e) && !Departs(e)
  {
    LiftBlocked(s, C.Actor(e));
  }

  lemma StateIsLifted(s: State, e: Event)
    requires Enabled(s, e) && !Departs(e) && C.Possible(C.Lift(s), e)
    ensures C.Next(C.Lift(s), e).state == Step(s, e)
  {
    hide Exchange, Enter, Release, OnRequest, OnGrant;
    LiftBlocked(s, C.Actor(e));
    if e.Join? { C.NothingSent(s, e.n, Fresh(e.contact, false)); }
  }

  /** Only the blocked callers of the node of the event can change in a step. */
  lemma WaitingIs(s: State, e: Event)
    requires Enabled(s, e) && !Departs(e)
    ensures Step(s, e).sites.Keys == s.sites.Keys + {C.Actor(e)}
    ensures forall n {:trigger s.sites[n]} :: n in s.sites && n != C.Actor(e) ==> Step(s, e).sites[n] == s.sites[n]
    ensures Step(s, e).sites[C.Actor(e)].waiting ==
      if e.CallEnter? then !s.sites[e.n].token else !e.CallWake? && !e.Join? && s.sites[C.Actor(e)].waiting
  {
    hide Exchange;
  }

  lemma BlockedIsLifted(s: State, e: Event)
    requires Enabled(s, e) && !Departs(e) && C.Possible(C.Lift(s), e)
    ensures C.Next(C.Lift(s), e).blocked == C.Lift(Step(s, e)).blocked
  {
    hide Step, Enabled, C.Possible, C.EffectOf, Apply;
    WaitingIs(s, e);
    LiftBlocked(s, C.Actor(e));
    EntersAlone(s, e);
  }

  lemma EntersAlone(s: State, e: Event)
    requires Enabled(s, e)
    ensures e.CallEnter? ==> e.n in s.sites && !s.sites[e.n].waiting
    ensures e.CallWake? ==> e.n in s.sites && s.sites[e.n].waiting
    ensures e.Join? ==> e.n !in s.sites
    ensures e.DeliverRequest? || e.DeliverGrant? ==> e.at in s.sites
    ensures e.CallRelease? ==> e.n in s.sites
  {}

  /** The same step, without a second entry. */
  lemma StepIsLifted(s: State, e: Event)
    ensures C.Possible(C.Lift(s), e) && !SecondEntry(C.Lift(s), e) <==> Enabled(s, e) && !Departs(e)
    ensures Enabled(s, e) && !Departs(e) ==> C.Next(C.Lift(s), e) == C.Lift(Step(s, e))
  {
    hide Step, Enabled, C.Possible, C.Next, SecondEntry;
    PossibleIsLifted(s, e);
    if Enabled(s, e) && !Departs(e) {
      StateIsLifted(s, e);
      BlockedIsLifted(s, e);
    }
  }

  /** With one caller at a time this is the protocol, and nobody is ever stranded. */
  lemma {:induction false} OneAtATime(s: State, es: seq<Event>)
    requires Reachable(s) && Settled(s) && C.IsCrowdRun(C.Lift(s), es) && NoSecondEntry(C.Lift(s), es)
    ensures IsRun(s, es) && C.AfterAll(C.Lift(s), es) == C.Lift(After(s, es))
    ensures Reachable(After(s, es)) && Settled(After(s, es))
    decreases |es|
  {
    hide Reachable, Enabled, Step, C.Lift, C.Possible, C.Next, SecondEntry;
    if es != [] {
      StepIsLifted(s, es[0]);
      ReachableStep(s, es[0]);
      StaysSettled(s, es[0]);
      OneAtATime(Step(s, es[0]), es[1..]);
    }
  }

  lemma StaysSettled(s: State, e: Event)
    requires Settled(s) && Enabled(s, e) && !Departs(e)
    ensures Settled(Step(s, e))
  {
    hide Exchange, Enter, Release, OnRequest;
    assert C.Actor(e) in Step(s, e).sites;
  }

  lemma NobodyStranded(s: State, m: NodeId)
    requires Reachable(s) && Settled(s)
    ensures !C.Stranded(C.Lift(s), m)
  {
    hide IsRun, After, Sound, ResetsDue, C.Claimed;
    ReachableInv(s);
    var b :| Sound(s, b);
    PendingIsClaimed(s, b, m);
    LiftBlocked(s, m);
  }

  lemma PendingIsClaimed(s: State, b: Books, m: NodeId)
    requires Sound(s, b)
    ensures Pending(s, m) ==> C.Claimed(s, m)
  {
    hide TreeInv, QueueInv, TokenInv, HasClaim;
    if Pending(s, m) { assert HasClaim(s, m, b.account.why[m]); }
  }

  /** Whoever does not wait for the token has no claim. */
  lemma NotPendingUnclaimed(s: State, n: NodeId)
    requires Reachable(s) && n in s.sites && !Pending(s, n)
    ensures !C.Claimed(s, n)
  {
    hide IsRun, After, TreeInv, QueueInv, TokenInv, HasClaim, Pending;
    ReachableInv(s);
    var b :| Sound(s, b);
  }

  // --- A newcomer asks `n`.

  lemma {:induction false} FreshPort(S: set<NodeId>) returns (k: int)
    ensures forall n :: n in S && n.Node? ==> n.port < k
    decreases |S|
  {
    k := 0;
    if n :| n in S {
      k := FreshPort(S - {n});
      if n.Node? && n.port >= k { k := n.port + 1; }
    }
  }

  lemma FreshNode(S: set<NodeId>) returns (z: NodeId)
    ensures z !in S && z != EmptyNode
  {
    var k := FreshPort(S);
    z := Node("", k);
  }

  /** A node that has just joined and asked, and is now in the `next` of `n`. */
  function Overtaken(c: Crowd, n: NodeId, z: NodeId): Crowd
    requires n in c.state.sites
  {
    var s := c.state;
    C.Crowd(
      State(s.sites[z := Waits(EmptyNode, EmptyNode)][n := s.sites[n].(next := z, father := z)], s.net, s.stale),
      c.blocked[z := 1])
  }

  function Newcomer(n: NodeId, z: NodeId): seq<Event> {
    [Join(z, n), CallEnter(z), DeliverRequest(n, z)]
  }

  lemma NewcomerJoins(c: Crowd, n: NodeId, z: NodeId)
    requires Settled(c.state) && n in c.state.sites && z !in c.state.sites && z != EmptyNode
    ensures C.Possible(c, Join(z, n))
    ensures C.Next(c, Join(z, n)) ==
      C.Crowd(Put(c.state, z, Fresh(n, false), c.state.net), c.blocked[z := 0])
  {
    C.NothingSent(c.state, z, Fresh(n, false));
  }

  lemma NewcomerAsks(c: Crowd, n: NodeId, z: NodeId)
    requires z in c.state.sites && c.state.sites[z] == Fresh(n, false) && n != EmptyNode && C.Blocked(c, z) == 0
    ensures C.Possible(c, CallEnter(z))
    ensures C.Next(c, CallEnter(z)) == C.Crowd(
      Put(c.state, z, Waits(EmptyNode, EmptyNode), c.state.net + multiset{RequestCs(n, z)}), c.blocked[z := 1])
  {
    assert Exchange(c.state.net, multiset{}, [RequestCs(n, z)]) == c.state.net + multiset{RequestCs(n, z)};
  }

  lemma NewcomerArrives(c: Crowd, n: NodeId, z: NodeId, net: multiset<Packet>)
    requires n in c.state.sites && c.state.net == net + multiset{RequestCs(n, z)}
    requires var t := c.state.sites[n]; t.father == EmptyNode && t.requesting && !t.leaving
    ensures C.Possible(c, DeliverRequest(n, z))
    ensures C.Next(c, DeliverRequest(n, z)) ==
      C.Crowd(Put(c.state, n, c.state.sites[n].(next := z, father := z), net), c.blocked)
  {
    assert Exchange(c.state.net, multiset{RequestCs(n, z)}, []) == net;
  }

  lemma Prepend(c: Crowd, e: Event, es: seq<Event>)
    requires C.Possible(c, e) && C.IsCrowdRun(C.Next(c, e), es)
    ensures C.IsCrowdRun(c, [e] + es) && C.AfterAll(c, [e] + es) == C.AfterAll(C.Next(c, e), es)
    ensures !SecondEntry(c, e) ==> (NoSecondEntry(c, [e] + es) <==> NoSecondEntry(C.Next(c, e), es))
  {
    hide C.Possible, C.Next, SecondEntry;
    assert ([e] + es)[1..] == es;
  }

  /** A newcomer's request gets into the `next` of a node that asks and has no father. */
  lemma NewcomerOvertakes(c: Crowd, n: NodeId, z: NodeId, es: seq<Event>)
    requires Settled(c.state) && n in c.state.sites && n != EmptyNode && z !in c.state.sites && z != EmptyNode
    requires var t := c.state.sites[n]; t.father == EmptyNode && t.requesting && !t.leaving
    requires C.IsCrowdRun(Overtaken(c, n, z), es) && NoSecondEntry(Overtaken(c, n, z), es)
    ensures var run := Newcomer(n, z) + es;
      C.IsCrowdRun(c, run) && NoSecondEntry(c, run) && C.AfterAll(c, run) == C.AfterAll(Overtaken(c, n, z), es)
  {
    hide C.Possible, C.Next, C.AfterAll, NoSecondEntry;
    NewcomerJoins(c, n, z);
    var c1 := C.Next(c, Join(z, n));
    NewcomerAsks(c1, n, z);
    var c2 := C.Next(c1, CallEnter(z));
    NewcomerArrives(c2, n, z, c.state.net);
    assert C.Next(c2, DeliverRequest(n, z)) == Overtaken(c, n, z);
    Prepend(c2, DeliverRequest(n, z), es);
    Prepend(c1, CallEnter(z), [DeliverRequest(n, z)] + es);
    Prepend(c, Join(z, n), [CallEnter(z)] + ([DeliverRequest(n, z)] + es));
    assert Newcomer(n, z) + es == [Join(z, n)] + ([CallEnter(z)] + ([DeliverRequest(n, z)] + es));
  }

  lemma OvertakenClaims(c: Crowd, n: NodeId, z: NodeId, m: NodeId)
    requires n in c.state.sites && z !in c.state.sites && m != z && m != EmptyNode
    ensures var s' := Overtaken(c, n, z).state;
      !C.Claimed(s', m) <==> !C.Claimed(c.state, m) || C.ClaimedOnlyBy(c.state, m, n)
  {
    hide C.Claimed, C.ClaimedOnlyBy;
    var s, s' := c.state, Overtaken(c, n, z).state;
    forall q ensures HasClaim(s', m, q) <==> HasClaim(s, m, q) && q != Queued(n) {}
    C.OneClaimLess(s, s', m, n);
  }

  // --- A release strands those who still wait.

  /** One caller of `n` uses the token, another one still stands in the loop. */
  predicate UsedAndAwaited(c: Crowd, n: NodeId) {
    && n in c.state.sites && n != EmptyNode && C.Blocked(c, n) > 0
    && var t := c.state.sites[n];
    && t.users == 1 && t.token && t.requesting && !t.leaving && (t.father == EmptyNode <==> t.next == EmptyNode)
  }

  lemma LastRelease(c: Crowd, n: NodeId)
    requires UsedAndAwaited(c, n) && !C.Claimed(c.state, n) && c.state.sites[n].next != EmptyNode
    ensures C.IsCrowdRun(c, [CallRelease(n)]) && NoSecondEntry(c, [CallRelease(n)])
    ensures C.Stranded(C.AfterAll(c, [CallRelease(n)]), n)
  {
    hide C.Claimed, C.Next;
    var e := CallRelease(n);
    if c.state.sites[n].next == n { C.HandedIsClaimed(c, n); }
    C.ReleaseStrands(c, e, n);
    assert C.IsCrowdRun(C.Next(c, e), []);
    Prepend(c, e, []);
    assert [e] + [] == [e];
  }

  lemma ReleaseHarms(c: Crowd, n: NodeId) returns (es: seq<Event>)
    requires Settled(c.state) && UsedAndAwaited(c, n) && !C.Claimed(c.state, n)
    ensures C.IsCrowdRun(c, es) && NoSecondEntry(c, es) && C.Stranded(C.AfterAll(c, es), n)
  {
    hide C.Claimed, C.Stranded, C.AfterAll, C.IsCrowdRun, NoSecondEntry, C.ClaimedOnlyBy;
    if c.state.sites[n].next != EmptyNode {
      LastRelease(c, n);
      es := [CallRelease(n)];
    } else {
      var z := FreshNode(c.state.sites.Keys);
      OvertakenClaims(c, n, z, n);
      LastRelease(Overtaken(c, n, z), n);
      NewcomerOvertakes(c, n, z, [CallRelease(n)]);
      es := Newcomer(n, z) + [CallRelease(n)];
    }
  }

  // --- The token comes to a waiting caller.

  /** The state with one more caller blocked at `n`. */
  function More(s: State, n: NodeId): Crowd {
    C.Crowd(s, C.Lift(s).blocked[n := 2])
  }

  lemma StepWithMore(s: State, n: NodeId, e: Event)
    requires n in s.sites && s.sites[n].waiting && Enabled(s, e) && DrainEvent(e) && e != CallWake(n)
    requires C.Possible(C.Lift(s), e) && C.Next(C.Lift(s), e) == C.Lift(Step(s, e))
    ensures C.Possible(More(s, n), e) && C.Next(More(s, n), e) == More(Step(s, e), n)
    ensures !SecondEntry(More(s, n), e)
  {
    hide Exchange, Step, OnRequest, Release, OnGrant;
    MoreBlocked(s, n, C.Actor(e));
    assert C.EffectOf(More(s, n), e) == C.EffectOf(C.Lift(s), e);
    assert C.BlockedAfter(More(s, n), e) == C.BlockedAfter(C.Lift(s), e)[n := 2];
  }

  lemma MoreBlocked(s: State, n: NodeId, m: NodeId)
    ensures C.Blocked(More(s, n), m) == if m == n then 2 else C.Blocked(C.Lift(s), m)
  {}

  lemma StaysWaiting(s: State, n: NodeId, e: Event)
    requires n in s.sites && s.sites[n].waiting && Enabled(s, e) && DrainEvent(e) && e != CallWake(n)
    ensures n in Step(s, e).sites && Step(s, e).sites[n].waiting
  {
    hide Step;
    WaitingIs(s, e);
  }

  lemma SomethingToDo(s: State, n: NodeId) returns (e: Event)
    requires Reachable(s) && n in s.sites && s.sites[n].waiting && !s.sites[n].token
    ensures DrainEvent(e) && Enabled(s, e) && e != CallWake(n)
  {
    hide Reachable, DrainEvent;
    if Drained(s) { NobodyIsLeft(s, n); }
    e :| DrainEvent(e) && Enabled(s, e);
  }

  /** Without new calls the token gets to a node that waits; with a second caller there as well. */
  lemma {:induction false} TokenComes(s: State, n: NodeId) returns (t: State, es: seq<Event>)
    requires Reachable(s) && Settled(s) && n in s.sites && s.sites[n].waiting
    ensures Reachable(t) && Settled(t) && n in t.sites && t.sites[n].waiting && t.sites[n].token
    ensures C.IsCrowdRun(More(s, n), es) && NoSecondEntry(More(s, n), es) && C.AfterAll(More(s, n), es) == More(t, n)
    decreases Work(s)
  {
    hide Reachable, Enabled, Step, DrainEvent, Work, Sound, C.Possible, C.Next, More, C.Lift, SecondEntry;
    if s.sites[n].token {
      t, es := s, [];
    } else {
      var e := SomethingToDo(s, n);
      var s' := Step(s, e);
      DrainStays(s, e);
      StepIsLifted(s, e);
      StepWithMore(s, n, e);
      StaysWaiting(s, n, e);
      t, es := TokenComes(s', n);
      Prepend(More(s, n), e, es);
      es := [e] + es;
    }
  }

  lemma DrainStays(s: State, e: Event)
    requires Reachable(s) && Settled(s) && Enabled(s, e) && DrainEvent(e)
    ensures Reachable(Step(s, e)) && Settled(Step(s, e)) && Work(Step(s, e)) < Work(s) && !Departs(e)
  {
    hide Reachable, Enabled, Step, Work, Sound;
    ReachableStep(s, e);
    StaysSettled(s, e);
    var b := SoundBooks(s);
    var b' := SoundBooks(Step(s, e));
    StepWorks(s, b, e, b');
  }

  // --- Every second entry.

  /** The entry of a caller at `n`, and a continuation in which nobody enters where somebody is
      blocked, leave a caller without a claim. */
  ghost predicate CanStrand(s: State, n: NodeId) {
    exists es, m :: StrandsBy(s, n, es, m)
  }

  ghost predicate StrandsBy(s: State, n: NodeId, es: seq<Event>, m: NodeId) {
    && C.Possible(C.Lift(s), CallEnter(n))
    && var c := C.Next(C.Lift(s), CallEnter(n));
    && C.IsCrowdRun(c, es) && NoSecondEntry(c, es) && C.Stranded(C.AfterAll(c, es), m)
  }

  lemma SiteFacts(s: State, n: NodeId)
    requires Reachable(s) && n in s.sites
    ensures n != EmptyNode && LocalOk(s.sites[n])
  {
    hide IsRun, After, TreeInv, QueueInv, TokenInv, ClaimInv;
    ReachableInv(s);
    var b :| Sound(s, b);
  }

  /** The token is there, and the first caller has not noticed yet. */
  lemma EntersBeforeWake(s: State, n: NodeId)
    requires Reachable(s) && Settled(s) && n in s.sites && s.sites[n].waiting && s.sites[n].token
    ensures CanStrand(s, n)
  {
    hide Reachable, C.Claimed, C.Stranded, C.AfterAll, C.IsCrowdRun, NoSecondEntry, NoRequestInFlight;
    SiteFacts(s, n);
    NotPendingUnclaimed(s, n);
    LiftBlocked(s, n);
    var c := C.Next(C.Lift(s), CallEnter(n));
    EnterHere(s, n);
    C.EnterClaims(C.Lift(s), n, n);
    var es := ReleaseHarms(c, n);
    assert StrandsBy(s, n, es, n);
  }

  lemma EnterHere(s: State, n: NodeId)
    requires n in s.sites && s.sites[n].token && s.sites[n].waiting && LocalOk(s.sites[n]) && n != EmptyNode && Settled(s)
    ensures C.Possible(C.Lift(s), CallEnter(n))
    ensures var c := C.Next(C.Lift(s), CallEnter(n)); UsedAndAwaited(c, n) && Settled(c.state)
  {}

  /** The request of the first caller is under way: the second one only stands beside it. */
  lemma EntersBeside(s: State, n: NodeId)
    requires Reachable(s) && Settled(s) && Pending(s, n) && s.sites[n].waiting && s.sites[n].father == EmptyNode
    ensures CanStrand(s, n)
  {
    hide Reachable, C.Claimed, C.Stranded, C.AfterAll, C.IsCrowdRun, NoSecondEntry;
    SiteFacts(s, n);
    EnterBeside(s, n);
    var t, es := TokenComes(s, n);
    SiteFacts(t, n);
    NotPendingUnclaimed(t, n);
    var c := C.Next(More(t, n), CallWake(n)) by { WakeHere(t, n); }
    WakeHere(t, n);
    C.OtherClaims(More(t, n), CallWake(n), n);
    var more := ReleaseHarms(c, n);
    Prepend(More(t, n), CallWake(n), more);
    Join2(More(s, n), es, [CallWake(n)] + more);
    assert StrandsBy(s, n, es + ([CallWake(n)] + more), n);
  }

  lemma EnterBeside(s: State, n: NodeId)
    requires n in s.sites && !s.sites[n].token && s.sites[n].waiting && s.sites[n].father == EmptyNode && LocalOk(s.sites[n])
    ensures C.Possible(C.Lift(s), CallEnter(n)) && C.Next(C.Lift(s), CallEnter(n)) == More(s, n)
  {
    LiftBlocked(s, n);
    C.NothingSent(s, n, s.sites[n]);
    assert Put(s, n, s.sites[n], s.net).sites == s.sites;
  }

  lemma WakeHere(s: State, n: NodeId)
    requires n in s.sites && s.sites[n].token && s.sites[n].waiting && LocalOk(s.sites[n]) && n != EmptyNode && Settled(s)
    ensures C.Possible(More(s, n), CallWake(n)) && !SecondEntry(More(s, n), CallWake(n))
    ensures var c := C.Next(More(s, n), CallWake(n)); UsedAndAwaited(c, n) && Settled(c.state)
  {
    MoreBlocked(s, n, n);
  }

  lemma {:induction false} Join2(c: Crowd, es: seq<Event>, more: seq<Event>)
    requires C.IsCrowdRun(c, es) && NoSecondEntry(c, es)
    requires C.IsCrowdRun(C.AfterAll(c, es), more) && NoSecondEntry(C.AfterAll(c, es), more)
    ensures C.IsCrowdRun(c, es + more) && NoSecondEntry(c, es + more)
    ensures C.AfterAll(c, es + more) == C.AfterAll(C.AfterAll(c, es), more)
    decreases |es|
  {
    hide C.Possible, C.Next, SecondEntry;
    if es == [] {
      assert es + more == more;
    } else {
      Join2(C.Next(c, es[0]), es[1..], more);
      Prepend(c, es[0], es[1..] + more);
      assert es + more == [es[0]] + (es[1..] + more);
    }
  }

  /** The first caller is queued before another node: the second request empties `father`, and
      the next request that arrives takes the place of that node. */
  lemma EntersTwice(s: State, n: NodeId)
    requires Reachable(s) && Settled(s) && Pending(s, n) && s.sites[n].father != EmptyNode
    ensures CanStrand(s, n)
  {
    hide Reachable, C.Claimed, C.ClaimedOnlyBy, C.Stranded, C.AfterAll, C.IsCrowdRun, NoSecondEntry;
    SiteFacts(s, n);
    var x := s.sites[n].next;
    QueuedFacts(s, n);
    var c := C.Next(C.Lift(s), CallEnter(n));
    EnterAgain(s, n);
    OnlyQueued(s, c, n, x);
    var z := FreshNode(c.state.sites.Keys);
    OvertakenClaims(c, n, z, x);
    LiftBlocked(s, x);
    assert C.Stranded(Overtaken(c, n, z), x) by { StrandedBehind(s, c, n, z, x); }
    NewcomerOvertakes(c, n, z, []) by { EmptyRun(Overtaken(c, n, z)); }
    EmptyRun(Overtaken(c, n, z));
    assert StrandsBy(s, n, Newcomer(n, z) + [], x);
  }

  lemma EmptyRun(c: Crowd)
    ensures C.IsCrowdRun(c, []) && NoSecondEntry(c, []) && C.AfterAll(c, []) == c
  {}

  /** The node in `next` waits for this one alone. */
  lemma QueuedFacts(s: State, n: NodeId)
    requires Reachable(s) && Settled(s) && n in s.sites && s.sites[n].next != EmptyNode
    ensures var x := s.sites[n].next; x != n && Pending(s, x) && C.ClaimedOnlyBy(s, x, n)
  {
    hide IsRun, After, TreeInv, QueueInv, TokenInv, Pending;
    QueuesAreChains(s);
    assert Successor(s, n, 1) != n by { assert n in s.sites; }
    ReachableInv(s);
    var b :| Sound(s, b);
    assert HasClaim(s, s.sites[n].next, Queued(n));
  }

  lemma EnterAgain(s: State, n: NodeId)
    requires Pending(s, n) && s.sites[n].father != EmptyNode && LocalOk(s.sites[n]) && Settled(s)
    ensures C.Possible(C.Lift(s), CallEnter(n))
    ensures var c := C.Next(C.Lift(s), CallEnter(n));
      && Settled(c.state) && n in c.state.sites
      && c.state.sites[n] == s.sites[n].(father := EmptyNode)
      && (forall m :: m != n ==> (m in c.state.sites <==> m in s.sites) && C.Blocked(c, m) == C.Blocked(C.Lift(s), m))
      && (forall m {:trigger s.sites[m]} :: m in s.sites && m != n ==> c.state.sites[m] == s.sites[m])
  {}

  lemma OnlyQueued(s: State, c: Crowd, n: NodeId, x: NodeId)
    requires n in s.sites && c == C.Next(C.Lift(s), CallEnter(n)) && x != n && !s.sites[n].token && C.ClaimedOnlyBy(s, x, n)
    ensures C.ClaimedOnlyBy(c.state, x, n)
  {
    forall q ensures HasClaim(c.state, x, q) <==> HasClaim(s, x, q) {}
  }

  lemma StrandedBehind(s: State, c: Crowd, n: NodeId, z: NodeId, x: NodeId)
    requires n in c.state.sites && x in s.sites && x in c.state.sites && c.state.sites[x] == s.sites[x] && x != n && x != z
    requires Pending(s, x) && C.Blocked(c, x) > 0 && !C.Claimed(Overtaken(c, n, z).state, x)
    ensures C.Stranded(Overtaken(c, n, z), x)
  {
    hide C.Claimed;
  }

  /** One entry can strand a caller exactly when another caller is blocked at that node. */
  lemma StrandsIff(s: State, n: NodeId)
    requires Reachable(s) && Settled(s) && n in s.sites
    ensures CanStrand(s, n) <==> s.sites[n].waiting
  {
    hide Reachable, Settled, CanStrand, C.IsCrowdRun, NoSecondEntry, C.AfterAll, C.Stranded, C.Next;
    if s.sites[n].waiting {
      if s.sites[n].token {
        EntersBeforeWake(s, n);
      } else if s.sites[n].father == EmptyNode {
        EntersBeside(s, n);
      } else {
        EntersTwice(s, n);
      }
    } else {
      AloneIsSafe(s, n);
    }
  }

  lemma AloneIsSafe(s: State, n: NodeId)
    requires Reachable(s) && Settled(s) && n in s.sites && !s.sites[n].waiting
    ensures !CanStrand(s, n)
  {
    hide Reachable, C.IsCrowdRun, NoSecondEntry, C.AfterAll, C.Stranded, C.Next, C.Lift;
    LiftBlocked(s, n);
    if es, m :| StrandsBy(s, n, es, m) {
      Prepend(C.Lift(s), CallEnter(n), es);
      OneAtATime(s, [CallEnter(n)] + es);
      NobodyStranded(After(s, [CallEnter(n)] + es), m);
    }
  }
}
