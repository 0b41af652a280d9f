/**
 The callers in the critical section, counted from their calls alone: `request_CS` has returned to
 them and they have not called `release_CS`. The variable `users` is this count, and no token
 leaves a node while somebody is counted there.
 */
module CsInside {
  import opened Nodes
  import opened NaimiTrehel
  import opened CsMachine
  import opened CsToken
  import opened CsSoundness
  import opened CsTheorems
  import C = CsCallers
  import F = CsForgery
  import L = CsLimits

  /** What an event does to the count of `n`: `request_CS` returns at once where the token is, or
      later when the blocked caller goes on. */
  function Moves(token: bool, e: Event, n: NodeId): int {
    if e == CallWake(n) || (e == CallEnter(n) && token) then 1 else if e == CallRelease(n) then -1 else 0
  }

  predicate HasToken(s: State, n: NodeId) {
    n in s.sites && s.sites[n].token
  }

  /** The count of `n` after the run, if it was `k` before. The caller that makes its node leave
      leaves with it. */
  function Inside(s: State, es: seq<Event>, n: NodeId, k: int): int
    requires IsRun(s, es)
    decreases |es|
  {
    if es == [] then k
    else Inside(Step(s, es[0]), es[1..], n,
      if es[0].CallLeave? && es[0].n == n then 0 else k + Moves(HasToken(s, n), es[0], n))
  }

  /** `users`, wherever the node is. */
  function UsersOf(s: State, n: NodeId): nat {
    if n in s.sites then s.sites[n].users else if n in s.stale then s.stale[n].users else 0
  }

  /** Nodes left behind are outside the protocol, and NEW_ROOT_CS finds nobody in it. */
  ghost predicate Apart(s: State) {
    && (forall n :: n in s.stale ==> n !in s.sites && s.stale[n].users == 0)
    && (forall n, l :: NewRootCs(n, l) in s.net ==> s.sites.Keys == {})
  }

  lemma InvApart(s: State)
    requires Inv(s)
    ensures Apart(s)
  {
    hide Sound, ResetsDue;
  }

  lemma SiteUsers(t: Site, me: NodeId, r: NodeId)
    ensures Enter(t, me).site.users == t.users + (if t.token then 1 else 0)
    ensures t.users > 0 ==> Release(t).site.users == t.users - 1
    ensures OnRequest(t, r).site.users == t.users && OnGrant(t).users == t.users && Wake(t).users == t.users + 1
    ensures OnReset(t, me, r).site.users == t.users && forall nodes :: OnNewRoot(t, me, nodes, r).site.users == t.users
  {}

  lemma UsersStep(s: State, e: Event, n: NodeId)
    requires Apart(s) && Enabled(s, e)
    ensures UsersOf(Step(s, e), n) ==
      if e.CallLeave? && e.n == n then 0 else UsersOf(s, n) + Moves(HasToken(s, n), e, n)
  {
    hide Exchange, Enter, Release, OnRequest, OnReset, OnNewRoot;
    var at := if e.DeliverRequest? || e.DeliverGrant? || e.DeliverNewRoot? || e.DeliverReset? then e.at else e.n;
    var r := if e.DeliverRequest? then e.requester else if e.DeliverReset? then e.root else if e.DeliverNewRoot? then e.leaver else at;
    if at in s.sites { SiteUsers(s.sites[at], at, r); }
    if at in s.stale { SiteUsers(s.stale[at], at, r); }
  }

  lemma {:induction false} UsersAfter(s: State, es: seq<Event>, n: NodeId)
    requires Inv(s) && IsRun(s, es)
    ensures UsersOf(After(s, es), n) == Inside(s, es, n, UsersOf(s, n))
    decreases |es|
  {
    hide Inv, Step, Enabled, Moves, UsersOf, HasToken;
    if es != [] {
      InvApart(s);
      UsersStep(s, es[0], n);
      StepKeepsInv(s, es[0]);
      UsersAfter(Step(s, es[0]), es[1..], n);
    }
  }

  /** `users` counts the callers in the critical section: in every run, for every node. */
  lemma UsersAreCallers(first: NodeId, es: seq<Event>, n: NodeId)
    requires first != EmptyNode && IsRun(Init(first), es)
    ensures UsersOf(After(Init(first), es), n) == Inside(Init(first), es, n, 0)
  {
    hide Inv, IsRun, After, Inside;
    InitInv(first);
    UsersAfter(Init(first), es, n);
    assert UsersOf(Init(first), n) == 0;
  }

  // --- Exclusion.

  /** A GET_CS to `x` is sent. */
  predicate SendsToken(s: State, e: Event, x: NodeId)
    requires Enabled(s, e)
  {
    Step(s, e).net[GetCs(x)] > s.net[GetCs(x)]
  }

  lemma SenderIsEmpty(s: State, e: Event, x: NodeId)
    requires Inv(s) && Enabled(s, e) && SendsToken(s, e, x)
    ensures e.CallRelease? || e.DeliverRequest?
    ensures UsersOf(Step(s, e), C.Actor(e)) == 0
  {
    hide Sound, ResetsDue, NoNewRoot;
    TokenSenders(s, e, x);
    if Rooted(s) && e.DeliverRequest? {
      var b :| Sound(s, b);
      LocalAt(s, b, e.at);
      AnswersWhenIdle(s, e, x);
    }
  }

  lemma LocalAt(s: State, b: Books, n: NodeId)
    requires Sound(s, b) && n in s.sites
    ensures LocalOk(s.sites[n])
  {
    hide TokenInv, ClaimInv, CsTree.TreeInv, CsQueue.QueueInv, WellFormed;
  }

  /** What a handler sends in a step. */
  function Sent(s: State, e: Event): seq<Packet>
    requires Enabled(s, e)
  {
    match e
    case CallEnter(n) => Enter(s.sites[n], n).sent
    case CallRelease(n) => Release(s.sites[n]).sent
    case DeliverRequest(at, r) => OnRequest(s.sites[at], r).sent
    case CallLeave(n, successor) => Depart(s.sites[n], n, successor).sent
    case DeliverNewRoot(at, l, nodes) => OnNewRoot(s.stale[at], at, nodes, l).sent
    case DeliverReset(at, root) => OnReset(s.stale[at], at, root).sent
    case _ => []
  }

  lemma NotSent(net: multiset<Packet>, taken: multiset<Packet>, sent: seq<Packet>, p: Packet)
    requires p !in sent
    ensures Exchange(net, taken, sent)[p] <= net[p]
  {}

  lemma OnlySentGrows(s: State, e: Event, p: Packet)
    requires Enabled(s, e) && p !in Sent(s, e)
    ensures Step(s, e).net[p] <= s.net[p]
  {
    hide Exchange, Enter, Release, OnRequest, Depart, OnNewRoot, OnReset;
    var taken :=
      match e
      case DeliverRequest(at, r) => multiset{RequestCs(at, r)}
      case DeliverGrant(at) => multiset{GetCs(at)}
      case DeliverNewRoot(at, l, _) => multiset{NewRootCs(at, l)}
      case DeliverReset(at, root) => multiset{ResetCs(at, root)}
      case _ => multiset{};
    NotSent(s.net, taken, Sent(s, e), p);
  }

  lemma TokenSenders(s: State, e: Event, x: NodeId)
    requires Enabled(s, e) && SendsToken(s, e, x)
    ensures e.CallRelease? || (e.DeliverRequest? && !s.sites[e.at].requesting)
    ensures e.CallRelease? ==> UsersOf(Step(s, e), e.n) == 0
  {
    hide Step, Exchange;
    if GetCs(x) !in Sent(s, e) { OnlySentGrows(s, e, GetCs(x)); }
    if e.DeliverNewRoot? { NoTokenInResets(e.nodes, e.at, x); }
    if e.CallRelease? { LastRelease(s, e.n, x); }
  }

  lemma LastRelease(s: State, n: NodeId, x: NodeId)
    requires Enabled(s, CallRelease(n)) && GetCs(x) in Release(s.sites[n]).sent
    ensures UsersOf(Step(s, CallRelease(n)), n) == 0
  {
    hide Exchange;
  }

  lemma NoTokenInResets(nodes: seq<NodeId>, root: NodeId, x: NodeId)
    ensures GetCs(x) !in Resets(nodes, root)
  {}

  lemma AnswersWhenIdle(s: State, e: Event, x: NodeId)
    requires Enabled(s, e) && e.DeliverRequest? && LocalOk(s.sites[e.at]) && !s.sites[e.at].requesting
    ensures UsersOf(Step(s, e), e.at) == 0
  {
    hide Exchange;
  }

  lemma OneMore(first: NodeId, es: seq<Event>, e: Event)
    requires IsRun(Init(first), es) && Enabled(After(Init(first), es), e)
    ensures IsRun(Init(first), es + [e]) && After(Init(first), es + [e]) == Step(After(Init(first), es), e)
  {
    L.RunExtends(Init(first), es, e);
  }

  /** After any run: the token leaves a node only when the last caller there has released, and
      callers are in the critical section on one node at most. */
  lemma TokenWaitsForCallers(first: NodeId, es: seq<Event>, e: Event, x: NodeId)
    requires first != EmptyNode && IsRun(Init(first), es) && Enabled(After(Init(first), es), e)
    requires SendsToken(After(Init(first), es), e, x)
    ensures IsRun(Init(first), es + [e]) && Inside(Init(first), es + [e], C.Actor(e), 0) == 0
  {
    hide Inv, IsRun, After, Inside, SendsToken, UsersOf, Enabled, Step;
    InitInv(first);
    RunKeepsInv(Init(first), es);
    OneMore(first, es, e);
    SenderIsEmpty(After(Init(first), es), e, x);
    UsersAreCallers(first, es + [e], C.Actor(e));
  }

  lemma CallersAreOnOneNode(first: NodeId, es: seq<Event>, n: NodeId, m: NodeId)
    requires first != EmptyNode && IsRun(Init(first), es)
    requires Inside(Init(first), es, n, 0) > 0 && Inside(Init(first), es, m, 0) > 0
    ensures n == m
  {
    hide Inv, IsRun, After, Inside;
    UsersAreCallers(first, es, n);
    UsersAreCallers(first, es, m);
    var s := After(Init(first), es);
    assert Reachable(s);
    MutualExclusion(s);
    assert InCriticalSection(s, n) && InCriticalSection(s, m);
  }

  // --- Any number of local callers.

  /** The same count over a run with any number of callers in the wait loops. */
  function CrowdInside(c: C.Crowd, es: seq<Event>, n: NodeId, k: int): int
    requires C.IsCrowdRun(c, es)
    decreases |es|
  {
    if es == [] then k
    else CrowdInside(C.Next(c, es[0]), es[1..], n, k + Moves(HasToken(c.state, n), es[0], n))
  }

  lemma CrowdUsersStep(c: C.Crowd, e: Event, n: NodeId)
    requires C.CrowdInv(c) && C.Possible(c, e)
    ensures UsersOf(C.Next(c, e).state, n) == UsersOf(c.state, n) + Moves(HasToken(c.state, n), e, n)
  {
    hide C.SitesOk, C.NodesOk, Exchange, Enter, Release, OnRequest;
    C.NamesAt(c.state, n);
    var at := C.Actor(e);
    if at in c.state.sites { SiteUsers(c.state.sites[at], at, if e.DeliverRequest? then e.requester else at); }
  }

  lemma {:induction false} CrowdUsersAfter(c: C.Crowd, es: seq<Event>, n: NodeId)
    requires C.CrowdInv(c) && C.IsCrowdRun(c, es)
    ensures UsersOf(C.AfterAll(c, es).state, n) == CrowdInside(c, es, n, UsersOf(c.state, n))
    decreases |es|
  {
    hide C.CrowdInv, C.Next, C.Possible, Moves, UsersOf, HasToken;
    if es != [] {
      CrowdUsersStep(c, es[0], n);
      C.StepKeepsCrowdInv(c, es[0]);
      CrowdUsersAfter(C.Next(c, es[0]), es[1..], n);
    }
  }

  /** With any number of callers on each node, too, `users` counts those in the critical section. */
  lemma CrowdUsersAreCallers(first: NodeId, es0: seq<Event>, es: seq<Event>, n: NodeId)
    requires first != EmptyNode && IsRun(Init(first), es0) && Settled(After(Init(first), es0))
    requires C.IsCrowdRun(C.Lift(After(Init(first), es0)), es)
    ensures var c := C.Lift(After(Init(first), es0));
      UsersOf(C.AfterAll(c, es).state, n) == CrowdInside(c, es, n, Inside(Init(first), es0, n, 0))
  {
    hide Settled, C.CrowdInv, IsRun, After, Inside, C.IsCrowdRun, C.AfterAll, CrowdInside, UsersOf, C.Lift;
    var s := After(Init(first), es0);
    assert Reachable(s);
    C.LiftInv(s);
    UsersAreCallers(first, es0, n);
    LiftState(s);
    CrowdUsersAfter(C.Lift(s), es, n);
  }

  lemma LiftState(s: State)
    ensures C.Lift(s).state == s
  {}

  predicate CrowdSendsToken(c: C.Crowd, e: Event, x: NodeId)
    requires C.Possible(c, e)
  {
    C.Next(c, e).state.net[GetCs(x)] > c.state.net[GetCs(x)]
  }

  /** Then the token leaves a node with a caller in the critical section exactly in the step that
      sends it away under its users. */
  lemma TokenLeavesCallersIff(c: C.Crowd, e: Event, x: NodeId)
    requires C.CrowdInv(c) && C.Possible(c, e) && CrowdSendsToken(c, e, x)
    ensures UsersOf(C.Next(c, e).state, C.Actor(e)) > 0 <==> F.Exposes(c, e, C.Actor(e))
  {
    hide C.SitesOk, C.NodesOk, Exchange;
    if GetCs(x) !in C.EffectOf(c, e).sent { NotSent(c.state.net, C.Taken(e), C.EffectOf(c, e).sent, GetCs(x)); }
    if e.DeliverRequest? { C.SiteOkAt(c, e.at); }
  }

  lemma CrowdCallersOnOneNode(first: NodeId, es0: seq<Event>, es: seq<Event>, n: NodeId, m: NodeId)
    requires first != EmptyNode && IsRun(Init(first), es0) && Settled(After(Init(first), es0))
    requires C.IsCrowdRun(C.Lift(After(Init(first), es0)), es) && F.Sane(C.Lift(After(Init(first), es0)), es)
    requires CrowdInside(C.Lift(After(Init(first), es0)), es, n, Inside(Init(first), es0, n, 0)) > 0
    requires CrowdInside(C.Lift(After(Init(first), es0)), es, m, Inside(Init(first), es0, m, 0)) > 0
    ensures n == m
  {
    hide Settled, IsRun, After, Inside, C.IsCrowdRun, C.AfterAll, CrowdInside, C.Lift, F.Sane;
    var s := After(Init(first), es0);
    assert Reachable(s);
    CrowdUsersAreCallers(first, es0, es, n);
    CrowdUsersAreCallers(first, es0, es, m);
    CrowdInProtocol(s, es, n);
    CrowdInProtocol(s, es, m);
    F.ExclusionWhileSane(s, es, n, m);
  }

  lemma CrowdInProtocol(s: State, es: seq<Event>, n: NodeId)
    requires Reachable(s) && Settled(s) && C.IsCrowdRun(C.Lift(s), es)
    ensures var t := C.AfterAll(C.Lift(s), es).state; UsersOf(t, n) > 0 ==> InCriticalSection(t, n)
  {
    hide Settled, Reachable, C.IsCrowdRun, C.AfterAll, C.Lift, C.SitesOk, C.NodesOk;
    C.LiftInv(s);
    C.RunKeepsCrowdInv(C.Lift(s), es);
    C.NamesAt(C.AfterAll(C.Lift(s), es).state, n);
  }
}
