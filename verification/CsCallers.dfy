/**
 Any number of local callers: threads of one node that stand in the wait loop of `request_CS` at
 the same time. When a waiting caller is left without a claim, and when a token is made up.
 */
module CsCallers {
  import opened Nodes
  import opened NaimiTrehel
  import opened CsMachine
  import opened CsToken
  import opened CsSoundness
  import opened CsTheorems

  /** The protocol's state, and how many callers stand in the wait loop of each node; `waiting`
      says that there is one. */
  datatype Crowd = Crowd(state: State, blocked: map<NodeId, nat>)

  function Blocked(c: Crowd, n: NodeId): nat {
    if n in c.blocked then c.blocked[n] else 0
  }

  /** When an event can happen, now without asking that nobody is blocked where a caller enters.
      Nobody leaves. */
  predicate Possible(c: Crowd, e: Event) {
    match e
    case CallEnter(n) => n in c.state.sites
    case CallWake(n) => n in c.state.sites && Blocked(c, n) > 0 && c.state.sites[n].token
    case CallRelease(n) => Enabled(c.state, e)
    case DeliverRequest(at, r) => Enabled(c.state, e)
    case DeliverGrant(at) => Enabled(c.state, e)
    case Join(n, contact) => Enabled(c.state, e)
    case _ => false
  }

  /** The node whose variables the event changes. */
  function Actor(e: Event): NodeId {
    if e.DeliverRequest? || e.DeliverGrant? || e.DeliverNewRoot? || e.DeliverReset? then e.at else e.n
  }

  /** What it does there. When a caller goes on, the others stay in the loop. */
  function EffectOf(c: Crowd, e: Event): Effect
    requires Possible(c, e)
  {
    match e
    case CallEnter(n) => Enter(c.state.sites[n], n)
    case CallWake(n) => Effect(Wake(c.state.sites[n]).(waiting := Blocked(c, n) > 1), [])
    case CallRelease(n) => Release(c.state.sites[n])
    case DeliverRequest(at, r) => OnRequest(c.state.sites[at], r)
    case DeliverGrant(at) => Effect(OnGrant(c.state.sites[at]), [])
    case Join(n, contact) => Effect(Fresh(contact, false), [])
  }

  function Taken(e: Event): multiset<Packet> {
    match e
    case DeliverRequest(at, r) => multiset{RequestCs(at, r)}
    case DeliverGrant(at) => multiset{GetCs(at)}
    case _ => multiset{}
  }

  function BlockedAfter(c: Crowd, e: Event): map<NodeId, nat>
    requires Possible(c, e)
  {
    match e
    case CallEnter(n) => if c.state.sites[n].token then c.blocked else c.blocked[n := Blocked(c, n) + 1]
    case CallWake(n) => c.blocked[n := Blocked(c, n) - 1]
    case Join(n, _) => c.blocked[n := 0]
    case _ => c.blocked
  }

  function Next(c: Crowd, e: Event): Crowd
    requires Possible(c, e)
  {
    Crowd(Apply(c.state, Actor(e), Taken(e), EffectOf(c, e)), BlockedAfter(c, e))
  }

  predicate IsCrowdRun(c: Crowd, es: seq<Event>)
    decreases |es|
  {
    es == [] || (Possible(c, es[0]) && IsCrowdRun(Next(c, es[0]), es[1..]))
  }

  function AfterAll(c: Crowd, es: seq<Event>): Crowd
    requires IsCrowdRun(c, es)
    decreases |es|
  {
    if es == [] then c else AfterAll(Next(c, es[0]), es[1..])
  }

  /** A state of the protocol with at most one blocked caller for each node. */
  function Lift(s: State): Crowd {
    Crowd(s, map n | n in s.sites :: if s.sites[n].waiting then 1 else 0)
  }

  /** Callers come in any number once the protocol, with one at a time until then, has settled. */
  ghost predicate CrowdReachable(c: Crowd) {
    exists s, es :: Reachable(s) && Settled(s) && IsCrowdRun(Lift(s), es) && c == AfterAll(Lift(s), es)
  }

  // --- What every step keeps.

  predicate SiteOk(t: Site, blocked: nat) {
    !t.leaving && (t.waiting <==> blocked > 0)
  }

  ghost predicate SitesOk(c: Crowd) {
    && (forall n {:trigger c.state.sites[n]} :: n in c.state.sites ==> SiteOk(c.state.sites[n], Blocked(c, n)))
    && (forall n :: n in c.blocked ==> n in c.state.sites)
  }

  ghost predicate NodesOk(s: State) {
    && EmptyNode !in s.sites && s.stale.Keys == {}
    && (forall n {:trigger s.sites[n]} :: n in s.sites ==> NamesOk(s, s.sites[n]))
    && (forall p :: p in s.net ==> EndsOk(s, p))
  }

  ghost predicate CrowdInv(c: Crowd) {
    SitesOk(c) && NodesOk(c.state)
  }

  lemma SiteStays(c: Crowd, n: NodeId, t: Site, net: multiset<Packet>, blocked: map<NodeId, nat>)
    requires SitesOk(c) && n in c.state.sites && blocked.Keys <= c.blocked.Keys + {n}
    requires forall m :: m != n ==> Blocked(Crowd(c.state, blocked), m) == Blocked(c, m)
    requires SiteOk(t, Blocked(Crowd(c.state, blocked), n))
    ensures SitesOk(Crowd(Put(c.state, n, t, net), blocked))
  {
    var c' := Crowd(Put(c.state, n, t, net), blocked);
    forall m | m in c'.state.sites ensures SiteOk(c'.state.sites[m], Blocked(c', m)) {
      assert m != n ==> SiteOk(c.state.sites[m], Blocked(c, m));
    }
  }

  lemma StepKeepsSites(c: Crowd, e: Event)
    requires SitesOk(c) && Possible(c, e)
    ensures SitesOk(Next(c, e))
  {
    hide SitesOk, Exchange;
    if e.Join? {
      JoinKeepsSites(c, e);
    } else {
      SiteOkAt(c, Actor(e));
      SiteStays(c, Actor(e), EffectOf(c, e).site, Next(c, e).state.net, BlockedAfter(c, e));
    }
  }

  lemma SiteOkAt(c: Crowd, n: NodeId)
    requires SitesOk(c) && n in c.state.sites
    ensures SiteOk(c.state.sites[n], Blocked(c, n))
  {}

  lemma JoinKeepsSites(c: Crowd, e: Event)
    requires SitesOk(c) && Possible(c, e) && e.Join?
    ensures SitesOk(Next(c, e))
  {
    var c' := Next(c, e);
    forall m | m in c'.state.sites ensures SiteOk(c'.state.sites[m], Blocked(c', m)) {
      assert m != e.n ==> SiteOk(c.state.sites[m], Blocked(c, m));
    }
  }

  lemma PutKeepsNodes(s: State, n: NodeId, t: Site, net: multiset<Packet>)
    requires NodesOk(s) && n != EmptyNode && NamesOk(Put(s, n, t, net), t)
    requires forall p :: p in net ==> p in s.net || EndsOk(s, p)
    ensures NodesOk(Put(s, n, t, net))
  {
    var s' := Put(s, n, t, net);
    forall m | m in s'.sites ensures NamesOk(s', s'.sites[m]) {
      assert m != n ==> NamesOk(s, s.sites[m]);
    }
    forall p | p in s'.net ensures EndsOk(s', p) { assert EndsOk(s, p); }
  }

  lemma NewNames(c: Crowd, e: Event)
    requires Possible(c, e) && NodesOk(c.state)
    ensures Actor(e) != EmptyNode && NamesOk(Next(c, e).state, EffectOf(c, e).site)
  {
    hide NodesOk, Exchange;
    NamesAt(c.state, Actor(e));
    if e.DeliverRequest? { MailAt(c.state, RequestCs(e.at, e.requester)); }
  }

  lemma NewMail(c: Crowd, e: Event, p: Packet)
    requires Possible(c, e) && NodesOk(c.state) && p in EffectOf(c, e).sent
    ensures EndsOk(c.state, p)
  {
    hide NodesOk;
    NamesAt(c.state, Actor(e));
    if e.DeliverRequest? { MailAt(c.state, RequestCs(e.at, e.requester)); }
  }

  lemma StepKeepsNodes(c: Crowd, e: Event)
    requires NodesOk(c.state) && Possible(c, e)
    ensures NodesOk(Next(c, e).state)
  {
    hide NodesOk, Possible, NamesOk, EndsOk, EffectOf;
    NewNames(c, e);
    var net := Next(c, e).state.net;
    forall p | p in net ensures p in c.state.net || EndsOk(c.state, p) {
      if p in EffectOf(c, e).sent { NewMail(c, e, p); }
    }
    PutKeepsNodes(c.state, Actor(e), EffectOf(c, e).site, net);
  }

  lemma NamesAt(s: State, n: NodeId)
    requires NodesOk(s)
    ensures n in s.sites ==> n != EmptyNode && NamesOk(s, s.sites[n])
    ensures s.stale == map[]
  {
    assert s.stale.Keys == {} ==> s.stale == map[];
  }

  lemma MailAt(s: State, p: Packet)
    requires NodesOk(s) && p in s.net
    ensures EndsOk(s, p)
  {}

  lemma StepKeepsCrowdInv(c: Crowd, e: Event)
    requires CrowdInv(c) && Possible(c, e)
    ensures CrowdInv(Next(c, e))
  {
    hide Next, Possible, SitesOk, NodesOk;
    StepKeepsSites(c, e);
    StepKeepsNodes(c, e);
  }

  lemma {:induction false} RunKeepsCrowdInv(c: Crowd, es: seq<Event>)
    requires CrowdInv(c) && IsCrowdRun(c, es)
    ensures CrowdInv(AfterAll(c, es))
    decreases |es|
  {
    hide CrowdInv, Next, Possible;
    if es != [] {
      StepKeepsCrowdInv(c, es[0]);
      RunKeepsCrowdInv(Next(c, es[0]), es[1..]);
    }
  }

  lemma LiftInv(s: State)
    requires Reachable(s) && Settled(s)
    ensures CrowdInv(Lift(s))
  {
    hide IsRun, After, Sound;
    ReachableInv(s);
    var b :| Sound(s, b);
    LiftedSites(s, b);
    LiftedNodes(s, b);
  }

  lemma LiftedSites(s: State, b: Books)
    requires Sound(s, b)
    ensures SitesOk(Lift(s))
  {
    hide TokenInv, ClaimInv, WellFormed, CsTree.TreeInv, CsQueue.QueueInv;
    forall n | n in s.sites ensures SiteOk(s.sites[n], Blocked(Lift(s), n)) { assert LocalOk(s.sites[n]); }
  }

  lemma LiftedNodes(s: State, b: Books)
    requires Sound(s, b) && s.stale.Keys == {}
    ensures NodesOk(s)
  {
    hide TokenInv, ClaimInv, LocalInv, CsTree.TreeInv, CsQueue.QueueInv;
    forall p | p in s.net ensures EndsOk(s, p) { assert PacketOk(s, p); }
  }

  lemma CrowdReachableInv(c: Crowd)
    requires CrowdReachable(c)
    ensures CrowdInv(c)
  {
    hide CrowdInv, Lift, Settled, Reachable;
    var s, es :| Reachable(s) && Settled(s) && IsCrowdRun(Lift(s), es) && c == AfterAll(Lift(s), es);
    LiftInv(s);
    RunKeepsCrowdInv(Lift(s), es);
  }

  // --- Who has a claim after a step.

  ghost predicate Claimed(s: State, m: NodeId) {
    exists q :: HasClaim(s, m, q)
  }

  lemma ClaimedAfter(s: State, s': State, m: NodeId)
    requires forall q :: HasClaim(s', m, q) <==> HasClaim(s, m, q)
    ensures Claimed(s', m) <==> Claimed(s, m)
  {
    hide HasClaim;
  }

  lemma ClaimedNow(s: State, m: NodeId, q: Claim)
    requires HasClaim(s, m, q)
    ensures Claimed(s, m)
  {}

  /** The only reason why `m` will get the token is that `d` keeps it in `next`. */
  ghost predicate ClaimedOnlyBy(s: State, m: NodeId, d: NodeId) {
    HasClaim(s, m, Queued(d)) && forall q :: HasClaim(s, m, q) ==> q == Queued(d)
  }

  lemma SendClaims(s: State, d: NodeId, t: Site, taken: multiset<Packet>, p: Packet, m: NodeId)
    requires d in s.sites && m != EmptyNode && (p.RequestCs? || p.GetCs?)
    requires t.next == s.sites[d].next || (s.sites[d].next != m && t.next != m)
    requires forall q :: q in taken ==> q.RequestCs? && q.requester != m
    ensures var r := if p.RequestCs? then p.requester else p.dst;
      Claimed(Apply(s, d, taken, Effect(t, [p])), m) <==> Claimed(s, m) || m == r
  {
    hide Claimed;
    var s' := Apply(s, d, taken, Effect(t, [p]));
    var own := if p.RequestCs? then Asking(p.dst) else Granted;
    var r := if p.RequestCs? then p.requester else p.dst;
    assert s'.net == s.net - taken + multiset{p};
    if m == r {
      ClaimedNow(s', m, own);
    } else {
      forall q ensures HasClaim(s', m, q) <==> HasClaim(s, m, q) {}
      ClaimedAfter(s, s', m);
    }
  }

  lemma QuietClaims(s: State, d: NodeId, t: Site, m: NodeId)
    requires m != EmptyNode && t.next == if d in s.sites then s.sites[d].next else EmptyNode
    ensures Claimed(Put(s, d, t, s.net), m) <==> Claimed(s, m)
  {
    hide Claimed;
    forall q ensures HasClaim(Put(s, d, t, s.net), m, q) <==> HasClaim(s, m, q) {}
    ClaimedAfter(s, Put(s, d, t, s.net), m);
  }

  lemma NothingSent(s: State, n: NodeId, t: Site)
    ensures Apply(s, n, multiset{}, Effect(t, [])) == Put(s, n, t, s.net)
  {
    assert Exchange(s.net, multiset{}, []) == s.net;
  }

  // --- Callers without a claim.

  /** A caller of `m` waits, and nothing will bring the token to `m`. */
  ghost predicate Stranded(c: Crowd, m: NodeId) {
    m in c.state.sites && Blocked(c, m) > 0 && !c.state.sites[m].token && !Claimed(c.state, m)
  }

  /** The steps that leave a caller of `m` without a claim: a caller that enters where there is
      neither token nor father; a last release, or the answer to a request, that sends the token
      away although callers still wait for it; a second request that is put in the place of `m`. */
  ghost predicate Strands(c: Crowd, e: Event, m: NodeId)
    requires Possible(c, e)
  {
    match e
    case CallEnter(n) =>
      n == m && !c.state.sites[n].token && c.state.sites[n].father == EmptyNode && !Claimed(c.state, m)
    case CallRelease(n) =>
      && n == m && c.state.sites[n].users == 1 && Blocked(c, m) > 0
      && c.state.sites[n].next != EmptyNode && c.state.sites[n].next != m && !Claimed(c.state, m)
    case DeliverRequest(d, r) =>
      && c.state.sites[d].father == EmptyNode && r != m && Blocked(c, m) > 0
      && if c.state.sites[d].requesting then m in c.state.sites && !c.state.sites[m].token && ClaimedOnlyBy(c.state, m, d)
         else d == m && !Claimed(c.state, m)
    case _ => false
  }

  /** A second request for `m` is not affected, and `d` forgets whom it kept in `next`. */
  lemma AcceptClaims(s: State, d: NodeId, r: NodeId, t: Site, m: NodeId)
    requires d in s.sites && m != EmptyNode && m != r && t.next == r
    ensures var s' := Apply(s, d, multiset{RequestCs(d, r)}, Effect(t, []));
      !Claimed(s', m) <==> !Claimed(s, m) || ClaimedOnlyBy(s, m, d)
  {
    hide Claimed, ClaimedOnlyBy;
    var s' := Apply(s, d, multiset{RequestCs(d, r)}, Effect(t, []));
    assert s'.net == s.net - multiset{RequestCs(d, r)};
    forall q ensures HasClaim(s', m, q) <==> HasClaim(s, m, q) && q != Queued(d) {}
    OneClaimLess(s, s', m, d);
  }

  lemma OneClaimLess(s: State, s': State, m: NodeId, d: NodeId)
    requires forall q :: HasClaim(s', m, q) <==> HasClaim(s, m, q) && q != Queued(d)
    ensures !Claimed(s', m) <==> !Claimed(s, m) || ClaimedOnlyBy(s, m, d)
  {
    hide HasClaim;
    if q :| HasClaim(s, m, q) && q != Queued(d) { assert HasClaim(s', m, q); }
  }

  /** Who has a claim after a request was delivered. */
  lemma RequestClaims(c: Crowd, d: NodeId, r: NodeId, m: NodeId)
    requires Possible(c, DeliverRequest(d, r)) && m != EmptyNode && !c.state.sites[d].leaving
    ensures var t, s' := c.state.sites[d], Next(c, DeliverRequest(d, r)).state;
      !Claimed(s', m) <==>
        (m != r && (!Claimed(c.state, m) || (t.father == EmptyNode && t.requesting && ClaimedOnlyBy(c.state, m, d))))
  {
    hide Claimed, ClaimedOnlyBy, Apply, HasClaim;
    var s, t, s' := c.state, c.state.sites[d], Next(c, DeliverRequest(d, r)).state;
    if m == r {
      RequesterIsClaimed(c, d, r);
    } else if t.father != EmptyNode {
      SendClaims(s, d, t.(father := r), multiset{RequestCs(d, r)}, RequestCs(t.father, r), m);
    } else if t.requesting {
      AcceptClaims(s, d, r, t.(next := r, father := r), m);
    } else {
      SendClaims(s, d, t.(token := false, father := r), multiset{RequestCs(d, r)}, GetCs(r), m);
    }
  }

  lemma RequesterIsClaimed(c: Crowd, d: NodeId, r: NodeId)
    requires Possible(c, DeliverRequest(d, r)) && !c.state.sites[d].leaving
    ensures Claimed(Next(c, DeliverRequest(d, r)).state, r)
  {
    hide Claimed;
    var t, s' := c.state.sites[d], Next(c, DeliverRequest(d, r)).state;
    if t.father != EmptyNode {
      ClaimedNow(s', r, Asking(t.father));
    } else if t.requesting {
      ClaimedNow(s', r, Queued(d));
    } else {
      ClaimedNow(s', r, Granted);
    }
  }

  /** A release takes nobody's claim away: whoever was kept in `next` is granted the token. */
  lemma ReleaseClaims(c: Crowd, n: NodeId, m: NodeId)
    requires Possible(c, CallRelease(n)) && m != EmptyNode
    ensures Claimed(Next(c, CallRelease(n)).state, m) <==> Claimed(c.state, m)
  {
    hide Claimed, HasClaim, Apply;
    var s, t := c.state, c.state.sites[n];
    if t.users > 1 || t.next == EmptyNode {
      NothingSent(s, n, Release(t).site);
      QuietClaims(s, n, Release(t).site, m);
    } else if t.next == m {
      HandedIsClaimed(c, n);
    } else {
      SendClaims(s, n, Release(t).site, multiset{}, GetCs(t.next), m);
    }
  }

  lemma HandedIsClaimed(c: Crowd, n: NodeId)
    requires Possible(c, CallRelease(n)) && c.state.sites[n].users == 1 && c.state.sites[n].next != EmptyNode
    ensures Claimed(c.state, c.state.sites[n].next)
    ensures Claimed(Next(c, CallRelease(n)).state, c.state.sites[n].next)
  {
    hide Claimed;
    ClaimedNow(c.state, c.state.sites[n].next, Queued(n));
    ClaimedNow(Next(c, CallRelease(n)).state, c.state.sites[n].next, Granted);
  }

  lemma EnterClaims(c: Crowd, n: NodeId, m: NodeId)
    requires Possible(c, CallEnter(n)) && m != EmptyNode
    ensures Claimed(Next(c, CallEnter(n)).state, m) <==>
      Claimed(c.state, m) || (m == n && !c.state.sites[n].token && c.state.sites[n].father != EmptyNode)
  {
    hide Claimed, HasClaim, Apply;
    var s, t := c.state, c.state.sites[n];
    if t.token || t.father == EmptyNode {
      NothingSent(s, n, Enter(t, n).site);
      QuietClaims(s, n, Enter(t, n).site, m);
    } else {
      SendClaims(s, n, Enter(t, n).site, multiset{}, RequestCs(t.father, n), m);
    }
  }

  lemma OtherClaims(c: Crowd, e: Event, m: NodeId)
    requires Possible(c, e) && m != EmptyNode && (e.CallWake? || e.Join? || (e.DeliverGrant? && e.at != m))
    ensures Claimed(Next(c, e).state, m) <==> Claimed(c.state, m)
  {
    hide Claimed;
    var s, s' := c.state, Next(c, e).state;
    forall q ensures HasClaim(s', m, q) <==> HasClaim(s, m, q) {}
    ClaimedAfter(s, s', m);
  }

  // --- The steps that strand a caller.

  /** The call that gives the callers of a node without a claim a new one. */
  predicate Rescues(c: Crowd, e: Event, m: NodeId) {
    e == CallEnter(m) && m in c.state.sites && c.state.sites[m].father != EmptyNode
  }

  /** What happens to the variables of `m` in a step. */
  lemma SiteAfter(c: Crowd, e: Event, m: NodeId)
    requires Possible(c, e) && m in c.state.sites
    ensures m in Next(c, e).state.sites
    ensures var t := if m == Actor(e) then EffectOf(c, e).site else c.state.sites[m];
      Next(c, e).state.sites[m] == t
    ensures Blocked(Next(c, e), m) == Blocked(c, m) + (
      if e == CallEnter(m) && !c.state.sites[m].token then 1 else if e == CallWake(m) then -1 else 0)
  {
    hide EffectOf, Exchange;
  }

  lemma EnterStrands(c: Crowd, e: Event, m: NodeId)
    requires m in c.state.sites && m != EmptyNode && Possible(c, e) && e.CallEnter?
    ensures Stranded(Next(c, e), m) <==> if Stranded(c, m) then !Rescues(c, e, m) else Strands(c, e, m)
  {
    hide Claimed, Next;
    SiteAfter(c, e, m);
    EnterClaims(c, e.n, m);
  }

  lemma ReleaseStrands(c: Crowd, e: Event, m: NodeId)
    requires m in c.state.sites && m != EmptyNode && Possible(c, e) && e.CallRelease?
    ensures Stranded(Next(c, e), m) <==> if Stranded(c, m) then !Rescues(c, e, m) else Strands(c, e, m)
  {
    hide Claimed, Next;
    SiteAfter(c, e, m);
    ReleaseClaims(c, e.n, m);
    if e.n == m && c.state.sites[m].users == 1 && c.state.sites[m].next == m { HandedIsClaimed(c, m); }
  }

  lemma RequestStrands(c: Crowd, e: Event, m: NodeId)
    requires m in c.state.sites && m != EmptyNode && Possible(c, e) && e.DeliverRequest? && !c.state.sites[e.at].leaving
    ensures Stranded(Next(c, e), m) <==> if Stranded(c, m) then !Rescues(c, e, m) else Strands(c, e, m)
  {
    hide Claimed, ClaimedOnlyBy, Next;
    SiteAfter(c, e, m);
    RequestClaims(c, e.at, e.requester, m);
    ClaimedNow(c.state, e.requester, Asking(e.at));
    OnlyIsOne(c.state, m, e.at);
  }

  lemma OnlyIsOne(s: State, m: NodeId, d: NodeId)
    ensures ClaimedOnlyBy(s, m, d) ==> Claimed(s, m)
  {}

  lemma OtherStrands(c: Crowd, e: Event, m: NodeId)
    requires m in c.state.sites && m != EmptyNode && Possible(c, e) && (e.CallWake? || e.Join? || e.DeliverGrant?)
    ensures Stranded(Next(c, e), m) <==> if Stranded(c, m) then !Rescues(c, e, m) else Strands(c, e, m)
  {
    hide Claimed, Next;
    SiteAfter(c, e, m);
    if e == DeliverGrant(m) {
      ClaimedNow(c.state, m, Granted);
    } else {
      OtherClaims(c, e, m);
    }
  }

  /** Exactly these steps leave a caller without a claim, and only a new call at the same node,
      while that node has a father, gives it one again. */
  lemma StrandedIff(c: Crowd, e: Event, m: NodeId)
    requires CrowdInv(c) && Possible(c, e)
    ensures Stranded(Next(c, e), m) <==> if Stranded(c, m) then !Rescues(c, e, m) else Strands(c, e, m)
  {
    hide SitesOk, Next, Possible, Stranded, Strands, Rescues;
    NamesAt(c.state, m);
    PossibleAt(c, e);
    if m !in c.state.sites {
      NobodyThere(c, e, m);
    } else {
      match e
      case CallEnter(n) => EnterStrands(c, e, m);
      case CallRelease(n) => ReleaseStrands(c, e, m);
      case DeliverRequest(d, r) => SiteOkAt(c, d); RequestStrands(c, e, m);
      case _ => OtherStrands(c, e, m);
    }
  }

  lemma NobodyThere(c: Crowd, e: Event, m: NodeId)
    requires SitesOk(c) && Possible(c, e) && m !in c.state.sites
    ensures !Stranded(c, m) && !Stranded(Next(c, e), m) && !Strands(c, e, m)
  {
    hide Claimed, ClaimedOnlyBy, Exchange, EffectOf;
  }

  lemma PossibleAt(c: Crowd, e: Event)
    requires Possible(c, e)
    ensures e.DeliverRequest? ==> e.at in c.state.sites
    ensures !e.CallLeave? && !e.DeliverNewRoot? && !e.DeliverReset?
  {}

  // --- Runs.

  ghost predicate RescuesIn(c: Crowd, es: seq<Event>, m: NodeId)
    requires IsCrowdRun(c, es)
    decreases |es|
  {
    es != [] && (Rescues(c, es[0], m) || RescuesIn(Next(c, es[0]), es[1..], m))
  }

  /** Some step of the run strands a caller of `m` and no later one gives `m` a new claim. */
  ghost predicate StrandsIn(c: Crowd, es: seq<Event>, m: NodeId)
    requires IsCrowdRun(c, es)
    decreases |es|
  {
    es != [] &&
    ((Strands(c, es[0], m) && !RescuesIn(Next(c, es[0]), es[1..], m)) || StrandsIn(Next(c, es[0]), es[1..], m))
  }

  /** Over a whole run: a caller is stranded in the end exactly when some step stranded it and
      no later call of its node gave that node a new claim. */
  lemma {:induction false} RunStrandsIff(c: Crowd, es: seq<Event>, m: NodeId)
    requires CrowdInv(c) && IsCrowdRun(c, es)
    ensures Stranded(AfterAll(c, es), m) <==> (Stranded(c, m) && !RescuesIn(c, es, m)) || StrandsIn(c, es, m)
    decreases |es|
  {
    hide CrowdInv, Next, Possible, Stranded, Strands, Rescues;
    if es != [] {
      StepKeepsCrowdInv(c, es[0]);
      StrandedIff(c, es[0], m);
      if Strands(c, es[0], m) && Stranded(c, m) { NoRescueHere(c, es[0], m); }
      RunStrandsIff(Next(c, es[0]), es[1..], m);
    }
  }

  lemma NoRescueHere(c: Crowd, e: Event, m: NodeId)
    requires Possible(c, e) && Strands(c, e, m)
    ensures !Rescues(c, e, m)
  {}

  /** A stranded caller waits as long as nobody calls at its node again. */
  lemma {:induction false} StrandedWaits(c: Crowd, es: seq<Event>, m: NodeId)
    requires CrowdInv(c) && IsCrowdRun(c, es) && Stranded(c, m) && CallEnter(m) !in es
    ensures Stranded(AfterAll(c, es), m) && Blocked(AfterAll(c, es), m) == Blocked(c, m)
    decreases |es|
  {
    hide CrowdInv, Next, Possible, Strands;
    if es != [] {
      StepKeepsCrowdInv(c, es[0]);
      StrandedIff(c, es[0], m);
      assert es[0] != CallEnter(m);
      StrandedStep(c, es[0], m);
      StrandedWaits(Next(c, es[0]), es[1..], m);
    }
  }

  lemma StrandedStep(c: Crowd, e: Event, m: NodeId)
    requires Possible(c, e) && Stranded(c, m) && e != CallEnter(m)
    ensures Blocked(Next(c, e), m) == Blocked(c, m)
  {
    hide EffectOf, Exchange, Claimed;
  }
}
