/**
 With any number of local callers: how many tokens there are, and who is in the critical section
 without one.
 */
module CsForgery {
  import opened Nodes
  import opened NaimiTrehel
  import opened CsMachine
  import opened CsToken
  import opened CsSoundness
  import opened CsTheorems
  import opened CsCallers

  // --- Counting tokens.

  /** One entry for each GET_CS in flight. */
  ghost function Grants(s: State): set<(NodeId, nat)> {
    set n, i: nat | n in s.sites && i < s.net[GetCs(n)] :: (n, i)
  }

  ghost function Tokens(s: State): nat {
    |Holders(s)| + |Grants(s)|
  }

  /** The steps in which a node sends a token that it does not have. */
  predicate Forges(c: Crowd, e: Event)
    requires Possible(c, e)
  {
    match e
    case CallRelease(n) =>
      var t := c.state.sites[n];
      t.users == 1 && t.next != EmptyNode && !t.token
    case DeliverRequest(d, _) =>
      var t := c.state.sites[d];
      t.father == EmptyNode && !t.requesting && !t.token
    case _ => false
  }

  /** A token that arrives where there is one already. */
  predicate Merges(c: Crowd, e: Event)
    requires Possible(c, e)
  {
    e.DeliverGrant? && c.state.sites[e.at].token
  }

  lemma HoldersAfter(s: State, n: NodeId, t: Site, net: multiset<Packet>)
    ensures Holders(Put(s, n, t, net)) == if t.token then Holders(s) + {n} else Holders(s) - {n}
  {}

  lemma SentGrant(s: State, d: NodeId, t: Site, taken: multiset<Packet>, x: NodeId)
    requires d in s.sites && x in s.sites && forall p :: p in taken ==> !p.GetCs?
    ensures Grants(Apply(s, d, taken, Effect(t, [GetCs(x)]))) == Grants(s) + {(x, s.net[GetCs(x)])}
  {
    var s' := Apply(s, d, taken, Effect(t, [GetCs(x)]));
    assert s'.net == s.net - taken + multiset{GetCs(x)};
    forall n ensures s'.net[GetCs(n)] == s.net[GetCs(n)] + if n == x then 1 else 0 {}
    assert s'.sites.Keys == s.sites.Keys;
  }

  lemma SameGrants(s: State, n: NodeId, t: Site, net: multiset<Packet>)
    requires (n in s.sites || s.net[GetCs(n)] == 0) && forall m :: net[GetCs(m)] == s.net[GetCs(m)]
    ensures Grants(Put(s, n, t, net)) == Grants(s)
  {}

  lemma TakenGrant(s: State, d: NodeId, t: Site, net: multiset<Packet>)
    requires d in s.sites && s.net[GetCs(d)] > 0
    requires forall m :: net[GetCs(m)] == s.net[GetCs(m)] - if m == d then 1 else 0
    ensures Grants(Put(s, d, t, net)) == Grants(s) - {(d, s.net[GetCs(d)] - 1)}
    ensures (d, s.net[GetCs(d)] - 1) in Grants(s)
  {}

  lemma SentTokens(s: State, d: NodeId, t: Site, taken: multiset<Packet>, x: NodeId)
    requires d in s.sites && x in s.sites && !t.token && forall p :: p in taken ==> !p.GetCs?
    ensures Tokens(Apply(s, d, taken, Effect(t, [GetCs(x)]))) == Tokens(s) + if s.sites[d].token then 0 else 1
  {
    hide Grants, Holders;
    SentGrant(s, d, t, taken, x);
    GrantIsNew(s, x);
    HoldersAfter(s, d, t, Apply(s, d, taken, Effect(t, [GetCs(x)])).net);
    HolderIs(s, d);
  }

  lemma GrantIsNew(s: State, x: NodeId)
    ensures (x, s.net[GetCs(x)]) !in Grants(s)
  {}

  lemma HolderIs(s: State, d: NodeId)
    ensures d in Holders(s) <==> d in s.sites && s.sites[d].token
  {}

  lemma QuietTokens(s: State, n: NodeId, t: Site, net: multiset<Packet>)
    requires (n in s.sites || s.net[GetCs(n)] == 0) && forall m :: net[GetCs(m)] == s.net[GetCs(m)]
    requires t.token == (n in s.sites && s.sites[n].token)
    ensures Tokens(Put(s, n, t, net)) == Tokens(s)
  {
    hide Grants, Holders;
    SameGrants(s, n, t, net);
    HoldersAfter(s, n, t, net);
    HolderIs(s, n);
    assert t.token ==> Holders(s) + {n} == Holders(s);
    assert !t.token ==> Holders(s) - {n} == Holders(s);
  }

  lemma GrantTokens(c: Crowd, d: NodeId)
    requires Possible(c, DeliverGrant(d))
    ensures Tokens(Next(c, DeliverGrant(d)).state) == Tokens(c.state) - if c.state.sites[d].token then 1 else 0
  {
    hide Grants, Holders;
    var s, net := c.state, Next(c, DeliverGrant(d)).state.net;
    assert net == s.net - multiset{GetCs(d)};
    TakenGrant(s, d, OnGrant(s.sites[d]), net);
    HoldersAfter(s, d, OnGrant(s.sites[d]), net);
    HolderIs(s, d);
    assert s.sites[d].token ==> Holders(s) + {d} == Holders(s);
  }

  lemma RequestTokens(c: Crowd, d: NodeId, r: NodeId)
    requires Possible(c, DeliverRequest(d, r)) && !c.state.sites[d].leaving && r in c.state.sites
    ensures Tokens(Next(c, DeliverRequest(d, r)).state) == Tokens(c.state) + if Forges(c, DeliverRequest(d, r)) then 1 else 0
  {
    hide Tokens, Apply, Put;
    var s, t := c.state, c.state.sites[d];
    var e := DeliverRequest(d, r);
    if t.father == EmptyNode && !t.requesting {
      SentTokens(s, d, t.(token := false, father := r), multiset{RequestCs(d, r)}, r);
    } else {
      QuietStep(c, e);
    }
  }

  /** A step that sends no GET_CS and takes none. */
  lemma QuietMail(c: Crowd, e: Event)
    requires Possible(c, e) && !e.DeliverGrant? && forall p :: p in EffectOf(c, e).sent ==> !p.GetCs?
    ensures forall m :: Next(c, e).state.net[GetCs(m)] == c.state.net[GetCs(m)]
  {
    hide EffectOf;
    forall m ensures multiset(EffectOf(c, e).sent)[GetCs(m)] == 0 {
      assert GetCs(m) !in EffectOf(c, e).sent;
    }
  }

  lemma QuietStep(c: Crowd, e: Event)
    requires Possible(c, e) && !e.DeliverGrant? && forall p :: p in EffectOf(c, e).sent ==> !p.GetCs?
    requires Actor(e) in c.state.sites || GetCs(Actor(e)) !in c.state.net
    requires EffectOf(c, e).site.token == (Actor(e) in c.state.sites && c.state.sites[Actor(e)].token)
    ensures Tokens(Next(c, e).state) == Tokens(c.state)
  {
    hide Tokens, EffectOf, Exchange;
    QuietMail(c, e);
    QuietTokens(c.state, Actor(e), EffectOf(c, e).site, Next(c, e).state.net);
  }

  lemma ReleaseTokens(c: Crowd, n: NodeId)
    requires Possible(c, CallRelease(n)) && InSites(c.state, c.state.sites[n].next)
    ensures Tokens(Next(c, CallRelease(n)).state) == Tokens(c.state) + if Forges(c, CallRelease(n)) then 1 else 0
  {
    hide Tokens, Apply, Put;
    var s, t := c.state, c.state.sites[n];
    var e := CallRelease(n);
    if t.users == 1 && t.next != EmptyNode {
      SentTokens(s, n, Release(t).site, multiset{}, t.next);
    } else {
      QuietStep(c, e);
    }
  }

  lemma OtherTokens(c: Crowd, e: Event)
    requires Possible(c, e) && (e.CallEnter? || e.CallWake? || e.Join?)
    requires e.Join? ==> GetCs(e.n) !in c.state.net
    ensures Tokens(Next(c, e).state) == Tokens(c.state)
  {
    hide Tokens, Apply, Put;
    QuietStep(c, e);
  }

  /** A token is lost or made up in exactly these steps. */
  lemma TokensChangeIff(c: Crowd, e: Event)
    requires CrowdInv(c) && Possible(c, e)
    ensures Tokens(Next(c, e).state) ==
      Tokens(c.state) + (if Forges(c, e) then 1 else 0) - (if Merges(c, e) then 1 else 0)
  {
    hide SitesOk, NodesOk, Next, Tokens, Possible;
    PossibleAt(c, e);
    match e
    case CallRelease(n) => NextAt(c, n); ReleaseTokens(c, n);
    case DeliverRequest(d, r) => SiteOkAt(c, d); RequesterAt(c, d, r); RequestTokens(c, d, r);
    case DeliverGrant(d) => GrantTokens(c, d);
    case Join(n, _) => NoGrantFor(c, e); OtherTokens(c, e);
    case _ => OtherTokens(c, e);
  }

  lemma NextAt(c: Crowd, n: NodeId)
    requires NodesOk(c.state) && Possible(c, CallRelease(n))
    ensures InSites(c.state, c.state.sites[n].next)
  {
    hide NodesOk;
    NamesAt(c.state, n);
  }

  lemma RequesterAt(c: Crowd, d: NodeId, r: NodeId)
    requires NodesOk(c.state) && Possible(c, DeliverRequest(d, r))
    ensures r in c.state.sites
  {
    hide NodesOk;
    MailAt(c.state, RequestCs(d, r));
  }

  lemma NoGrantFor(c: Crowd, e: Event)
    requires NodesOk(c.state) && Possible(c, e) && e.Join?
    ensures GetCs(e.n) !in c.state.net
  {
    hide NodesOk;
    if GetCs(e.n) in c.state.net { MailAt(c.state, GetCs(e.n)); }
  }

  /** There never is none. */
  lemma StepKeepsAToken(c: Crowd, e: Event)
    requires CrowdInv(c) && Possible(c, e) && Tokens(c.state) >= 1
    ensures Tokens(Next(c, e).state) >= 1
  {
    hide CrowdInv, Possible;
    TokensChangeIff(c, e);
    if Merges(c, e) { MergedTokens(c, e.at); }
  }

  lemma MergedTokens(c: Crowd, d: NodeId)
    requires Possible(c, DeliverGrant(d)) && c.state.sites[d].token
    ensures Tokens(c.state) >= 2
  {
    assert d in Holders(c.state);
    assert (d, 0) in Grants(c.state);
  }

  // --- Users without the token.

  /** Somebody of `n` is in the critical section, and `n` does not have the token. */
  predicate Unprotected(s: State, n: NodeId) {
    n in s.sites && s.sites[n].users > 0 && !s.sites[n].token
  }

  /** The token is sent away under its users: a request arrives where `father` is empty and, since
      another caller released meanwhile, `requesting` is false. */
  predicate Exposes(c: Crowd, e: Event, n: NodeId)
    requires Possible(c, e)
  {
    && e.DeliverRequest? && e.at == n
    && var t := c.state.sites[n]; t.users > 0 && t.father == EmptyNode && !t.requesting
  }

  /** The users go, or a token comes. */
  predicate Covers(c: Crowd, e: Event, n: NodeId)
    requires Possible(c, e)
  {
    e == DeliverGrant(n) || (e == CallRelease(n) && c.state.sites[n].users == 1)
  }

  lemma UnprotectedIff(c: Crowd, e: Event, n: NodeId)
    requires CrowdInv(c) && Possible(c, e)
    ensures Unprotected(Next(c, e).state, n) <==> if Unprotected(c.state, n) then !Covers(c, e, n) else Exposes(c, e, n)
  {
    hide SitesOk, NodesOk, Exchange;
    NamesAt(c.state, n);
    if n in c.state.sites { SiteOkAt(c, n); }
  }

  /** A user goes on without `requesting` exactly when it left the wait loop after another caller
      of its node had released. */
  predicate Unasked(s: State, n: NodeId) {
    n in s.sites && s.sites[n].users > 0 && !s.sites[n].requesting
  }

  lemma UnaskedIff(c: Crowd, e: Event, n: NodeId)
    requires Possible(c, e)
    ensures Unasked(Next(c, e).state, n) <==>
      if Unasked(c.state, n) then e != CallEnter(n) && !(e == CallRelease(n) && c.state.sites[n].users == 1)
      else e == CallWake(n) && !c.state.sites[n].requesting
  {
    hide Exchange;
  }

  // --- Mutual exclusion.

  /** No step of the run makes up a token or sends it away under its users. */
  predicate Sane(c: Crowd, es: seq<Event>)
    requires IsCrowdRun(c, es)
    decreases |es|
  {
    es == [] || (
      && !Forges(c, es[0]) && (es[0].DeliverRequest? ==> !Exposes(c, es[0], es[0].at))
      && Sane(Next(c, es[0]), es[1..]))
  }

  ghost predicate Excludes(s: State) {
    Tokens(s) == 1 && forall n :: !Unprotected(s, n)
  }

  lemma {:induction false} SaneRuns(c: Crowd, es: seq<Event>)
    requires CrowdInv(c) && Excludes(c.state) && IsCrowdRun(c, es) && Sane(c, es)
    ensures Excludes(AfterAll(c, es).state)
    decreases |es|
  {
    hide CrowdInv, Next, Possible, Forges, Exposes, Unprotected, Tokens;
    if es != [] {
      var e := es[0];
      StepKeepsCrowdInv(c, e);
      StepKeepsAToken(c, e);
      TokensChangeIff(c, e);
      forall n ensures !Unprotected(Next(c, e).state, n) {
        UnprotectedIff(c, e, n);
        OnlyThere(c, e, n);
      }
      SaneRuns(Next(c, e), es[1..]);
    }
  }

  lemma OnlyThere(c: Crowd, e: Event, n: NodeId)
    requires Possible(c, e)
    ensures Exposes(c, e, n) ==> e.DeliverRequest? && e.at == n
  {}

  lemma OneInside(s: State, n: NodeId, m: NodeId)
    requires Excludes(s) && InCriticalSection(s, n) && InCriticalSection(s, m)
    ensures n == m
  {
    hide Grants;
    assert !Unprotected(s, n) && !Unprotected(s, m);
    assert {n, m} <= Holders(s);
    if n != m { assert |{n, m}| == 2; Larger({n, m}, Holders(s)); }
  }

  lemma Larger<T>(A: set<T>, B: set<T>)
    requires A <= B
    ensures |A| <= |B|
  {
    assert B == A + (B - A);
  }

  lemma LiftExcludes(s: State)
    requires Reachable(s) && Settled(s)
    ensures Excludes(s)
  {
    hide IsRun, After, Sound, ResetsDue, Tokens;
    ReachableInv(s);
    var b :| Sound(s, b);
    OneToken(s, b);
    UsersHaveIt(s, b);
  }

  lemma UsersHaveIt(s: State, b: Books)
    requires Sound(s, b)
    ensures forall n :: !Unprotected(s, n)
  {
    hide TokenInv, ClaimInv, CsTree.TreeInv, CsQueue.QueueInv;
    forall n | n in s.sites ensures !Unprotected(s, n) { assert LocalOk(s.sites[n]); }
  }

  lemma OneToken(s: State, b: Books)
    requires Sound(s, b)
    ensures Tokens(s) == 1
  {
    hide ClaimInv, LocalInv, CsTree.TreeInv, CsQueue.QueueInv;
    var h := b.account.place.n;
    assert TokenAt(s, b.account.place);
    forall n ensures n in Holders(s) <==> b.account.place == Held(n) {
      assert TokenAt(s, Held(n)) <==> b.account.place == Held(n);
    }
    forall n, i: nat ensures (n, i) in Grants(s) <==> b.account.place == Moving(n) && i == 0 {
      assert TokenAt(s, Moving(n)) <==> b.account.place == Moving(n);
      if GetCs(n) in s.net { assert PacketOk(s, GetCs(n)); }
    }
    if b.account.place.Held? {
      assert Holders(s) == {h} && Grants(s) == {};
    } else {
      assert Holders(s) == {} && Grants(s) == {(h, 0)};
    }
  }

  /** Mutual exclusion holds, with any number of local callers, as long as no step makes up a token
      or sends it away under its users. */
  lemma ExclusionWhileSane(s: State, es: seq<Event>, n: NodeId, m: NodeId)
    requires Reachable(s) && Settled(s) && IsCrowdRun(Lift(s), es) && Sane(Lift(s), es)
    requires InCriticalSection(AfterAll(Lift(s), es).state, n) && InCriticalSection(AfterAll(Lift(s), es).state, m)
    ensures n == m
  {
    hide Reachable, Settled, CrowdInv, Excludes, Sane, IsCrowdRun, AfterAll;
    LiftInv(s);
    LiftExcludes(s);
    assert Lift(s).state == s;
    SaneRuns(Lift(s), es);
    OneInside(AfterAll(Lift(s), es).state, n, m);
  }
}
