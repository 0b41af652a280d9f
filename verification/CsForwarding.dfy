/**
 How often a request is forwarded: the part of the tree it is heading into shrinks with
 every forward, and nothing else that happens can make it grow.
 */
module CsForwarding {
  import opened Nodes
  import opened NaimiTrehel
  import opened CsMachine
  import opened CsToken
  import opened SpanningTree
  import opened CsTree
  import opened CsQueue
  import opened CsSoundness
  import opened CsTheorems

  /** The nodes on the far side of the travelling request of `r`. */
  ghost function FarSide(s: State, d: NodeId, r: NodeId): (S: set<NodeId>)
    requires TreeInv(s) && RequestCs(d, r) in s.net
    ensures S <= s.sites.Keys && d in S && r !in S
    ensures Bridges(Edges(s), Flight(r, d), S)
  {
    Side(s.sites.Keys, Edges(s), Flight(r, d))
  }

  /** The event forwards the request of `r` to somebody's father. */
  predicate IsForward(s: State, e: Event, r: NodeId) {
    e.DeliverRequest? && e.requester == r && e.at in s.sites && s.sites[e.at].father != EmptyNode
  }

  lemma FarSideIs(s: State, d: NodeId, r: NodeId, S: set<NodeId>)
    requires TreeInv(s) && RequestCs(d, r) in s.net && S <= s.sites.Keys && Bridges(Edges(s), Flight(r, d), S)
    ensures FarSide(s, d, r) == S
  {
    assert Flight(r, d) in Edges(s);
    SideIsUnique(s.sites.Keys, Edges(s), Flight(r, d), FarSide(s, d, r), S);
  }

  lemma ForwardShrinks(s: State, d: NodeId, r: NodeId)
    requires d in s.sites && s.sites[d].father != EmptyNode && TreeInv(s) && TreeInv(DoRequest(s, d, r))
    requires !s.sites[d].leaving && r != EmptyNode && s.net[RequestCs(d, r)] == 1
    ensures var s', f := DoRequest(s, d, r), s.sites[d].father;
      RequestCs(f, r) in s'.net && FarSide(s', f, r) < FarSide(s, d, r)
  {
    hide Tree, Edges;
    var s', f := DoRequest(s, d, r), s.sites[d].father;
    NoSelfFather(s, d);
    ForwardRotates(s, d, r);
    var S := FarSide(s, d, r);
    var T := LinkCut(s, d);
    TreeEnds(s);
    RotatedCuts(s.sites.Keys, Edges(s), r, d, f, S, T);
    assert Flight(r, f) in Edges(s');
    FarSideIs(s', f, r, S * T);
  }

  lemma TreeEnds(s: State)
    requires TreeInv(s)
    ensures forall e :: e in Edges(s) ==> EndsIn(s.sites.Keys, e)
  {
  }

  lemma EnterKeepsFarSide(s: State, n: NodeId, d: NodeId, r: NodeId)
    requires n in s.sites && RequestCs(d, r) in s.net && r != n && TreeInv(s) && TreeInv(DoEnter(s, n))
    requires !s.sites[n].token ==> s.sites[n].father != EmptyNode
    ensures RequestCs(d, r) in DoEnter(s, n).net && FarSide(DoEnter(s, n), d, r) == FarSide(s, d, r)
  {
    hide Tree, Edges;
    var s', S := DoEnter(s, n), FarSide(s, d, r);
    if s.sites[n].token {
      EdgesKept(s, s');
    } else {
      var f := s.sites[n].father;
      EnterRelabels(s, n);
      assert Flight(r, d) in Edges(s);
      RelabelKeepsCut(Edges(s), Link(n, f), Flight(n, f), Flight(r, d), S);
      assert Bridges(Edges(s'), Flight(r, d), S);
    }
    FarSideIs(s', d, r, S);
  }

  lemma OtherRequestKeepsFarSide(s: State, at: NodeId, q: NodeId, d: NodeId, r: NodeId)
    requires at in s.sites && q != r && q != EmptyNode && TreeInv(s) && TreeInv(DoRequest(s, at, q))
    requires !s.sites[at].leaving && s.net[RequestCs(at, q)] == 1 && RequestCs(d, r) in s.net
    ensures RequestCs(d, r) in DoRequest(s, at, q).net && FarSide(DoRequest(s, at, q), d, r) == FarSide(s, d, r)
  {
    hide Tree, Edges;
    var s', S, f := DoRequest(s, at, q), FarSide(s, d, r), s.sites[at].father;
    assert Flight(r, d) in Edges(s);
    if f == EmptyNode {
      AcceptRelabels(s, at, q);
      RelabelKeepsCut(Edges(s), Flight(q, at), Link(at, q), Flight(r, d), S);
    } else {
      NoSelfFather(s, at);
      ForwardRotates(s, at, q);
      RotateKeepsCut(Edges(s), q, at, f, Flight(r, d), S);
    }
    assert Flight(r, d) in Edges(s') && Bridges(Edges(s'), Flight(r, d), S);
    FarSideIs(s', d, r, S);
  }

  /** What the claims say about a travelling request and the other nodes. */
  lemma TravellerFacts(s: State, a: Account, d: NodeId, r: NodeId)
    requires CoreInv(s, a) && RequestCs(d, r) in s.net
    ensures r in s.sites && r != EmptyNode && s.sites[r].waiting && s.net[RequestCs(d, r)] == 1
    ensures forall x :: RequestCs(x, r) in s.net ==> x == d
  {
    assert HasClaim(s, r, Asking(d)) && PacketOk(s, RequestCs(d, r));
    forall x | RequestCs(x, r) in s.net ensures x == d { assert HasClaim(s, r, Asking(x)); }
  }

  lemma NodeFacts(s: State, a: Account, n: NodeId)
    requires CoreInv(s, a) && n in s.sites
    ensures LocalOk(s.sites[n])
  {
  }

  /** One event: a forward of the request shrinks its far side, any other event keeps it. */
  lemma FarSideStep(s: State, b: Books, e: Event, d: NodeId, r: NodeId, d': NodeId)
    requires Enabled(s, e) && ProtocolEvent(e) && Sound(s, b) && TreeInv(Step(s, e))
    requires RequestCs(d, r) in s.net && RequestCs(d', r) in Step(s, e).net
    requires forall x :: RequestCs(x, r) in Step(s, e).net ==> x == d'
    ensures if IsForward(s, e, r) then FarSide(Step(s, e), d', r) < FarSide(s, d, r)
            else FarSide(Step(s, e), d', r) == FarSide(s, d, r)
  {
    hide TreeInv, QueueInv, CoreInv, FarSide, DoEnter, DoRequest, DoWake, DoRelease, DoGrant;
    TravellerFacts(s, b.account, d, r);
    match e
    case CallEnter(n) =>
      NodeFacts(s, b.account, n);
      EnterKeepsFarSide(s, n, d, r);
    case DeliverRequest(at, q) =>
      NodeFacts(s, b.account, at);
      TravellerFacts(s, b.account, at, q);
      if q != r {
        OtherRequestKeepsFarSide(s, at, q, d, r);
      } else if s.sites[at].father != EmptyNode {
        ForwardShrinks(s, d, r);
      } else {
        AcceptedIsGone(s, d, r, d');
      }
    case _ =>
      QuietStepKeepsFarSide(s, e, d, r);
  }

  /** A request that a root answered no longer travels. */
  lemma AcceptedIsGone(s: State, d: NodeId, r: NodeId, x: NodeId)
    requires d in s.sites && s.sites[d].father == EmptyNode && !s.sites[d].leaving && s.net[RequestCs(d, r)] == 1
    requires forall y :: RequestCs(y, r) in s.net ==> y == d
    ensures RequestCs(x, r) !in DoRequest(s, d, r).net
  {
  }

  lemma QuietStepKeepsFarSide(s: State, e: Event, d: NodeId, r: NodeId)
    requires TreeInv(s) && Enabled(s, e) && TreeInv(Step(s, e)) && RequestCs(d, r) in s.net
    requires e.CallWake? || e.CallRelease? || e.DeliverGrant?
    ensures RequestCs(d, r) in Step(s, e).net && FarSide(Step(s, e), d, r) == FarSide(s, d, r)
  {
    hide TreeInv, Edges, Step, FarSide;
    var s' := Step(s, e);
    QuietMail(s, e);
    assert RequestCs(d, r) in s'.net;
    EdgesKept(s, s');
    FarSideBridges(s, d, r);
    FarSideIs(s', d, r, FarSide(s, d, r));
  }

  lemma FarSideBridges(s: State, d: NodeId, r: NodeId)
    requires TreeInv(s) && RequestCs(d, r) in s.net
    ensures FarSide(s, d, r) <= s.sites.Keys && Bridges(Edges(s), Flight(r, d), FarSide(s, d, r))
  {
  }

  lemma QuietMail(s: State, e: Event)
    requires Enabled(s, e) && (e.CallWake? || e.CallRelease? || e.DeliverGrant?)
    ensures var s' := Step(s, e);
      && s'.sites.Keys == s.sites.Keys
      && (forall n :: n in s.sites ==> s'.sites[n].father == s.sites[n].father)
      && (forall x, y :: RequestCs(x, y) in s'.net <==> RequestCs(x, y) in s.net)
  {
    hide Apply;
    match e
    case CallWake(n) => ApplyQuietly(s, n, multiset{}, Effect(Wake(s.sites[n]), []));
    case CallRelease(n) => ApplyQuietly(s, n, multiset{}, Release(s.sites[n]));
    case DeliverGrant(d) => ApplyQuietly(s, d, multiset{GetCs(d)}, Effect(OnGrant(s.sites[d]), []));
  }

  lemma ApplyQuietly(s: State, n: NodeId, taken: multiset<Packet>, e: Effect)
    requires n in s.sites && e.site.father == s.sites[n].father
    requires forall p :: p in taken || p in e.sent ==> !p.RequestCs?
    ensures var s' := Apply(s, n, taken, e);
      && s'.sites.Keys == s.sites.Keys
      && (forall m :: m in s.sites ==> s'.sites[m].father == s.sites[m].father)
      && (forall x, y :: RequestCs(x, y) in s'.net <==> RequestCs(x, y) in s.net)
  {
    forall x, y ensures multiset(e.sent)[RequestCs(x, y)] == 0 { assert RequestCs(x, y) !in e.sent; }
  }

  // --- Runs.

  /** The request of `r` is travelling all along the run. */
  ghost predicate Travels(s: State, es: seq<Event>, r: NodeId)
    requires IsRun(s, es)
    decreases |es|
  {
    && (exists d :: RequestCs(d, r) in s.net)
    && (es != [] ==> Travels(Step(s, es[0]), es[1..], r))
  }

  /** How often the request of `r` is forwarded in the run. */
  ghost function ForwardCount(s: State, es: seq<Event>, r: NodeId): nat
    requires IsRun(s, es)
    decreases |es|
  {
    if es == [] then 0
    else (if IsForward(s, es[0], r) then 1 else 0) + ForwardCount(Step(s, es[0]), es[1..], r)
  }

  lemma {:induction false} ForwardsUseUpTheFarSide(s: State, b: Books, es: seq<Event>, d: NodeId, r: NodeId)
    requires Sound(s, b) && IsRun(s, es) && Travels(s, es, r) && RequestCs(d, r) in s.net
    requires forall i :: 0 <= i < |es| ==> ProtocolEvent(es[i])
    ensures ForwardCount(s, es, r) < |FarSide(s, d, r)|
    decreases |es|
  {
    hide CoreInv, TreeInv, QueueInv, Step, Enabled, FarSide;
    if es == [] {
      assert d in FarSide(s, d, r);
    } else {
      var s' := Step(s, es[0]);
      var b' := ProtocolKeepsSound(s, b, es[0]);
      var d' :| RequestCs(d', r) in s'.net;
      TravellerFacts(s', b'.account, d', r);
      FarSideStep(s, b, es[0], d, r, d');
      ForwardsUseUpTheFarSide(s', b', es[1..], d', r);
      if IsForward(s, es[0], r) { ProperSubsetSize(FarSide(s', d', r), FarSide(s, d, r)); }
    }
  }

  lemma ProperSubsetSize(S: set<NodeId>, T: set<NodeId>)
    requires S < T
    ensures |S| < |T|
  {
    assert T == S + (T - S);
    assert T - S != {};
  }

  /** With `n` nodes and no node joining or leaving, a request is forwarded at most `n - 2` times,
      however it interleaves with other requests. */
  lemma ForwardBound(s: State, es: seq<Event>, r: NodeId)
    requires Reachable(s) && IsRun(s, es) && Travels(s, es, r)
    requires forall i :: 0 <= i < |es| ==> ProtocolEvent(es[i])
    ensures ForwardCount(s, es, r) + 2 <= |s.sites.Keys|
  {
    hide CoreInv, TreeInv, QueueInv, IsRun, After, ForwardCount, FarSide, Orphaned;
    ReachableInv(s);
    var d :| RequestCs(d, r) in s.net;
    assert Rooted(s) by { TravelsAmongSites(s, d, r); }
    var b :| Sound(s, b);
    TravellerFacts(s, b.account, d, r);
    ForwardsUseUpTheFarSide(s, b, es, d, r);
    assert FarSide(s, d, r) < s.sites.Keys;
    ProperSubsetSize(FarSide(s, d, r), s.sites.Keys);
  }

  lemma TravelsAmongSites(s: State, d: NodeId, r: NodeId)
    requires Inv(s) && RequestCs(d, r) in s.net
    ensures Rooted(s)
  {
    hide Rooted;
  }
}
