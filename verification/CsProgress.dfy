/**
 Every caller is served: without new calls the protocol takes a bounded number of steps, and
 when none is left nobody waits.
 */
module CsProgress {
  import opened Nodes
  import opened NaimiTrehel
  import opened CsMachine
  import opened CsToken
  import opened CsTree
  import opened CsQueue
  import opened CsSoundness
  import opened CsTheorems
  import opened CsForwarding
  import opened CsLimits

  /** Deliveries, and callers that go on: blocked ones that find the token, users that release. */
  predicate DrainEvent(e: Event) {
    e.CallWake? || e.CallRelease? || e.DeliverRequest? || e.DeliverGrant?
  }

  // --- What is left to do.

  ghost function Waiting(s: State): set<NodeId> {
    set n | n in s.sites && s.sites[n].waiting
  }

  /** One entry for each user of each node. */
  ghost function Users(s: State): set<(NodeId, nat)> {
    set n, i: nat | n in s.sites && i < s.sites[n].users :: (n, i)
  }

  /** The request of `r` travels and has `x` before it. */
  ghost predicate HeadsFor(s: State, r: NodeId, x: NodeId) {
    TreeInv(s) && exists d :: RequestCs(d, r) in s.net && x in FarSide(s, d, r)
  }

  ghost function Journeys(s: State): set<(NodeId, NodeId)> {
    set r, x | r in s.sites && x in s.sites && HeadsFor(s, r, x) :: (r, x)
  }

  ghost function Work(s: State): nat {
    3 * |Waiting(s)| + 2 * |Users(s)| + |Receivers(s)| + 2 * |Journeys(s)|
  }

  // --- Every step does some of it.

  lemma SizeAtMost<T>(A: set<T>, B: set<T>)
    requires A <= B
    ensures |A| <= |B|
  {
    assert B == A + (B - A);
  }

  lemma SizeLess<T>(A: set<T>, B: set<T>, x: T)
    requires A <= B && x in B && x !in A
    ensures |A| < |B|
  {
    SizeAtMost(A + {x}, B);
  }

  lemma TravelledBefore(s: State, e: Event, d: NodeId, r: NodeId)
    requires Enabled(s, e) && DrainEvent(e) && RequestCs(d, r) in Step(s, e).net
    ensures exists x :: RequestCs(x, r) in s.net
  {
    hide DoWake, DoRelease, DoGrant, DoRequest;
    if e.DeliverRequest? {
      assert RequestCs(e.at, e.requester) in s.net;
      RequestMail(s, e.at, e.requester, d, r);
    } else {
      QuietMail(s, e);
    }
  }

  lemma RequestMail(s: State, at: NodeId, q: NodeId, d: NodeId, r: NodeId)
    requires at in s.sites && RequestCs(d, r) in DoRequest(s, at, q).net
    ensures RequestCs(d, r) in s.net || r == q
  {}

  lemma SitesStay(s: State, e: Event)
    requires Enabled(s, e) && DrainEvent(e)
    ensures Step(s, e).sites.Keys == s.sites.Keys
  {
    hide OnRequest, Release, Wake, OnGrant;
  }

  lemma JourneysShrink(s: State, b: Books, e: Event, b': Books)
    requires Enabled(s, e) && DrainEvent(e) && Sound(s, b) && Sound(Step(s, e), b')
    ensures Journeys(Step(s, e)) <= Journeys(s)
  {
    hide CoreInv, TreeInv, QueueInv, Step, Enabled, FarSide;
    var s' := Step(s, e);
    SitesStay(s, e);
    forall r, x | (r, x) in Journeys(s') ensures (r, x) in Journeys(s) {
      var d' :| RequestCs(d', r) in s'.net && x in FarSide(s', d', r);
      TravelledBefore(s, e, d', r);
      var d :| RequestCs(d, r) in s.net;
      TravellerFacts(s', b'.account, d', r);
      FarSideStep(s, b, e, d, r, d');
      assert x in FarSide(s, d, r);
    }
  }

  lemma RequestWorks(s: State, b: Books, d: NodeId, r: NodeId, b': Books)
    requires Enabled(s, DeliverRequest(d, r)) && Sound(s, b) && Sound(Step(s, DeliverRequest(d, r)), b')
    ensures |Journeys(Step(s, DeliverRequest(d, r)))| < |Journeys(s)|
  {
    hide CoreInv, TreeInv, QueueInv, Step, FarSide, DoRequest;
    var e := DeliverRequest(d, r);
    var s' := Step(s, e);
    JourneysShrink(s, b, e, b');
    SitesStay(s, e);
    TravellerFacts(s, b.account, d, r);
    NodeFacts(s, b.account, d);
    var x := d;
    if d' :| RequestCs(d', r) in s'.net {
      TravellerFacts(s', b'.account, d', r);
      FarSideStep(s, b, e, d, r, d');
      if s.sites[d].father == EmptyNode {
        assert s' == DoRequest(s, d, r) by { StepIs(s, d, r); }
        AcceptedIsGone(s, d, r, d');
      }
      x :| x in FarSide(s, d, r) && x !in FarSide(s', d', r);
    } else {
      assert d in FarSide(s, d, r);
    }
    assert x in s.sites && HeadsFor(s, r, x) && !HeadsFor(s', r, x);
    SizeLess(Journeys(s'), Journeys(s), (r, x));
  }

  lemma StepIs(s: State, d: NodeId, r: NodeId)
    requires Enabled(s, DeliverRequest(d, r))
    ensures Step(s, DeliverRequest(d, r)) == DoRequest(s, d, r)
  {}

  lemma SameCallers(s: State, s': State)
    requires s'.sites.Keys == s.sites.Keys
    requires forall n {:trigger s.sites[n]} :: n in s.sites ==>
      s'.sites[n].waiting == s.sites[n].waiting && s'.sites[n].users == s.sites[n].users
    ensures Waiting(s') == Waiting(s) && Users(s') == Users(s)
  {
    forall n ensures n in Waiting(s') <==> n in Waiting(s) {}
    forall n, i: nat ensures (n, i) in Users(s') <==> (n, i) in Users(s) {}
  }

  lemma GrantsAfter(s: State, s': State, x: NodeId)
    requires forall n :: GetCs(n) in s'.net ==> GetCs(n) in s.net || n == x
    ensures Receivers(s') <= Receivers(s) + {x}
  {
    forall n | n in Receivers(s') ensures n in Receivers(s) + {x} {
      assert GetCs(n) in s'.net;
      if GetCs(n) in s.net { assert GetCs(n).dst in Receivers(s); }
    }
  }

  lemma RequestCallers(s: State, d: NodeId, r: NodeId)
    requires d in s.sites
    ensures var s' := DoRequest(s, d, r);
      && Waiting(s') == Waiting(s) && Users(s') == Users(s) && Receivers(s') <= Receivers(s) + {r}
  {
    hide Waiting, Users, Receivers, DoRequest;
    var s' := DoRequest(s, d, r);
    RequestSites(s, d, r);
    RequestGrants(s, d, r);
    SameCallers(s, s');
    GrantsAfter(s, s', r);
  }

  lemma RequestSites(s: State, d: NodeId, r: NodeId)
    requires d in s.sites
    ensures var s' := DoRequest(s, d, r);
      && s'.sites.Keys == s.sites.Keys
      && forall n {:trigger s.sites[n]} :: n in s.sites ==>
        s'.sites[n].waiting == s.sites[n].waiting && s'.sites[n].users == s.sites[n].users
  {
    RequestSite(s.sites[d], r);
    hide OnRequest;
  }

  lemma RequestSite(t: Site, r: NodeId)
    ensures OnRequest(t, r).site.waiting == t.waiting && OnRequest(t, r).site.users == t.users
  {}

  lemma RequestGrants(s: State, d: NodeId, r: NodeId)
    requires d in s.sites
    ensures forall n :: GetCs(n) in DoRequest(s, d, r).net ==> GetCs(n) in s.net || n == r
  {}

  lemma WakeCallers(s: State, n: NodeId)
    requires n in s.sites && s.sites[n].waiting
    ensures var s' := DoWake(s, n);
      && Waiting(s') == Waiting(s) - {n} && Users(s') == Users(s) + {(n, s.sites[n].users)} && Receivers(s') == Receivers(s)
  {
    var s' := DoWake(s, n);
    assert s'.net == s.net;
  }

  lemma ReleaseCallers(s: State, n: NodeId)
    requires n in s.sites && s.sites[n].users > 0
    ensures var s' := DoRelease(s, n);
      && Waiting(s') == Waiting(s) && Users(s') == Users(s) - {(n, s.sites[n].users - 1)}
      && Receivers(s') <= Receivers(s) + {s.sites[n].next}
  {
    hide Receivers;
    var s' := DoRelease(s, n);
    GrantsAfter(s, s', s.sites[n].next);
    OneUserLess(s, s', n);
  }

  lemma OneUserLess(s: State, s': State, n: NodeId)
    requires n in s.sites && s'.sites.Keys == s.sites.Keys && s.sites[n].users > 0
    requires s'.sites[n].waiting == s.sites[n].waiting && s'.sites[n].users == s.sites[n].users - 1
    requires forall m {:trigger s.sites[m]} :: m in s.sites && m != n ==> s'.sites[m] == s.sites[m]
    ensures Waiting(s') == Waiting(s) && Users(s') == Users(s) - {(n, s.sites[n].users - 1)}
  {
    forall m ensures m in Waiting(s') <==> m in Waiting(s) {}
    forall m, i: nat ensures (m, i) in Users(s') <==> (m, i) in Users(s) && (m, i) != (n, s.sites[n].users - 1) {}
  }

  lemma GrantCallers(s: State, d: NodeId)
    requires d in s.sites && s.net[GetCs(d)] == 1
    ensures var s' := DoGrant(s, d);
      && Waiting(s') == Waiting(s) && Users(s') == Users(s) && Receivers(s') == Receivers(s) - {d}
  {
    var s' := DoGrant(s, d);
    assert s'.net == s.net - multiset{GetCs(d)};
    forall m ensures m in Receivers(s') <==> m in Receivers(s) - {d} {
      assert GetCs(m) in s'.net <==> GetCs(m) in s.net && m != d;
      if GetCs(m) in s.net { assert GetCs(m).dst in Receivers(s); }
      if GetCs(m) in s'.net { assert GetCs(m).dst in Receivers(s'); }
    }
  }

  lemma StepWorks(s: State, b: Books, e: Event, b': Books)
    requires Enabled(s, e) && DrainEvent(e) && Sound(s, b) && Sound(Step(s, e), b')
    ensures Work(Step(s, e)) < Work(s)
  {
    hide CoreInv, TreeInv, QueueInv, DoRequest, DoWake, DoRelease, DoGrant, Waiting, Users, Receivers, Journeys;
    var s' := Step(s, e);
    JourneysShrink(s, b, e, b');
    SizeAtMost(Journeys(s'), Journeys(s));
    match e
    case CallWake(n) =>
      WakeCallers(s, n);
      assert n in Waiting(s) by { IsWaiting(s, n); }
      assert |Waiting(s')| == |Waiting(s)| - 1;
      assert |Users(s')| <= |Users(s)| + 1;
    case CallRelease(n) =>
      ReleaseCallers(s, n);
      assert (n, s.sites[n].users - 1) in Users(s) by { IsUser(s, n); }
      assert |Users(s')| == |Users(s)| - 1;
      SizeAtMost(Receivers(s'), Receivers(s) + {s.sites[n].next});
    case DeliverRequest(d, r) =>
      RequestCallers(s, d, r);
      RequestWorks(s, b, d, r, b');
      SizeAtMost(Receivers(s'), Receivers(s) + {r});
    case DeliverGrant(d) =>
      GrantOnce(s, b.account, d);
      GrantCallers(s, d);
      assert |Receivers(s')| == |Receivers(s)| - 1;
  }

  lemma IsWaiting(s: State, n: NodeId)
    requires n in s.sites && s.sites[n].waiting
    ensures n in Waiting(s)
  {}

  lemma IsUser(s: State, n: NodeId)
    requires n in s.sites && s.sites[n].users > 0
    ensures (n, s.sites[n].users - 1) in Users(s)
  {}

  lemma GrantOnce(s: State, a: Account, d: NodeId)
    requires CoreInv(s, a) && GetCs(d) in s.net
    ensures s.net[GetCs(d)] == 1 && d in Receivers(s)
  {
    assert PacketOk(s, GetCs(d)) && GetCs(d).dst == d;
  }

  // --- Runs.

  lemma SoundBooks(s: State) returns (b: Books)
    requires Reachable(s) && s.sites.Keys != {}
    ensures Sound(s, b)
  {
    hide IsRun, After, Sound;
    ReachableInv(s);
    b :| Sound(s, b);
  }

  /** Without new calls there are only so many steps, in whatever order. */
  lemma {:induction false} StepsAreBounded(s: State, es: seq<Event>)
    requires Reachable(s) && s.sites.Keys != {} && IsRun(s, es) && forall e :: e in es ==> DrainEvent(e)
    ensures |es| <= Work(s)
    ensures Reachable(After(s, es)) && After(s, es).sites.Keys == s.sites.Keys
    decreases |es|
  {
    hide Reachable, Sound, Enabled, Step, Work, DrainEvent;
    if es != [] {
      var s' := Step(s, es[0]);
      ReachableStep(s, es[0]);
      assert DrainEvent(es[0]);
      SitesStay(s, es[0]);
      var b := SoundBooks(s);
      var b' := SoundBooks(s');
      StepWorks(s, b, es[0], b');
      StepsAreBounded(s', es[1..]);
    }
  }

  /** None of these steps is possible. */
  ghost predicate Drained(s: State) {
    forall e :: DrainEvent(e) ==> !Enabled(s, e)
  }

  lemma NotEnabled(s: State, e: Event)
    requires Drained(s) && DrainEvent(e)
    ensures !Enabled(s, e)
  {}

  lemma KnownDestination(s: State, a: Account, p: Packet)
    requires CoreInv(s, a) && p in s.net
    ensures p.RequestCs? || p.GetCs? ==> p.dst in s.sites
  {
    assert PacketOk(s, p);
  }

  lemma NothingToDeliver(s: State, a: Account)
    requires CoreInv(s, a) && Drained(s)
    ensures NoRequestInFlight(s) && Receivers(s) == {}
  {
    hide CoreInv, Drained;
    forall d, r ensures RequestCs(d, r) !in s.net {
      NotEnabled(s, DeliverRequest(d, r));
      if RequestCs(d, r) in s.net { KnownDestination(s, a, RequestCs(d, r)); }
    }
    forall d ensures GetCs(d) !in s.net {
      NotEnabled(s, DeliverGrant(d));
      if GetCs(d) in s.net { KnownDestination(s, a, GetCs(d)); }
    }
  }

  /** The token holder is idle, so nobody is queued behind it. */
  lemma HolderIsAlone(s: State, b: Books, h: NodeId, q: seq<NodeId>)
    requires Sound(s, b) && Drained(s) && h in s.sites && s.sites[h].token
    requires FollowsNext(s, q) && q[0] == h
    ensures q == [h] && !Requesting(s, h)
  {
    hide TreeInv, QueueInv, TokenInv, ClaimInv, Drained;
    NodeFacts(s, b.account, h);
    NotEnabled(s, CallWake(h));
    NotEnabled(s, CallRelease(h));
    assert s.sites[h].next == EmptyNode;
    if |q| > 1 { QueueGoesOn(s, q); }
  }

  lemma QueueGoesOn(s: State, q: seq<NodeId>)
    requires FollowsNext(s, q) && |q| > 1
    ensures s.sites[q[0]].next in s.sites
  {
    assert s.sites[q[0]].next == q[1];
  }

  /** Then nobody waits and nobody is in the critical section. */
  lemma NobodyIsLeft(s: State, n: NodeId)
    requires Reachable(s) && Drained(s) && n in s.sites
    ensures !s.sites[n].waiting && s.sites[n].users == 0
  {
    hide Reachable, CoreInv, TreeInv, QueueInv, Drained, FollowsNext;
    var b := SoundBooks(s);
    NothingToDeliver(s, b.account);
    var h, q := TokenQueue(s);
    HolderIsAlone(s, b, h, q);
    NodeFacts(s, b.account, n);
    assert Requesting(s, n) ==> n in q;
  }

  /** After any run: if nobody calls again, every caller gets the token and goes, within a number
      of steps that is known beforehand. */
  lemma CallersAreServed(s: State, es: seq<Event>)
    requires Reachable(s) && s.sites.Keys != {} && IsRun(s, es) && forall e :: e in es ==> DrainEvent(e)
    ensures |es| <= Work(s)
    ensures Drained(After(s, es)) ==> forall n :: n in s.sites ==> n in After(s, es).sites && !After(s, es).sites[n].waiting
  {
    hide Reachable, Work, DrainEvent, Drained, IsRun, After;
    StepsAreBounded(s, es);
    var t := After(s, es);
    if Drained(t) {
      forall n | n in s.sites ensures n in t.sites && !t.sites[n].waiting {
        assert n in t.sites.Keys;
        NobodyIsLeft(t, n);
      }
    }
  }
}
