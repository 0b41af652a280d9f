/**
 Departures finish, and where the protocol's guarantees end: a second local caller, and the
 shape of the queue while requests are travelling.
 */
module CsLimits {
  import opened Nodes
  import opened NaimiTrehel
  import opened CsMachine
  import opened CsToken
  import opened SpanningTree
  import opened CsTree
  import opened CsQueue
  import opened CsSoundness
  import opened CsTheorems

  // --- Departures.

  function Members(s: State): set<NodeId> {
    s.sites.Keys + s.stale.Keys
  }

  /** A local caller is blocked in `request_CS`. */
  predicate Blocked(s: State, n: NodeId) {
    (n in s.sites && s.sites[n].waiting) || (n in s.stale && s.stale[n].waiting)
  }

  predicate DepartureEvent(e: Event) {
    e.CallLeave? || e.DeliverNewRoot? || e.DeliverReset?
  }

  predicate DepartureMail(s: State) {
    exists p :: p in s.net && (p.NewRootCs? || p.ResetCs?)
  }

  /** A departure removes the leaver and nobody else, and every blocked caller stays blocked
      until it gets the token. */
  lemma DepartureKeepsCallers(s: State, e: Event)
    requires Enabled(s, e) && DepartureEvent(e) && Reachable(s)
    ensures Members(Step(s, e)) == if e.CallLeave? then Members(s) - {e.n} else Members(s)
    ensures forall n :: n in Members(Step(s, e)) ==> (Blocked(Step(s, e), n) <==> Blocked(s, n))
  {
    hide IsRun, After, Sound, ResetsDue, Exchange;
    ReachableInv(s);
    var s' := Step(s, e);
    match e
    case CallLeave(n, _) => assert s'.stale == s.sites - {n};
    case DeliverNewRoot(r, _, _) => assert s'.stale == s.stale - {r} && s.sites.Keys == {};
    case DeliverReset(n, _) => assert s'.stale == s.stale - {n};
  }

  /** Once the messages of a departure are delivered, the protocol runs among all the members
      again, with one token, one claim for each blocked caller, and a tree. */
  lemma DepartureCompletes(s: State)
    requires Reachable(s) && !DepartureMail(s)
    ensures s.stale.Keys == {} && s.sites.Keys == Members(s)
    ensures exists b :: Sound(s, b)
  {
    hide IsRun, After, Sound;
    ReachableInv(s);
    forall n, l ensures NewRootCs(n, l) !in s.net {}
    forall n, r ensures ResetCs(n, r) !in s.net {}
    assert Rooted(s);
    forall n ensures n !in s.stale {
      assert n in s.stale ==> exists r :: ResetCs(n, r) in s.net;
    }
  }

  lemma {:induction false} Listing(S: set<NodeId>) returns (nodes: seq<NodeId>)
    ensures Lists(nodes, S)
    decreases |S|
  {
    nodes := [];
    if n :| n in S {
      var rest := Listing(S - {n});
      nodes := [n] + rest;
      assert forall i :: 0 < i < |nodes| ==> nodes[i] == rest[i - 1] && nodes[i] in S - {n};
    }
  }

  predicate DepartureDelivery(e: Event) {
    e.DeliverNewRoot? || e.DeliverReset?
  }

  /** As long as the messages of a departure are in flight, one of them can be delivered. */
  lemma DepartureGoesOn(s: State)
    requires Reachable(s) && DepartureMail(s)
    ensures exists e :: DepartureDelivery(e) && Enabled(s, e)
  {
    hide IsRun, After, Sound, ResetsDue, Lists;
    ReachableInv(s);
    if Rooted(s) {
      var p :| p in s.net && (p.NewRootCs? || p.ResetCs?);
      NotNewRoot(s, p);
      assert ResetCs(p.dst, p.sender) in s.net;
      assert Enabled(s, DeliverReset(p.dst, p.sender));
    } else {
      var r, l :| Orphaned(s, r, l);
      var nodes := Listing(s.stale.Keys - {r});
      assert Enabled(s, DeliverNewRoot(r, l, nodes));
    }
  }

  lemma NotNewRoot(s: State, p: Packet)
    requires NoNewRoot(s) && p in s.net
    ensures !p.NewRootCs?
  {}

  function DepartureDeliveries(es: seq<Event>): nat {
    if es == [] then 0 else (if DepartureDelivery(es[0]) then 1 else 0) + DepartureDeliveries(es[1..])
  }

  lemma StaleStep(s: State, e: Event)
    requires Enabled(s, e) && !e.CallLeave?
    ensures |Step(s, e).stale| == |s.stale| - if DepartureDelivery(e) then 1 else 0
  {
    hide Exchange;
    if DepartureDelivery(e) {
      assert Step(s, e).stale == s.stale - {e.at};
      assert (s.stale - {e.at}).Keys == s.stale.Keys - {e.at};
      assert |s.stale| == |s.stale.Keys| && |s.stale - {e.at}| == |(s.stale - {e.at}).Keys|;
    }
  }

  /** However they interleave with the protocol, the deliveries of a departure are as many as the
      nodes that still wait for one. */
  lemma {:induction false} DepartureIsBounded(s: State, es: seq<Event>)
    requires IsRun(s, es) && forall e :: e in es ==> !e.CallLeave?
    ensures DepartureDeliveries(es) + |After(s, es).stale| == |s.stale|
    decreases |es|
  {
    hide Enabled, Step;
    if es != [] {
      assert es[0] in es;
      StaleStep(s, es[0]);
      DepartureIsBounded(Step(s, es[0]), es[1..]);
    }
  }

  // --- A second local caller.

  lemma ParallelEdges(s: State, n: NodeId, f: NodeId)
    requires TreeInv(s) && Link(n, f) in Edges(s)
    ensures Flight(n, f) !in Edges(s)
  {
    hide Edges;
    var S := Side(s.sites.Keys, Edges(s), Link(n, f));
    assert Crosses(Flight(n, f), S);
  }

  lemma SecondCallerClaims(s: State, a: Account, n: NodeId, s': State)
    requires ClaimInv(s, a) && Pending(s, n) && n != EmptyNode && s' == DoEnter(s, n)
    requires s.sites[n].father != EmptyNode ==> RequestCs(s.sites[n].father, n) !in s.net
    ensures (forall c, d :: HasClaim(s', n, c) && HasClaim(s', n, d) ==> c == d) <==> s.sites[n].father == EmptyNode
  {
    var f, c := s.sites[n].father, a.why[n];
    assert HasClaim(s, n, c);
    if f == EmptyNode {
      assert s'.net == s.net;
      forall d | HasClaim(s', n, d) ensures d == c { assert HasClaim(s, n, d); }
    } else {
      assert s'.net == s.net + multiset{RequestCs(f, n)};
      assert HasClaim(s', n, Asking(f)) && !HasClaim(s, n, Asking(f));
      assert HasClaim(s', n, c);
    }
  }

  /** Right after a second local caller has entered `request_CS`, while the first is blocked without
      the token, the node has one claim exactly when its father was empty at that moment; otherwise
      it has sent a second request. */
  lemma SecondCallerClaimsIff(s: State, n: NodeId)
    requires Reachable(s) && Pending(s, n)
    ensures var s' := DoEnter(s, n);
      (forall c, d :: HasClaim(s', n, c) && HasClaim(s', n, d) ==> c == d) <==> s.sites[n].father == EmptyNode
  {
    hide IsRun, After, TreeInv, QueueInv, TokenInv, ClaimInv, DoEnter;
    ReachableInv(s);
    var b :| Sound(s, b);
    var f := s.sites[n].father;
    if f != EmptyNode { ParallelEdges(s, n, f); }
    SecondCallerClaims(s, b.account, n, DoEnter(s, n));
  }

  // --- The queue and the father trees.

  lemma {:induction false} RunExtends(s: State, es: seq<Event>, e: Event)
    requires IsRun(s, es) && Enabled(After(s, es), e)
    ensures IsRun(s, es + [e]) && After(s, es + [e]) == Step(After(s, es), e)
    decreases |es|
  {
    hide Enabled, Step;
    if es == [] {
      assert [e][1..] == [] && es + [e] == [e];
    } else {
      RunExtends(Step(s, es[0]), es[1..], e);
      assert (es + [e])[1..] == es[1..] + [e];
    }
  }

  lemma ReachableStep(s: State, e: Event)
    requires Reachable(s) && Enabled(s, e)
    ensures Reachable(Step(s, e))
  {
    hide Enabled, Step, IsRun, After;
    var first, es :| first != EmptyNode && IsRun(Init(first), es) && s == After(Init(first), es);
    RunExtends(Init(first), es, e);
  }

  lemma ReachableInit(first: NodeId)
    requires first != EmptyNode
    ensures Reachable(Init(first))
  {
    assert IsRun(Init(first), []) && After(Init(first), []) == Init(first);
  }

  /** No father link connects `C` with the rest. */
  predicate FatherClosed(s: State, C: set<NodeId>) {
    forall n :: n in s.sites && s.sites[n].father != EmptyNode ==> (n in C <==> s.sites[n].father in C)
  }

  const A := Node("a", 1)
  const H := Node("h", 2)
  const Y := Node("y", 3)
  const Z := Node("z", 4)

  /** Nodes in the critical section, blocked, and idle. */
  function Busy(father: NodeId, next: NodeId): Site { Site(true, true, false, false, 1, false, father, next) }
  function Waits(father: NodeId, next: NodeId): Site { Site(false, true, false, false, 0, true, father, next) }

  /** `A` is in the critical section and `H` is queued behind it. */
  const Middle: State := State(map[A := Busy(H, H), H := Waits(EmptyNode, EmptyNode), Y := Fresh(H, false), Z := Fresh(H, false)], multiset{}, map[])

  /** Everybody has joined, nobody has asked for the token. */
  const Start: State := State(map[A := Fresh(EmptyNode, true), H := Fresh(A, false), Y := Fresh(H, false), Z := Fresh(H, false)], multiset{}, map[])

  lemma StartIsReachable()
    ensures Reachable(Start)
  {
    hide Reachable;
    ReachableInit(A);
    var s0 := Init(A);
    assert A in s0.sites;
    ReachableStep(s0, Join(H, A));
    var s1 := Step(s0, Join(H, A));
    ReachableStep(s1, Join(Y, H));
    var s2 := Step(s1, Join(Y, H));
    ReachableStep(s2, Join(Z, H));
    assert Step(s2, Join(Z, H)).sites == Start.sites;
  }

  lemma MiddleIsReachable()
    ensures Reachable(Middle)
  {
    hide Reachable;
    StartIsReachable();
    var s3 := Start;
    ReachableStep(s3, CallEnter(A));
    var s4 := Step(s3, CallEnter(A));
    ReachableStep(s4, CallEnter(H));
    var s5 := Step(s4, CallEnter(H));
    assert s5.net == multiset{RequestCs(A, H)};
    ReachableStep(s5, DeliverRequest(A, H));
    var s6 := Step(s5, DeliverRequest(A, H));
    assert s6.net == multiset{};
    assert s6.sites == Middle.sites;
  }

  /** `Y` was queued behind `H`, then `H` forwarded the request of `Z` to `Y`. */
  const Split: State := State(
    map[A := Busy(H, H), H := Waits(Z, Y), Y := Waits(EmptyNode, EmptyNode), Z := Waits(EmptyNode, EmptyNode)],
    multiset{RequestCs(Y, Z)}, map[])

  lemma SplitIsReachable()
    ensures Reachable(Split)
  {
    hide Reachable;
    MiddleIsReachable();
    ReachableStep(Middle, CallEnter(Y));
    var s1 := Step(Middle, CallEnter(Y));
    assert s1.net == multiset{RequestCs(H, Y)};
    ReachableStep(s1, DeliverRequest(H, Y));
    var s2 := Step(s1, DeliverRequest(H, Y));
    assert s2.net == multiset{};
    ReachableStep(s2, CallEnter(Z));
    var s3 := Step(s2, CallEnter(Z));
    assert s3.net == multiset{RequestCs(H, Z)};
    ReachableStep(s3, DeliverRequest(H, Z));
    var s4 := Step(s3, DeliverRequest(H, Z));
    assert s4.net == Split.net;
    assert s4.sites == Split.sites;
  }

  /** The chains of `next` do not always stay inside one father tree: here `H` is queued before
      `Y`, and no father link leads from the tree of `H` to `Y`. */
  lemma QueueLeavesFatherTree()
    ensures exists s, n ::
      Reachable(s) && n in s.sites && s.sites[n].next in s.sites && !SameFatherTree(s, n, s.sites[n].next)
  {
    hide Reachable;
    SplitIsReachable();
    var C := {A, H, Z};
    assert FatherClosed(Split, C) && C <= Split.sites.Keys;
    assert H in Split.sites && Split.sites[H].next == Y;
    assert !SameFatherTree(Split, H, Y);
  }

  /** A second local caller can give its node two claims: `H` above is queued behind `A` and would
      send a request to `Z` as well. */
  lemma SecondCallerCanHarm()
    ensures exists s, n, c, d ::
      && Reachable(s) && Pending(s, n)
      && HasClaim(DoEnter(s, n), n, c) && HasClaim(DoEnter(s, n), n, d) && c != d
  {
    hide Reachable, DoEnter, HasClaim;
    SplitIsReachable();
    assert Pending(Split, H) && Split.sites[H].father == Z;
    SecondCallerClaimsIff(Split, H);
  }

  /** The father links alone connect the members. */
  ghost predicate OneFatherTree(s: State) {
    forall C :: C <= s.sites.Keys && FatherClosed(s, C) ==> C == {} || C == s.sites.Keys
  }

  /** No `next` leads into `C` or out of it. */
  ghost predicate QueueInside(s: State, C: set<NodeId>) {
    forall n :: n in s.sites && s.sites[n].next in s.sites ==> (n in C <==> s.sites[n].next in C)
  }

  lemma ClosedUnlessCrossed(s: State, C: set<NodeId>)
    ensures FatherClosed(s, C) <==> forall e :: e in Edges(s) && e.Link? ==> !Crosses(e, C)
  {
    forall n | n in s.sites && s.sites[n].father != EmptyNode ensures Link(n, s.sites[n].father) in Edges(s) {}
  }

  lemma FlightSplits(s: State, d: NodeId, r: NodeId)
    requires Tree(s.sites.Keys, Edges(s)) && RequestCs(d, r) in s.net
    ensures !OneFatherTree(s)
  {
    var f := Flight(r, d);
    assert f in Edges(s) && EndsIn(s.sites.Keys, f) && IsBridge(s.sites.Keys, Edges(s), f);
    var S :| S <= s.sites.Keys && Bridges(Edges(s), f, S);
    ClosedUnlessCrossed(s, S);
  }

  /** The father links connect all members exactly when no REQUEST_CS is travelling; then every
      chain of `next` stays inside the one father tree. */
  lemma OneFatherTreeIff(s: State)
    requires Reachable(s) && s.sites.Keys != {}
    ensures OneFatherTree(s) <==> NoRequestInFlight(s)
    ensures NoRequestInFlight(s) ==> forall C :: C <= s.sites.Keys && FatherClosed(s, C) ==> QueueInside(s, C)
  {
    hide IsRun, After, Reachable, FatherClosed;
    AlwaysASpanningTree(s);
    if NoRequestInFlight(s) {
      forall C | C <= s.sites.Keys && FatherClosed(s, C) ensures C == {} || C == s.sites.Keys {
        ClosedUnlessCrossed(s, C);
        assert forall e :: e in Edges(s) ==> e.Link?;
      }
    } else {
      var p :| p in s.net && p.RequestCs?;
      FlightSplits(s, p.dst, p.requester);
    }
  }

  /** `n` and `m` are in the same father tree: no set closed under father links has just one. */
  ghost predicate SameFatherTree(s: State, n: NodeId, m: NodeId) {
    forall C :: C <= s.sites.Keys && FatherClosed(s, C) ==> (n in C <==> m in C)
  }

  /** The REQUEST_CS of `r`, travelling to `d`, lies between `n` and `m` in the spanning tree. */
  ghost predicate TravelsBetween(s: State, d: NodeId, r: NodeId, n: NodeId, m: NodeId)
    requires TreeInv(s)
  {
    RequestCs(d, r) in s.net
    && (n in Side(s.sites.Keys, Edges(s), Flight(r, d))) != (m in Side(s.sites.Keys, Edges(s), Flight(r, d)))
  }

  lemma SideIsClosed(s: State, d: NodeId, r: NodeId)
    requires TreeInv(s) && RequestCs(d, r) in s.net
    ensures FatherClosed(s, Side(s.sites.Keys, Edges(s), Flight(r, d)))
  {
    ClosedUnlessCrossed(s, Side(s.sites.Keys, Edges(s), Flight(r, d)));
  }

  lemma SplitByRequest(s: State, C: set<NodeId>, n: NodeId, m: NodeId) returns (d: NodeId, r: NodeId)
    requires TreeInv(s) && n in s.sites && m in s.sites
    requires C <= s.sites.Keys && FatherClosed(s, C) && (n in C) != (m in C)
    ensures TravelsBetween(s, d, r, n, m)
  {
    hide FatherClosed, Tree;
    var e := EdgeBetween(s.sites.Keys, Edges(s), C, n, m);
    ClosedUnlessCrossed(s, C);
    assert e.Flight?;
    d, r := e.to, e.from;
  }

  /** A link of the queue leaves its father tree if and only if some REQUEST_CS travels between
      its two nodes. */
  lemma NextLeavesFatherTreeIff(s: State, n: NodeId)
    requires Reachable(s) && n in s.sites && s.sites[n].next in s.sites
    ensures TreeInv(s)
    ensures !SameFatherTree(s, n, s.sites[n].next) <==> exists d, r :: TravelsBetween(s, d, r, n, s.sites[n].next)
  {
    hide Reachable, FatherClosed, Tree;
    AlwaysASpanningTree(s);
    var m := s.sites[n].next;
    if !SameFatherTree(s, n, m) {
      var C :| C <= s.sites.Keys && FatherClosed(s, C) && (n in C) != (m in C);
      var d, r := SplitByRequest(s, C, n, m);
    }
    forall d, r | TravelsBetween(s, d, r, n, m) ensures !SameFatherTree(s, n, m) { SideIsClosed(s, d, r); }
  }

  /** Every chain of `next` stays inside one father tree. */
  ghost predicate ChainsInside(s: State) {
    forall n, k: nat :: n in s.sites && Successor(s, n, k) in s.sites ==> SameFatherTree(s, n, Successor(s, n, k))
  }

  ghost predicate LinksInside(s: State) {
    forall n {:trigger s.sites[n]} :: n in s.sites && s.sites[n].next in s.sites ==> SameFatherTree(s, n, s.sites[n].next)
  }

  /** No REQUEST_CS travels between a node and its `next`. */
  ghost predicate NoneBetween(s: State)
    requires TreeInv(s)
  {
    forall n, d, r :: n in s.sites && s.sites[n].next in s.sites ==> !TravelsBetween(s, d, r, n, s.sites[n].next)
  }

  lemma {:induction false} ChainStays(s: State, n: NodeId, k: nat)
    requires EmptyNode !in s.sites && n in s.sites && Successor(s, n, k) in s.sites && LinksInside(s)
    ensures SameFatherTree(s, n, Successor(s, n, k))
    decreases k
  {
    hide FatherClosed;
    if k > 0 {
      var m := s.sites[n].next;
      ChainStays(s, m, k - 1);
    }
  }

  lemma ChainsAreLinks(s: State)
    requires Reachable(s)
    ensures ChainsInside(s) <==> LinksInside(s)
  {
    hide Reachable, SameFatherTree;
    NobodyIsNoSite(s);
    if LinksInside(s) {
      forall n, k: nat | n in s.sites && Successor(s, n, k) in s.sites ensures SameFatherTree(s, n, Successor(s, n, k)) {
        ChainStays(s, n, k);
      }
    }
    if ChainsInside(s) {
      forall n {:trigger s.sites[n]} | n in s.sites && s.sites[n].next in s.sites ensures SameFatherTree(s, n, s.sites[n].next) {
        assert Successor(s, s.sites[n].next, 0) == s.sites[n].next;
        assert Successor(s, n, 1) == s.sites[n].next;
      }
    }
  }

  /** Every chain of `next` stays inside one father tree if and only if no REQUEST_CS travels
      between a node and its `next`. */
  lemma ChainsStayInFatherTreeIff(s: State)
    requires Reachable(s) && s.sites.Keys != {}
    ensures TreeInv(s) && (ChainsInside(s) <==> NoneBetween(s))
  {
    hide Reachable, SameFatherTree, TravelsBetween, Tree, ChainsInside;
    AlwaysASpanningTree(s);
    ChainsAreLinks(s);
    forall n | n in s.sites && s.sites[n].next in s.sites
      ensures SameFatherTree(s, n, s.sites[n].next) <==> forall d, r :: !TravelsBetween(s, d, r, n, s.sites[n].next)
    {
      NextLeavesFatherTreeIff(s, n);
    }
  }

  lemma NobodyIsNoSite(s: State)
    requires Reachable(s)
    ensures EmptyNode !in s.sites
  {
    hide IsRun, After, TreeInv, QueueInv, TokenInv, ClaimInv;
    ReachableInv(s);
  }
}
