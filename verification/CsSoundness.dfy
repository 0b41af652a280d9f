/**
 Every event keeps the whole invariant: the token, the claims, the tree and the queue, while
 nodes join, leave and are reset.
 */
module CsSoundness {
  import opened Nodes
  import opened NaimiTrehel
  import opened CsMachine
  import opened CsToken
  import opened SpanningTree
  import opened CsTree
  import opened QueueOrder
  import opened CsQueue
  import opened CsQueueEnter

  datatype Books = Books(account: Account, order: Order)

  ghost predicate Sound(s: State, b: Books) {
    CoreInv(s, b.account) && TreeInv(s) && QueueInv(s, b.order)
  }

  predicate ProtocolEvent(e: Event) {
    e.CallEnter? || e.CallWake? || e.CallRelease? || e.DeliverRequest? || e.DeliverGrant?
  }

  /** The events of the protocol itself, with fixed membership. */
  lemma ProtocolKeepsSound(s: State, b: Books, e: Event) returns (b': Books)
    requires Sound(s, b) && Enabled(s, e) && ProtocolEvent(e)
    ensures Sound(Step(s, e), b')
  {
    hide CoreInv, TreeInv, QueueInv, DoEnter, DoWake, DoRelease, DoRequest, DoGrant, Booked;
    var a, o := b.account, b.order;
    match e
    case CallEnter(n) =>
      EnterKeepsCore(s, a, n);
      EnterKeepsTree(s, a, n);
      var o' := EnterKeepsQueue(s, a, o, n);
      b' := Books(Booked(s, a, e), o');
    case CallWake(n) =>
      WakeKeepsCore(s, a, n);
      WakeKeepsTree(s, n);
      WakeKeepsQueue(s, o, n);
      b' := b;
    case CallRelease(n) =>
      ReleaseKeepsCore(s, a, n);
      ReleaseKeepsTree(s, n);
      var o' := ReleaseKeepsQueue(s, a, o, n);
      b' := Books(Booked(s, a, e), o');
    case DeliverRequest(d, r) =>
      RequestKeepsCore(s, a, d, r);
      RequestKeepsTree(s, a, d, r);
      var o' := RequestKeepsQueue(s, a, o, d, r);
      b' := Books(Booked(s, a, e), o');
    case DeliverGrant(d) =>
      GrantKeepsCore(s, a, d);
      GrantKeepsTree(s, d);
      GrantKeepsQueue(s, o, d);
      b' := Books(Booked(s, a, e), o);
  }

  lemma WakeKeepsTree(s: State, n: NodeId)
    requires TreeInv(s) && Enabled(s, CallWake(n))
    ensures TreeInv(DoWake(s, n))
  {
    hide Tree, Edges;
    assert DoWake(s, n).net == s.net;
    EdgesKept(s, DoWake(s, n));
  }

  lemma ReleaseKeepsTree(s: State, n: NodeId)
    requires TreeInv(s) && Enabled(s, CallRelease(n))
    ensures TreeInv(DoRelease(s, n))
  {
    hide Tree, Edges;
    var x := s.sites[n].next;
    assert DoRelease(s, n).net == if s.sites[n].users > 1 || x == EmptyNode then s.net else s.net + multiset{GetCs(x)};
    EdgesKept(s, DoRelease(s, n));
  }

  lemma GrantKeepsTree(s: State, d: NodeId)
    requires TreeInv(s) && Enabled(s, DeliverGrant(d))
    ensures TreeInv(DoGrant(s, d))
  {
    hide Tree, Edges;
    assert DoGrant(s, d).net == s.net - multiset{GetCs(d)};
    EdgesKept(s, DoGrant(s, d));
  }

  lemma JoinKeepsSound(s: State, b: Books, n: NodeId, c: NodeId) returns (b': Books)
    requires Sound(s, b) && n !in s.sites && n != EmptyNode && c in s.sites
    ensures Sound(DoJoin(s, n, c), b')
  {
    hide TreeInv, QueueInv, TokenInv, ClaimInv, DoJoin;
    JoinKeepsCore(s, b.account, n, c);
    JoinKeepsTree(s, n, c);
    JoinKeepsQueue(s, b.order, n, c);
    b' := Books(b.account, Admission(b.order, n, c));
  }

  // --- Leaving.

  /** A message that is not about requesting or granting the token. */
  predicate Foreign(p: Packet) {
    !p.RequestCs? && !p.GetCs?
  }

  /** The networks carry the same requests and grants. */
  ghost predicate SameTraffic(net: multiset<Packet>, net': multiset<Packet>) {
    forall p :: !Foreign(p) ==> net'[p] == net[p]
  }

  lemma ForeignMail(s: State, s': State, b: Books)
    requires Sound(s, b) && s'.sites == s.sites && SameTraffic(s.net, s'.net)
    ensures Sound(s', b)
  {
    ForeignMailCore(s, s', b.account);
    EdgesKept(s, s');
    ForeignMailQueue(s, s', b.order);
  }

  lemma ForeignMailCore(s: State, s': State, a: Account)
    requires CoreInv(s, a) && s'.sites == s.sites && SameTraffic(s.net, s'.net)
    ensures CoreInv(s', a)
  {
    forall p | p in s'.net ensures PacketOk(s', p) { if !Foreign(p) { assert PacketOk(s, p); } }
    forall p ensures TokenAt(s', p) <==> TokenAt(s, p) { assert GetCs(p.n) in s'.net <==> GetCs(p.n) in s.net; }
    forall n, c ensures HasClaim(s', n, c) <==> HasClaim(s, n, c) {
      assert GetCs(n) in s'.net <==> GetCs(n) in s.net;
      if c.Asking? { assert RequestCs(c.at, n) in s'.net <==> RequestCs(c.at, n) in s.net; }
    }
    assert forall n :: Pending(s', n) <==> Pending(s, n);
    assert forall n {:trigger s'.sites[n]} :: n in s'.sites ==> NamesOk(s, s.sites[n]) && NamesOk(s', s'.sites[n]);
  }

  lemma ForeignMailQueue(s: State, s': State, o: Order)
    requires QueueInv(s, o) && s'.sites == s.sites && SameTraffic(s.net, s'.net)
    ensures QueueInv(s', o)
  {
    hide Partial, MemberRule, LinkRule, RootRule, NextRule, FlightRule, SelfRule;
    forall a, b ensures RequestCs(b, a) in s'.net <==> RequestCs(b, a) in s.net {
      assert s'.net[RequestCs(b, a)] == s.net[RequestCs(b, a)];
    }
    forall m | GetCs(m) in s'.net ensures GetCs(m) in s.net { assert s'.net[GetCs(m)] == s.net[GetCs(m)]; }
    QueueKept(s, s', o);
  }

  /** A node that waits for its RESET_CS: it has no token and nobody in the critical section. */
  predicate Stale(t: Site) {
    !t.token && t.users == 0 && (t.requesting <==> t.waiting)
  }

  /** The nodes left behind by a departure, and the RESET_CS messages on their way to them. */
  ghost predicate StaleInv(s: State) {
    && (forall n :: n in s.stale ==> n !in s.sites && n != EmptyNode && Stale(s.stale[n]))
    && (forall n, r :: ResetCs(n, r) in s.net ==> n in s.stale && r in s.sites && s.net[ResetCs(n, r)] == 1)
    && (forall n, r, r' :: ResetCs(n, r) in s.net && ResetCs(n, r') in s.net ==> r == r')
  }

  /** Everybody left behind will be reset. */
  ghost predicate ResetsDue(s: State) {
    forall n :: n in s.stale ==> exists r :: ResetCs(n, r) in s.net
  }

  ghost predicate NoNewRoot(s: State) {
    forall n, l :: NewRootCs(n, l) !in s.net
  }

  /** The new root has not heard of its promotion yet: nobody has the token. */
  ghost predicate Orphaned(s: State, root: NodeId, leaver: NodeId) {
    && s.sites.Keys == {} && root in s.stale && s.net[NewRootCs(root, leaver)] == 1
    && (forall n, l :: NewRootCs(n, l) in s.net ==> n == root && l == leaver)
    && (forall p :: p in s.net ==> Foreign(p) && !p.ResetCs?)
    && (forall n :: n in s.stale ==> n != EmptyNode && Stale(s.stale[n]))
  }

  /** There is a root, and the protocol runs among the nodes that know it. */
  ghost predicate Rooted(s: State) {
    && s.sites.Keys != {} && (exists b :: Sound(s, b))
    && StaleInv(s) && ResetsDue(s) && NoNewRoot(s)
  }

  ghost predicate Inv(s: State) {
    Rooted(s) || exists r, l :: Orphaned(s, r, l)
  }

  lemma ApplyMail(s: State, n: NodeId, taken: multiset<Packet>, e: Effect)
    requires n in s.sites
    requires forall p :: p in taken ==> !Foreign(p)
    requires forall p :: p in e.sent ==> !Foreign(p)
    ensures var s' := Apply(s, n, taken, e);
      && s'.sites.Keys == s.sites.Keys && s'.stale == s.stale
      && (forall p :: Foreign(p) ==> s'.net[p] == s.net[p])
  {
    forall p | Foreign(p) ensures multiset(e.sent)[p] == 0 { assert p !in e.sent; }
  }

  /** The protocol itself sends only requests and grants. */
  lemma ProtocolMail(s: State, e: Event)
    requires Enabled(s, e) && ProtocolEvent(e)
    ensures var s' := Step(s, e);
      && s'.sites.Keys == s.sites.Keys && s'.stale == s.stale
      && (forall p :: Foreign(p) ==> s'.net[p] == s.net[p])
  {
    hide Apply;
    match e
    case CallEnter(n) => ApplyMail(s, n, multiset{}, Enter(s.sites[n], n));
    case CallWake(n) => ApplyMail(s, n, multiset{}, Effect(Wake(s.sites[n]), []));
    case CallRelease(n) => ApplyMail(s, n, multiset{}, Release(s.sites[n]));
    case DeliverRequest(d, r) => ApplyMail(s, d, multiset{RequestCs(d, r)}, OnRequest(s.sites[d], r));
    case DeliverGrant(d) => ApplyMail(s, d, multiset{GetCs(d)}, Effect(OnGrant(s.sites[d]), []));
  }

  lemma ProtocolKeepsRooted(s: State, e: Event)
    requires Enabled(s, e) && ProtocolEvent(e) && Rooted(s)
    ensures Rooted(Step(s, e))
  {
    hide Sound, Step;
    var s' := Step(s, e);
    var b :| Sound(s, b);
    var b' := ProtocolKeepsSound(s, b, e);
    ProtocolMail(s, e);
    forall n, r ensures s'.net[ResetCs(n, r)] == s.net[ResetCs(n, r)] { assert Foreign(ResetCs(n, r)); }
    forall n, l ensures NewRootCs(n, l) !in s'.net { assert Foreign(NewRootCs(n, l)); }
    forall n | n in s'.stale ensures exists r :: ResetCs(n, r) in s'.net {
      var r :| ResetCs(n, r) in s.net;
      assert ResetCs(n, r) in s'.net;
    }
  }

  lemma JoinKeepsRooted(s: State, n: NodeId, c: NodeId)
    requires Enabled(s, Join(n, c)) && Rooted(s)
    ensures Rooted(DoJoin(s, n, c))
  {
    hide Sound;
    var b :| Sound(s, b);
    var b' := JoinKeepsSound(s, b, n, c);
    var s' := DoJoin(s, n, c);
    assert n in s'.sites;
  }

  /** What the survivors of a departure look like. */
  lemma SurvivorsAreStale(s: State, a: Account, n: NodeId)
    requires CoreInv(s, a) && n in s.sites && s.sites[n].users > 0
    ensures forall m :: m in s.sites && m != n ==> m != EmptyNode && Stale(s.sites[m])
    ensures forall x :: GetCs(x) !in s.net
    ensures s.sites[n].next != n && InSites(s, s.sites[n].next)
  {
    assert LocalOk(s.sites[n]) && NamesOk(s, s.sites[n]);
    assert TokenAt(s, Held(n)) && !HasClaim(s, n, Queued(n));
    forall x ensures GetCs(x) !in s.net { assert !TokenAt(s, Moving(x)); }
    forall m | m in s.sites && m != n ensures m != EmptyNode && Stale(s.sites[m]) {
      assert LocalOk(s.sites[m]) && !TokenAt(s, Held(m));
    }
  }

  lemma LeaveOrphans(s: State, b: Books, n: NodeId, successor: NodeId)
    requires Enabled(s, CallLeave(n, successor)) && Sound(s, b) && StaleInv(s) && NoNewRoot(s)
    ensures exists r, l :: Orphaned(DoLeave(s, n, successor), r, l)
  {
    hide CoreInv, TreeInv, QueueInv;
    var s' := DoLeave(s, n, successor);
    SurvivorsAreStale(s, b.account, n);
    var x := s.sites[n].next;
    var root := if x == EmptyNode then successor else x;
    assert s'.net == s.net + multiset{NewRootCs(root, n)};
    forall p | p in s'.net ensures Foreign(p) && !p.ResetCs? {}
    assert Orphaned(s', root, n);
  }

  /** A single node with the token. */
  lemma AloneIsSound(s: State, n: NodeId)
    requires s.sites.Keys == {n} && n != EmptyNode && LocalOk(s.sites[n]) && s.sites[n].token
    requires s.sites[n].father == EmptyNode && s.sites[n].next == EmptyNode
    requires forall p :: p in s.net ==> Foreign(p)
    ensures exists b :: Sound(s, b)
  {
    hide CoreInv, TreeInv, QueueInv;
    AloneIsCore(s, n);
    AloneIsTree(s, n);
    AloneIsQueue(s, n);
    assert Sound(s, Books(Account(Held(n), map[]), AloneOrder(s, n)));
  }

  lemma AloneIsCore(s: State, n: NodeId)
    requires s.sites.Keys == {n} && n != EmptyNode && LocalOk(s.sites[n]) && s.sites[n].token
    requires s.sites[n].father == EmptyNode && s.sites[n].next == EmptyNode
    requires forall p :: p in s.net ==> Foreign(p)
    ensures CoreInv(s, Account(Held(n), map[]))
  {
    assert forall p :: TokenAt(s, p) <==> p == Held(n);
    assert forall m, c :: m != EmptyNode ==> !HasClaim(s, m, c);
  }

  lemma AloneIsTree(s: State, n: NodeId)
    requires s.sites.Keys == {n} && s.sites[n].father == EmptyNode
    requires forall p :: p in s.net ==> Foreign(p)
    ensures TreeInv(s)
  {
    forall e ensures e !in Edges(s) {
      match e
      case Link(_, _) =>
      case Flight(x, d) => assert RequestCs(d, x) !in s.net;
    }
    assert Edges(s) == {};
    assert forall S: set<NodeId> :: {} < S ==> !(S < {n});
  }

  ghost function AloneOrder(s: State, n: NodeId): Order
    requires n in s.sites
  {
    Order(map[n := {}], map[n := if s.sites[n].requesting then {n} else {}])
  }

  lemma AloneIsQueue(s: State, n: NodeId)
    requires s.sites.Keys == {n} && s.sites[n].father == EmptyNode && s.sites[n].next == EmptyNode
    requires forall p :: p in s.net ==> Foreign(p)
    ensures QueueInv(s, AloneOrder(s, n))
  {
    var o := AloneOrder(s, n);
    assert forall m :: GetCs(m) !in s.net;
    assert forall d, x :: RequestCs(d, x) !in s.net;
    assert Partial(o);
    assert MemberRule(s, o) by { forall m, x | x in Upto(o, m) || x in Ahead(o, m) ensures Requesting(s, x) {} }
    assert RootRule(s, o) && SelfRule(s, o);
  }

  /** A message sent once to everybody is on its way once to everybody. */
  lemma {:induction false} ResetsOnce(nodes: seq<NodeId>, root: NodeId, p: Packet)
    requires forall i, j :: 0 <= i < j < |nodes| ==> nodes[i] != nodes[j]
    ensures multiset(Resets(nodes, root))[p] == if p.ResetCs? && p.sender == root && p.dst in nodes then 1 else 0
  {
    if nodes != [] {
      var rest := nodes[1..];
      ResetsOnce(rest, root, p);
      assert Resets(nodes, root) == [ResetCs(nodes[0], root)] + Resets(rest, root);
      assert multiset(Resets(nodes, root)) == multiset{ResetCs(nodes[0], root)} + multiset(Resets(rest, root));
      assert nodes[0] !in rest;
      assert p.ResetCs? ==> (p.dst in nodes <==> p.dst == nodes[0] || p.dst in rest) by { assert nodes == [nodes[0]] + rest; }
    }
  }

  /** The mail of the new root. */
  lemma NewRootSends(s: State, root: NodeId, leaver: NodeId, nodes: seq<NodeId>, p: Packet)
    requires root in s.stale && s.net[NewRootCs(root, leaver)] == 1
    requires forall i, j :: 0 <= i < j < |nodes| ==> nodes[i] != nodes[j]
    ensures DoNewRoot(s, root, leaver, nodes).net[p] ==
      (if p == NewRootCs(root, leaver) then 0 else s.net[p])
      + (if p.ResetCs? && p.sender == root && p.dst in nodes then 1 else 0)
      + (if p == LeaveCs(leaver) then 1 else 0)
  {
    var sent := Resets(nodes, root);
    assert multiset(sent + [LeaveCs(leaver)]) == multiset(sent) + multiset{LeaveCs(leaver)};
    ResetsOnce(nodes, root, p);
  }

  lemma NewRootMail(s: State, root: NodeId, leaver: NodeId, nodes: seq<NodeId>)
    requires Orphaned(s, root, leaver) && Enabled(s, DeliverNewRoot(root, leaver, nodes))
    ensures var net := DoNewRoot(s, root, leaver, nodes).net;
      && (forall p :: p in net ==> Foreign(p) && !p.NewRootCs?)
      && (forall n, r :: net[ResetCs(n, r)] == if r == root && n in s.stale && n != root then 1 else 0)
  {
    hide DoNewRoot;
    var net := DoNewRoot(s, root, leaver, nodes).net;
    forall n, r ensures net[ResetCs(n, r)] == if r == root && n in s.stale && n != root then 1 else 0 {
      NewRootSends(s, root, leaver, nodes, ResetCs(n, r));
      assert ResetCs(n, r) !in s.net;
      assert n in nodes <==> n in s.stale.Keys - {root};
    }
    forall p | p in net ensures Foreign(p) && !p.NewRootCs? {
      NewRootSends(s, root, leaver, nodes, p);
    }
  }

  lemma NewRootStale(s: State, root: NodeId, leaver: NodeId, nodes: seq<NodeId>)
    requires Orphaned(s, root, leaver) && Enabled(s, DeliverNewRoot(root, leaver, nodes))
    ensures var s' := DoNewRoot(s, root, leaver, nodes); StaleInv(s') && ResetsDue(s') && NoNewRoot(s')
  {
    var s' := DoNewRoot(s, root, leaver, nodes);
    NewRootMail(s, root, leaver, nodes);
    forall n | n in s'.stale ensures exists r :: ResetCs(n, r) in s'.net {
      assert s'.net[ResetCs(n, root)] == 1;
    }
    forall n, r | ResetCs(n, r) in s'.net ensures r == root && n in s'.stale {
      assert s'.net[ResetCs(n, r)] > 0;
    }
  }

  lemma NewRootAlone(s: State, root: NodeId, leaver: NodeId, nodes: seq<NodeId>)
    requires Orphaned(s, root, leaver) && Enabled(s, DeliverNewRoot(root, leaver, nodes))
    ensures exists b :: Sound(DoNewRoot(s, root, leaver, nodes), b)
    ensures DoNewRoot(s, root, leaver, nodes).sites.Keys != {}
  {
    hide Sound, Exchange;
    var s' := DoNewRoot(s, root, leaver, nodes);
    assert forall p :: p in s'.net ==> Foreign(p) by { NewRootMail(s, root, leaver, nodes); }
    assert root in s'.sites && s'.sites.Keys == {root};
    AloneIsSound(s', root);
  }

  lemma NewRootRoots(s: State, root: NodeId, leaver: NodeId, nodes: seq<NodeId>)
    requires Orphaned(s, root, leaver) && Enabled(s, DeliverNewRoot(root, leaver, nodes))
    ensures Rooted(DoNewRoot(s, root, leaver, nodes))
  {
    hide Sound, StaleInv, ResetsDue, NoNewRoot, DoNewRoot;
    NewRootAlone(s, root, leaver, nodes);
    NewRootStale(s, root, leaver, nodes);
  }

  /** A reset is a join that keeps the blocked caller: join, then ask again for it. */
  lemma ResetIsRejoin(s: State, n: NodeId, root: NodeId)
    requires n in s.stale && Stale(s.stale[n]) && s.net[ResetCs(n, root)] == 1 && root != EmptyNode
    ensures var s0 := State(s.sites, s.net - multiset{ResetCs(n, root)} + multiset{AckCs(root)}, s.stale - {n});
      DoReset(s, n, root) ==
        if s.stale[n].requesting then DoEnter(DoJoin(s0, n, root), n) else DoJoin(s0, n, root)
  {
    var s0 := State(s.sites, s.net - multiset{ResetCs(n, root)} + multiset{AckCs(root)}, s.stale - {n});
    var s', s1 := DoReset(s, n, root), DoJoin(s0, n, root);
    if s.stale[n].requesting {
      var s2 := DoEnter(s1, n);
      assert s1.sites[n] == Fresh(root, false);
      assert s2.sites[n] == s'.sites[n];
      assert s2.net == s0.net + multiset{RequestCs(root, n)};
      assert multiset([AckCs(root), RequestCs(root, n)]) == multiset{AckCs(root)} + multiset{RequestCs(root, n)};
      assert s'.net == s2.net;
      assert s'.sites == s2.sites;
    } else {
      assert s'.net == s1.net;
      assert s'.sites == s1.sites;
    }
  }

  lemma ResetKeepsSound(s: State, b: Books, n: NodeId, root: NodeId, s': State) returns (b': Books)
    requires Enabled(s, DeliverReset(n, root)) && s' == DoReset(s, n, root)
    requires Sound(s, b) && StaleInv(s)
    ensures Sound(s', b')
  {
    hide Sound, DoReset, DoEnter, DoJoin;
    var s0 := State(s.sites, s.net - multiset{ResetCs(n, root)} + multiset{AckCs(root)}, s.stale - {n});
    assert root != EmptyNode && root in s.sites by { SitesAreNodes(s, b); }
    ResetIsRejoin(s, n, root);
    forall p | !Foreign(p) ensures s0.net[p] == s.net[p] {}
    ForeignMail(s, s0, b);
    b' := JoinKeepsSound(s0, b, n, root);
    if s.stale[n].requesting {
      var s1 := DoJoin(s0, n, root);
      JoinedIsIdle(s0, n, root);
      b' := ProtocolKeepsSound(s1, b', CallEnter(n));
    }
  }

  lemma SitesAreNodes(s: State, b: Books)
    requires Sound(s, b)
    ensures EmptyNode !in s.sites
  {
  }

  lemma JoinedIsIdle(s: State, n: NodeId, c: NodeId)
    ensures Enabled(DoJoin(s, n, c), CallEnter(n))
  {
  }

  lemma ResetMail(s: State, n: NodeId, root: NodeId)
    requires n in s.stale && s.net[ResetCs(n, root)] == 1
    ensures var s' := DoReset(s, n, root);
      && s'.sites.Keys == s.sites.Keys + {n} && s'.stale == s.stale - {n}
      && (forall m, r :: s'.net[ResetCs(m, r)] == if m == n && r == root then 0 else s.net[ResetCs(m, r)])
      && (forall m, l :: s'.net[NewRootCs(m, l)] == s.net[NewRootCs(m, l)])
  {
    var e := OnReset(s.stale[n], n, root);
    assert e.sent == [AckCs(root)] || e.sent == [AckCs(root), RequestCs(root, n)];
    assert forall m, r :: multiset(e.sent)[ResetCs(m, r)] == 0;
    assert forall m, l :: multiset(e.sent)[NewRootCs(m, l)] == 0;
  }

  lemma ResetKeepsStale(s: State, n: NodeId, root: NodeId, s': State)
    requires Enabled(s, DeliverReset(n, root)) && s' == DoReset(s, n, root)
    requires StaleInv(s) && ResetsDue(s) && NoNewRoot(s)
    ensures StaleInv(s') && ResetsDue(s') && NoNewRoot(s')
  {
    hide DoReset;
    ResetMail(s, n, root);
    forall m, r ensures ResetCs(m, r) in s'.net <==> ResetCs(m, r) in s.net && m != n {
      assert s'.net[ResetCs(m, r)] == if m == n && r == root then 0 else s.net[ResetCs(m, r)];
    }
    forall m | m in s'.stale ensures exists r :: ResetCs(m, r) in s'.net {
      var r :| ResetCs(m, r) in s.net;
      assert ResetCs(m, r) in s'.net;
    }
    forall m, l ensures NewRootCs(m, l) !in s'.net { assert s'.net[NewRootCs(m, l)] == 0; }
  }

  lemma ResetKeepsRooted(s: State, n: NodeId, root: NodeId, s': State)
    requires Enabled(s, DeliverReset(n, root)) && s' == DoReset(s, n, root)
    requires Rooted(s)
    ensures Rooted(s')
  {
    hide Sound, StaleInv, ResetsDue, NoNewRoot;
    var b :| Sound(s, b);
    var b' := ResetKeepsSound(s, b, n, root, s');
    ResetKeepsStale(s, n, root, s');
    assert n in s'.sites;
  }

  // --- All events, all runs.

  lemma StepFromRooted(s: State, e: Event)
    requires Rooted(s) && Enabled(s, e)
    ensures Inv(Step(s, e))
  {
    hide Sound, ResetsDue, DoJoin, DoLeave, DoReset;
    if ProtocolEvent(e) {
      ProtocolKeepsRooted(s, e);
    } else {
      match e
      case Join(n, c) => JoinKeepsRooted(s, n, c);
      case CallLeave(n, successor) =>
        var b :| Sound(s, b);
        LeaveOrphans(s, b, n, successor);
      case DeliverReset(n, root) => ResetKeepsRooted(s, n, root, Step(s, e));
      case _ =>
    }
  }

  lemma StepFromOrphaned(s: State, e: Event, root: NodeId, leaver: NodeId)
    requires Orphaned(s, root, leaver) && Enabled(s, e)
    ensures Rooted(Step(s, e))
  {
    hide Rooted;
    assert e.DeliverNewRoot? && e.at == root && e.leaver == leaver;
    NewRootRoots(s, root, leaver, e.nodes);
  }

  lemma StepKeepsInv(s: State, e: Event)
    requires Inv(s) && Enabled(s, e)
    ensures Inv(Step(s, e))
  {
    hide Rooted, Orphaned, Enabled, Step;
    if Rooted(s) {
      StepFromRooted(s, e);
    } else {
      var r, l :| Orphaned(s, r, l);
      StepFromOrphaned(s, e, r, l);
    }
  }

  lemma InitInv(first: NodeId)
    requires first != EmptyNode
    ensures Inv(Init(first))
  {
    hide Sound;
    var s := Init(first);
    assert s.sites.Keys == {first};
    AloneIsSound(s, first);
    assert Rooted(s);
  }

  lemma {:induction false} RunKeepsInv(s: State, es: seq<Event>)
    requires Inv(s) && IsRun(s, es)
    ensures Inv(After(s, es))
    decreases |es|
  {
    hide Inv, Enabled, Step;
    if es != [] {
      StepKeepsInv(s, es[0]);
      RunKeepsInv(Step(s, es[0]), es[1..]);
    }
  }
}
