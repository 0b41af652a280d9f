/**
 The distributed queue: the order recorded in `QueueOrder` agrees with the variables of the
 nodes and the messages in flight, at every step.
 */
module CsQueue {
  import opened Nodes
  import opened NaimiTrehel
  import opened CsMachine
  import opened CsToken
  import opened SpanningTree
  import opened CsTree
  import opened QueueOrder

  function Ahead(o: Order, n: NodeId): set<NodeId> {
    if n in o.ahead then o.ahead[n] else {}
  }

  function Upto(o: Order, n: NodeId): set<NodeId> {
    if n in o.upto then o.upto[n] else {}
  }

  predicate Requesting(s: State, n: NodeId) {
    n in s.sites && s.sites[n].requesting
  }

  /** Only requesting nodes are in the record. */
  ghost predicate MemberRule(s: State, o: Order) {
    forall n, x :: x in Upto(o, n) || x in Ahead(o, n) ==> Requesting(s, x)
  }

  /** A request takes the same place wherever it enters a father tree. */
  ghost predicate LinkRule(s: State, o: Order) {
    forall n {:trigger s.sites[n]} :: n in s.sites && s.sites[n].father != EmptyNode ==>
      Upto(o, n) == Upto(o, s.sites[n].father)
  }

  /** A root answers a request itself: after its own, or at once when it is idle. */
  ghost predicate RootRule(s: State, o: Order) {
    forall n {:trigger s.sites[n]} :: n in s.sites && s.sites[n].father == EmptyNode ==>
      Upto(o, n) == if s.sites[n].requesting then Ahead(o, n) + {n} else {}
  }

  ghost predicate NextRule(s: State, o: Order) {
    forall n {:trigger s.sites[n]} :: n in s.sites && s.sites[n].next != EmptyNode ==>
      Ahead(o, s.sites[n].next) == Ahead(o, n) + {n}
  }

  ghost predicate FlightRule(s: State, o: Order) {
    forall d, r :: RequestCs(d, r) in s.net ==> Ahead(o, r) == Upto(o, d)
  }

  /** A request that reaches a requesting node is served after it. */
  ghost predicate SelfRule(s: State, o: Order) {
    forall n {:trigger s.sites[n]} :: n in s.sites && s.sites[n].requesting ==>
      Ahead(o, n) + {n} <= Upto(o, n)
  }

  /** Nobody is ahead of the node that has or gets the token. */
  ghost predicate TokenRule(s: State, o: Order) {
    && (forall n {:trigger s.sites[n]} :: n in s.sites && s.sites[n].token ==> Ahead(o, n) == {})
    && (forall n :: GetCs(n) in s.net ==> Ahead(o, n) == {})
  }

  ghost predicate QueueInv(s: State, o: Order) {
    && OnNodes(s.sites.Keys, o) && Partial(o) && MemberRule(s, o)
    && LinkRule(s, o) && RootRule(s, o) && NextRule(s, o)
    && FlightRule(s, o) && SelfRule(s, o) && TokenRule(s, o)
  }

  // --- The region of a node: the part of its father tree below it.

  /** A set of nodes below `d` that only the link of `d` connects to the rest of its tree. */
  ghost predicate Region(s: State, o: Order, d: NodeId, X: set<NodeId>) {
    && d in X && X <= s.sites.Keys
    && (forall m :: m in X ==> Upto(o, m) == Upto(o, d))
    && (forall m {:trigger s.sites[m]} :: m in s.sites && m != d && s.sites[m].father != EmptyNode ==>
          (m in X <==> s.sites[m].father in X))
    && (forall m {:trigger s.sites[m]} :: m in s.sites && m != d && s.sites[m].father == EmptyNode ==> m !in X)
    && s.sites[d].father !in X
  }

  /** Two roots never give a request the same place. */
  lemma RootsDiffer(s: State, a: Account, o: Order, t: NodeId, t': NodeId)
    requires ShapeInv(s) && TokenInv(s, a) && OnNodes(s.sites.Keys, o) && Partial(o) && RootRule(s, o)
    requires t in s.sites && s.sites[t].father == EmptyNode
    requires t' in s.sites && s.sites[t'].father == EmptyNode
    requires Upto(o, t) == Upto(o, t')
    ensures t == t'
  {
    assert LocalOk(s.sites[t]) && LocalOk(s.sites[t']);
    if s.sites[t].requesting {
      assert t in Upto(o, t) && t' in Upto(o, t');
      assert Down(o, o.ahead[t]) && t !in o.ahead[t];
    } else {
      assert TokenAt(s, Held(t));
      assert s.sites[t'].requesting ==> t' in Upto(o, t');
      assert TokenAt(s, Held(t'));
    }
  }

  /** The father chain of `n` ends at a root, without leaving a set closed under `father`. */
  lemma {:induction false} RootIn(s: State, o: Order, n: NodeId, S: set<NodeId>) returns (t: NodeId)
    requires TreeInv(s) && WellFormed(s) && LinkRule(s, o) && n in S && S <= s.sites.Keys
    requires forall m {:trigger s.sites[m]} :: m in S && s.sites[m].father != EmptyNode ==> s.sites[m].father in S
    ensures t in S && s.sites[t].father == EmptyNode && Upto(o, t) == Upto(o, n)
    decreases S
  {
    var f := s.sites[n].father;
    if f == EmptyNode {
      t := n;
    } else {
      var T := LinkCut(s, n);
      assert forall m {:trigger s.sites[m]} :: m in S * T && s.sites[m].father != EmptyNode ==> s.sites[m].father in S * T by {
        forall m | m in S * T && s.sites[m].father != EmptyNode ensures s.sites[m].father in S * T {
          assert Link(m, s.sites[m].father) in Edges(s) && !Crosses(Link(m, s.sites[m].father), T);
        }
      }
      t := RootIn(s, o, f, S * T);
    }
  }

  lemma RegionOfRoot(s: State, a: Account, o: Order, d: NodeId) returns (X: set<NodeId>)
    requires ShapeInv(s) && TokenInv(s, a) && OnNodes(s.sites.Keys, o) && Partial(o) && RootRule(s, o) && LinkRule(s, o)
    requires d in s.sites && s.sites[d].father == EmptyNode
    ensures Region(s, o, d, X)
  {
    X := set m | m in s.sites && Upto(o, m) == Upto(o, d);
    forall m | m in s.sites && m != d && s.sites[m].father == EmptyNode ensures m !in X {
      if m in X { RootsDiffer(s, a, o, m, d); }
    }
    forall m | m in s.sites && m != d && s.sites[m].father != EmptyNode ensures m in X <==> s.sites[m].father in X {
      assert NamesOk(s, s.sites[m]);
    }
  }

  lemma RegionOfChild(s: State, a: Account, o: Order, d: NodeId) returns (X: set<NodeId>)
    requires ShapeInv(s) && TokenInv(s, a) && TreeInv(s)
    requires OnNodes(s.sites.Keys, o) && Partial(o) && RootRule(s, o) && LinkRule(s, o)
    requires d in s.sites && s.sites[d].father != EmptyNode
    ensures Region(s, o, d, X)
  {
    var f := s.sites[d].father;
    var S := LinkCut(s, d);
    X := set m | m in s.sites && m !in S && Upto(o, m) == Upto(o, d);
    forall m | m in s.sites && m != d && s.sites[m].father != EmptyNode
      ensures !Crosses(Link(m, s.sites[m].father), S) && s.sites[m].father in s.sites
    {
      assert Link(m, s.sites[m].father) in Edges(s) && NamesOk(s, s.sites[m]);
    }
    var t := RootIn(s, o, f, S);
    forall m | m in s.sites && m != d && s.sites[m].father == EmptyNode ensures m !in X {
      if m in X { RootsDiffer(s, a, o, m, t); }
    }
  }

  lemma RegionOf(s: State, a: Account, o: Order, d: NodeId) returns (X: set<NodeId>)
    requires CoreInv(s, a) && TreeInv(s) && QueueInv(s, o) && d in s.sites
    ensures Region(s, o, d, X)
  {
    if s.sites[d].father == EmptyNode {
      X := RegionOfRoot(s, a, o, d);
    } else {
      X := RegionOfChild(s, a, o, d);
    }
  }

  // --- A travelling request reaches a node.

  /** The requests other than that of `r` that are heading for `X`. */
  ghost function Heading(s: State, X: set<NodeId>, r: NodeId): (U: set<NodeId>)
    ensures forall d, u :: RequestCs(d, u) in s.net && d in X && u != r ==> u in U
    ensures forall u :: u in U ==> u != r && exists d :: d in X && RequestCs(d, u) in s.net
  {
    var U := set p | p in s.net && p.RequestCs? && p.dst in X && p.requester != r :: p.requester;
    assert forall d, u :: RequestCs(d, u) in s.net && d in X && u != r ==> RequestCs(d, u).requester in U;
    U
  }

  /** A travelling request has a requesting node behind it, which has no other claim. */
  ghost predicate Travellers(s: State) {
    && (forall e, u :: RequestCs(e, u) in s.net ==> e in s.sites && u in s.sites && Requesting(s, u))
    && (forall e, e', u :: RequestCs(e, u) in s.net && RequestCs(e', u) in s.net ==> e == e')
    && (forall m {:trigger s.sites[m]} :: m in s.sites ==>
          InSites(s, s.sites[m].father) && InSites(s, s.sites[m].next))
  }

  /** The members of `U` have neither the token nor a place behind somebody. */
  ghost predicate Free(s: State, U: set<NodeId>) {
    && (forall m {:trigger s.sites[m]} :: m in s.sites ==> s.sites[m].next !in U)
    && (forall m {:trigger s.sites[m]} :: m in s.sites && s.sites[m].token ==> m !in U)
    && (forall m :: GetCs(m) in s.net ==> m !in U)
  }

  /** What the delivery of the request of `r` at `d` does to the record. */
  ghost function Arrival(s: State, o: Order, d: NodeId, r: NodeId, X: set<NodeId>): Order {
    Raise(o, X, Upto(o, r), Heading(s, X, r))
  }

  lemma UptoIsChain(o: Order, n: NodeId)
    requires Partial(o) && n in o.upto
    ensures Down(o, Upto(o, n)) && Chain(o, Upto(o, n))
  {
  }

  lemma NotAheadOfItself(o: Order, u: NodeId)
    requires Partial(o) && u in o.ahead
    ensures u !in o.ahead[u]
  {
  }

  /** Two requests with the same nodes ahead of them never come one after the other. */
  lemma RivalsApart(o: Order, N: set<NodeId>, r: NodeId, u: NodeId)
    requires Chain(o, N) && r in N && r in o.ahead && u in o.ahead && r != u
    requires r !in o.ahead[u] && u !in o.ahead[r]
    ensures u !in N
  {
    assert !Ordered(o, r, u);
  }

  /** The place of a travelling request, and of those heading for the same region. */
  lemma HeadingPlace(s: State, o: Order, d: NodeId, r: NodeId, X: set<NodeId>)
    requires OnNodes(s.sites.Keys, o) && Partial(o) && FlightRule(s, o) && SelfRule(s, o)
    requires Region(s, o, d, X) && RequestCs(d, r) in s.net && Travellers(s)
    ensures Ahead(o, r) == Upto(o, d) && Upto(o, d) <= Upto(o, r)
    ensures CanRaise(o, Upto(o, r), Heading(s, X, r))
  {
    var U, B, N := Heading(s, X, r), Upto(o, d), Upto(o, r);
    hide Partial, Chain, Down;
    assert Requesting(s, r) && Ahead(o, r) + {r} <= Upto(o, r);
    UptoIsChain(o, r);
    NotAheadOfItself(o, r);
    forall u | u in U ensures u in s.sites && Ahead(o, u) == B && u !in N {
      var e :| e in X && RequestCs(e, u) in s.net;
      assert Upto(o, e) == B;
      NotAheadOfItself(o, u);
      RivalsApart(o, N, r, u);
    }
  }

  /** The raised record at the nodes whose place does not change. */
  ghost predicate Settles(s: State, o: Order, d: NodeId, r: NodeId, X: set<NodeId>) {
    var o' := Arrival(s, o, d, r, X);
    && Ahead(o', r) == Ahead(o, r) == Upto(o, d) <= Upto(o, r)
    && Upto(o', r) == Upto(o, r) == Upto(o', d)
    && (forall m :: m in s.sites && m !in X && Upto(o, m) == Upto(o, d) ==> Upto(o', m) == Upto(o, m))
    && (forall m :: m in Upto(o, r) ==> Ahead(o', m) == Ahead(o, m))
  }

  lemma ArrivalSettles(s: State, o: Order, d: NodeId, r: NodeId, X: set<NodeId>)
    requires OnNodes(s.sites.Keys, o) && Region(s, o, d, X) && r in s.sites
    requires CanRaise(o, Upto(o, r), Heading(s, X, r))
    requires Ahead(o, r) == Upto(o, d) && Upto(o, d) <= Upto(o, r)
    ensures Settles(s, o, d, r, X)
  {
    var o', U, N := Arrival(s, o, d, r, X), Heading(s, X, r), Upto(o, r);
    forall m | m in N ensures Ahead(o', m) == Ahead(o, m) { NotBehind(o, N, U, m); }
    assert N * U == {};
    assert Ahead(o, r) * U == {};
  }

  lemma SettlesAgree(s: State, o: Order, d: NodeId, r: NodeId, X: set<NodeId>)
    requires Settles(s, o, d, r, X)
    ensures Upto(Arrival(s, o, d, r, X), r) == Upto(Arrival(s, o, d, r, X), d)
  {
  }

  /** The effect of the delivery, as far as the rules look at it. */
  ghost predicate Arrived(s: State, s': State, d: NodeId, r: NodeId) {
    && d in s.sites && r in s.sites && r != EmptyNode && s'.sites.Keys == s.sites.Keys
    && (forall m {:trigger s'.sites[m]} :: m in s.sites && m != d ==> s'.sites[m] == s.sites[m])
    && s'.sites[d].father == r && s'.sites[d].requesting == s.sites[d].requesting
    && (forall a, b :: RequestCs(b, a) in s'.net <==>
          || (RequestCs(b, a) in s.net && !(a == r && b == d))
          || (s.sites[d].father != EmptyNode && a == r && b == s.sites[d].father))
  }

  lemma FatherIsNode(s: State, m: NodeId)
    requires Travellers(s) && m in s.sites && s.sites[m].father != EmptyNode
    ensures s.sites[m].father in s.sites
  {
  }

  lemma ArrivalLinks(s: State, s': State, o: Order, d: NodeId, r: NodeId, X: set<NodeId>)
    requires Arrived(s, s', d, r) && Region(s, o, d, X) && LinkRule(s, o) && OnNodes(s.sites.Keys, o)
    requires Travellers(s) && Upto(Arrival(s, o, d, r, X), r) == Upto(Arrival(s, o, d, r, X), d)
    ensures LinkRule(s', Arrival(s, o, d, r, X))
  {
    hide Travellers;
    var o' := Arrival(s, o, d, r, X);
    forall m | m in s'.sites && s'.sites[m].father != EmptyNode ensures Upto(o', m) == Upto(o', s'.sites[m].father) {
      if m != d {
        assert s'.sites[m] == s.sites[m];
        FatherIsNode(s, m);
      }
    }
  }

  lemma ArrivalRoots(s: State, s': State, o: Order, d: NodeId, r: NodeId, X: set<NodeId>)
    requires Arrived(s, s', d, r) && Region(s, o, d, X) && RootRule(s, o) && OnNodes(s.sites.Keys, o)
    ensures RootRule(s', Arrival(s, o, d, r, X))
  {
    var o', U := Arrival(s, o, d, r, X), Heading(s, X, r);
    forall m | m in s'.sites && s'.sites[m].father == EmptyNode
      ensures Upto(o', m) == if s'.sites[m].requesting then Ahead(o', m) + {m} else {}
    {
      assert m != d && s'.sites[m] == s.sites[m] && m !in X;
      if s.sites[m].requesting { RaisedRoot(o, X, Upto(o, r), U, m); }
    }
  }

  lemma ArrivalFlights(s: State, s': State, o: Order, d: NodeId, r: NodeId, X: set<NodeId>)
    requires Arrived(s, s', d, r) && Region(s, o, d, X) && FlightRule(s, o) && LinkRule(s, o) && OnNodes(s.sites.Keys, o)
    requires Travellers(s) && RequestCs(d, r) in s.net && Settles(s, o, d, r, X)
    ensures FlightRule(s', Arrival(s, o, d, r, X))
  {
    var o', U, N := Arrival(s, o, d, r, X), Heading(s, X, r), Upto(o, r);
    forall e, u | RequestCs(e, u) in s'.net ensures Ahead(o', u) == Upto(o', e) {
      if u == r {
        assert e == s.sites[d].father;
      } else {
        assert u in U <==> e in X;
        RaisedFlight(o, X, N, U, e, u);
      }
    }
  }

  lemma ArrivalSelf(s: State, s': State, o: Order, d: NodeId, r: NodeId, X: set<NodeId>)
    requires Arrived(s, s', d, r) && Region(s, o, d, X) && SelfRule(s, o) && OnNodes(s.sites.Keys, o) && Partial(o)
    requires CanRaise(o, Upto(o, r), Heading(s, X, r)) && Settles(s, o, d, r, X)
    ensures SelfRule(s', Arrival(s, o, d, r, X))
  {
    var o', U, N := Arrival(s, o, d, r, X), Heading(s, X, r), Upto(o, r);
    forall m | m in s'.sites && s'.sites[m].requesting ensures Ahead(o', m) + {m} <= Upto(o', m) {
      assert m != d ==> s'.sites[m] == s.sites[m];
      assert s.sites[m].requesting && Ahead(o, m) + {m} <= Upto(o, m);
      RaisedSelf(o, X, N, U, m);
    }
  }

  lemma ArrivalNext(s: State, s': State, o: Order, d: NodeId, r: NodeId, X: set<NodeId>)
    requires Arrived(s, s', d, r) && NextRule(s, o) && OnNodes(s.sites.Keys, o)
    requires Travellers(s) && Free(s, Heading(s, X, r))
    requires s'.sites[d].next == s.sites[d].next || (s'.sites[d].next == r &&
      Ahead(Arrival(s, o, d, r, X), r) == Ahead(Arrival(s, o, d, r, X), d) + {d})
    ensures NextRule(s', Arrival(s, o, d, r, X))
  {
    var o', U, N := Arrival(s, o, d, r, X), Heading(s, X, r), Upto(o, r);
    forall m | m in s'.sites && s'.sites[m].next != EmptyNode ensures Ahead(o', s'.sites[m].next) == Ahead(o', m) + {m} {
      assert m != d ==> s'.sites[m] == s.sites[m];
      if s'.sites[m].next == s.sites[m].next {
        RaisedNext(o, X, N, U, m, s.sites[m].next);
      }
    }
  }

  lemma ArrivalTokens(s: State, s': State, o: Order, d: NodeId, r: NodeId, X: set<NodeId>)
    requires Arrived(s, s', d, r) && TokenRule(s, o) && OnNodes(s.sites.Keys, o)
    requires Free(s, Heading(s, X, r))
    requires s'.sites[d].token ==> s.sites[d].token
    requires forall m :: GetCs(m) in s'.net ==> GetCs(m) in s.net || (m == r && Ahead(Arrival(s, o, d, r, X), r) == {})
    ensures TokenRule(s', Arrival(s, o, d, r, X))
  {
    var o', U := Arrival(s, o, d, r, X), Heading(s, X, r);
    forall m | m in s'.sites && s'.sites[m].token ensures Ahead(o', m) == {} {
      assert m != d ==> s'.sites[m] == s.sites[m];
      assert s.sites[m].token && Ahead(o, m) == {};
    }
  }

  lemma RaiseAdds(o: Order, X: set<NodeId>, N: set<NodeId>, U: set<NodeId>, n: NodeId)
    ensures Upto(Raise(o, X, N, U), n) <= Upto(o, n) + N && Ahead(Raise(o, X, N, U), n) <= Ahead(o, n) + N
  {}

  lemma ArrivalMembers(s: State, s': State, o: Order, d: NodeId, r: NodeId, X: set<NodeId>)
    requires Arrived(s, s', d, r) && MemberRule(s, o)
    ensures MemberRule(s', Arrival(s, o, d, r, X))
  {
    hide Raise, Upto, Ahead;
    var o' := Arrival(s, o, d, r, X);
    forall n, x | x in Upto(o', n) || x in Ahead(o', n) ensures Requesting(s', x) {
      RaiseAdds(o, X, Upto(o, r), Heading(s, X, r), n);
      assert x in Upto(o, r) || x in Upto(o, n) || x in Ahead(o, n);
      assert Requesting(s, x);
      assert x != d ==> s'.sites[x] == s.sites[x];
    }
  }

  lemma TravellersAreFree(s: State, a: Account, X: set<NodeId>, r: NodeId)
    requires CoreInv(s, a)
    ensures Travellers(s) && Free(s, Heading(s, X, r))
  {
    forall e, u | RequestCs(e, u) in s.net
      ensures e in s.sites && u in s.sites && Requesting(s, u) && u != EmptyNode && Pending(s, u)
      ensures u in a.why && a.why[u] == Asking(e)
    {
      assert PacketOk(s, RequestCs(e, u)) && HasClaim(s, u, Asking(e));
      assert LocalOk(s.sites[u]);
    }
    forall m | m in s.sites
      ensures InSites(s, s.sites[m].father) && InSites(s, s.sites[m].next) && s.sites[m].next !in Heading(s, X, r)
    {
      var x := s.sites[m].next;
      assert NamesOk(s, s.sites[m]);
      assert x != EmptyNode ==> HasClaim(s, x, Queued(m));
    }
    forall m | GetCs(m) in s.net ensures m !in Heading(s, X, r) {
      assert PacketOk(s, GetCs(m)) && HasClaim(s, m, Granted);
    }
  }

  /** The part of the effect that depends on what the node does with the request. */
  ghost predicate Answered(s: State, s': State, d: NodeId, r: NodeId) {
    && d in s.sites && d in s'.sites
    && (s'.sites[d].token ==> s.sites[d].token)
    && (s'.sites[d].next == s.sites[d].next ||
        (s.sites[d].father == EmptyNode && s.sites[d].requesting && s'.sites[d].next == r))
    && (forall m :: GetCs(m) in s'.net ==>
          GetCs(m) in s.net || (m == r && s.sites[d].father == EmptyNode && !s.sites[d].requesting))
  }

  lemma RequestArrives(s: State, d: NodeId, r: NodeId)
    requires d in s.sites && r in s.sites && r != EmptyNode && !s.sites[d].leaving && s.net[RequestCs(d, r)] == 1
    ensures Arrived(s, DoRequest(s, d, r), d, r) && Answered(s, DoRequest(s, d, r), d, r)
  {
    var s', f := DoRequest(s, d, r), s.sites[d].father;
    var rest := s.net - multiset{RequestCs(d, r)};
    assert s'.net == if f != EmptyNode then rest + multiset{RequestCs(f, r)}
                     else if s.sites[d].requesting then rest else rest + multiset{GetCs(r)};
  }

  lemma ArrivalGrants(s: State, s': State, o: Order, d: NodeId, r: NodeId, X: set<NodeId>)
    requires OnNodes(s.sites.Keys, o) && RootRule(s, o) && NextRule(s, o) && TokenRule(s, o)
    requires Travellers(s) && Free(s, Heading(s, X, r)) && Arrived(s, s', d, r) && Answered(s, s', d, r)
    requires Settles(s, o, d, r, X)
    ensures var o' := Arrival(s, o, d, r, X); NextRule(s', o') && TokenRule(s', o')
  {
    assert s.sites[d].father == EmptyNode ==> Upto(o, d) == if s.sites[d].requesting then Ahead(o, d) + {d} else {};
    ArrivalNext(s, s', o, d, r, X);
    ArrivalTokens(s, s', o, d, r, X);
  }

  lemma ArrivalKeepsQueue(s: State, s': State, o: Order, d: NodeId, r: NodeId, X: set<NodeId>)
    requires QueueInv(s, o) && Region(s, o, d, X) && Travellers(s) && Free(s, Heading(s, X, r))
    requires RequestCs(d, r) in s.net && Arrived(s, s', d, r) && Answered(s, s', d, r)
    ensures QueueInv(s', Arrival(s, o, d, r, X))
  {
    hide Partial, MemberRule, LinkRule, RootRule, NextRule, FlightRule, SelfRule, TokenRule;
    hide Region, Travellers, Free, Answered, CanRaise, Settles;
    assert r in s.sites;
    HeadingPlace(s, o, d, r, X);
    ArrivalSettles(s, o, d, r, X);
    SettlesAgree(s, o, d, r, X);
    RaiseKeepsPartial(o, X, Upto(o, r), Heading(s, X, r));
    ArrivalMembers(s, s', o, d, r, X);
    ArrivalLinks(s, s', o, d, r, X);
    ArrivalRoots(s, s', o, d, r, X);
    ArrivalFlights(s, s', o, d, r, X);
    ArrivalSelf(s, s', o, d, r, X);
    ArrivalGrants(s, s', o, d, r, X);
  }

  lemma RequestKeepsQueue(s: State, a: Account, o: Order, d: NodeId, r: NodeId) returns (o': Order)
    requires CoreInv(s, a) && TreeInv(s) && QueueInv(s, o) && Enabled(s, DeliverRequest(d, r))
    ensures QueueInv(DoRequest(s, d, r), o')
  {
    var X := RegionOf(s, a, o, d);
    o' := Arrival(s, o, d, r, X);
    assert PacketOk(s, RequestCs(d, r)) && LocalOk(s.sites[d]);
    TravellersAreFree(s, a, X, r);
    RequestArrives(s, d, r);
    ArrivalKeepsQueue(s, DoRequest(s, d, r), o, d, r, X);
  }
}
