/**
 The queue when a node starts waiting, is served, or joins.
 */
module CsQueueEnter {
  import opened Nodes
  import opened NaimiTrehel
  import opened CsMachine
  import opened CsToken
  import opened SpanningTree
  import opened CsTree
  import opened QueueOrder
  import opened CsQueue

  // --- A node that was not requesting calls `request_CS`.

  /** It takes its place, and requests that pass through it come after it. */
  ghost function Enrolment(s: State, o: Order, n: NodeId, X: set<NodeId>): Order {
    Raise(Enlist(o, n, Upto(o, n)), X, Upto(o, n) + {n}, Heading(s, X, n))
  }

  /** The effect of the call, as far as the rules look at it. */
  ghost predicate Entered(s: State, s': State, n: NodeId) {
    && n in s.sites && s'.sites.Keys == s.sites.Keys && n != EmptyNode
    && (forall m {:trigger s'.sites[m]} :: m in s.sites && m != n ==> s'.sites[m] == s.sites[m])
    && !s.sites[n].requesting && s'.sites[n].requesting && s'.sites[n].father == EmptyNode
    && s.sites[n].next == s'.sites[n].next == EmptyNode && s'.sites[n].token == s.sites[n].token
    && (s.sites[n].token <==> s.sites[n].father == EmptyNode)
    && (forall a, b :: RequestCs(b, a) in s'.net <==>
          RequestCs(b, a) in s.net || (s.sites[n].father != EmptyNode && a == n && b == s.sites[n].father))
    && (forall m :: GetCs(m) in s'.net <==> GetCs(m) in s.net)
  }

  lemma EnrolmentPlace(s: State, o: Order, n: NodeId, X: set<NodeId>)
    requires OnNodes(s.sites.Keys, o) && Partial(o) && FlightRule(s, o) && MemberRule(s, o) && Travellers(s)
    requires Region(s, o, n, X) && n in s.sites && !s.sites[n].requesting
    ensures var o1 := Enlist(o, n, Upto(o, n));
      Partial(o1) && CanRaise(o1, Upto(o, n) + {n}, Heading(s, X, n))
  {
    hide Partial, Chain, Down, Region, Travellers;
    var B := Upto(o, n);
    assert !Requesting(s, n);
    forall m | m in o.ahead ensures n !in o.ahead[m] { assert n !in Ahead(o, m); }
    forall m | m in o.upto ensures n !in o.upto[m] { assert n !in Upto(o, m); }
    UptoIsChain(o, n);
    EnlistKeepsPartial(o, n, B);
    EnlistKeepsChain(o, n, B);
    EnrolmentHeading(s, o, n, X);
  }

  lemma EnrolmentHeading(s: State, o: Order, n: NodeId, X: set<NodeId>)
    requires OnNodes(s.sites.Keys, o) && Partial(o) && FlightRule(s, o) && Travellers(s) && Region(s, o, n, X)
    ensures forall u :: u in Heading(s, X, n) ==> u in o.ahead && o.ahead[u] == Upto(o, n) && u !in Upto(o, n)
  {
    hide Partial;
    forall u | u in Heading(s, X, n) ensures u in o.ahead && o.ahead[u] == Upto(o, n) && u !in Upto(o, n) {
      var e :| e in X && RequestCs(e, u) in s.net;
      assert Upto(o, e) == Upto(o, n);
      NotAheadOfItself(o, u);
    }
  }

  /** The places that the new record keeps. */
  ghost predicate EnrolmentSettles(s: State, o: Order, n: NodeId, X: set<NodeId>) {
    var o' := Enrolment(s, o, n, X);
    && n in X && n in s.sites
    && Ahead(o', n) == Upto(o, n) && Upto(o', n) == Upto(o, n) + {n}
    && Upto(o, n) * Heading(s, X, n) == {}
    && (forall m :: m in s.sites && m !in X && Upto(o, m) == Upto(o, n) ==> Upto(o', m) == Upto(o, m))
  }

  lemma EnrolmentPlaces(s: State, o: Order, n: NodeId, X: set<NodeId>)
    requires OnNodes(s.sites.Keys, o) && Region(s, o, n, X) && n in s.sites
    requires CanRaise(Enlist(o, n, Upto(o, n)), Upto(o, n) + {n}, Heading(s, X, n))
    ensures EnrolmentSettles(s, o, n, X)
  {
    var U, B := Heading(s, X, n), Upto(o, n);
    assert B * U == {} by { assert B * U <= (B + {n}) * U; }
  }

  lemma EnrolmentMembers(s: State, s': State, o: Order, n: NodeId, X: set<NodeId>)
    requires Entered(s, s', n) && MemberRule(s, o)
    ensures MemberRule(s', Enrolment(s, o, n, X))
  {
    var o' := Enrolment(s, o, n, X);
    forall m, x | x in Upto(o', m) || x in Ahead(o', m) ensures Requesting(s', x) {
      assert x == n || x in Upto(o, n) || x in Upto(o, m) || x in Ahead(o, m);
      assert x != n ==> Requesting(s, x) && s'.sites[x] == s.sites[x];
    }
  }

  lemma EnrolmentLinks(s: State, s': State, o: Order, n: NodeId, X: set<NodeId>)
    requires Entered(s, s', n) && Region(s, o, n, X) && LinkRule(s, o) && OnNodes(s.sites.Keys, o) && Travellers(s)
    ensures LinkRule(s', Enrolment(s, o, n, X))
  {
    hide Travellers;
    var o' := Enrolment(s, o, n, X);
    forall m | m in s'.sites && s'.sites[m].father != EmptyNode ensures Upto(o', m) == Upto(o', s'.sites[m].father) {
      assert m != n && s'.sites[m] == s.sites[m];
      FatherIsNode(s, m);
    }
  }

  lemma EnrolmentRoots(s: State, s': State, o: Order, n: NodeId, X: set<NodeId>)
    requires Entered(s, s', n) && Region(s, o, n, X) && RootRule(s, o) && OnNodes(s.sites.Keys, o)
    requires EnrolmentSettles(s, o, n, X)
    ensures RootRule(s', Enrolment(s, o, n, X))
  {
    var o', o1 := Enrolment(s, o, n, X), Enlist(o, n, Upto(o, n));
    forall m | m in s'.sites && s'.sites[m].father == EmptyNode
      ensures Upto(o', m) == if s'.sites[m].requesting then Ahead(o', m) + {m} else {}
    {
      if m != n {
        assert s'.sites[m] == s.sites[m] && m !in X;
        if s.sites[m].requesting { RaisedRoot(o1, X, Upto(o, n) + {n}, Heading(s, X, n), m); }
      }
    }
  }

  lemma EnrolmentFlights(s: State, s': State, o: Order, n: NodeId, X: set<NodeId>)
    requires Entered(s, s', n) && Region(s, o, n, X) && FlightRule(s, o) && LinkRule(s, o) && OnNodes(s.sites.Keys, o)
    requires Travellers(s) && EnrolmentSettles(s, o, n, X)
    ensures FlightRule(s', Enrolment(s, o, n, X))
  {
    var o', o1, U := Enrolment(s, o, n, X), Enlist(o, n, Upto(o, n)), Heading(s, X, n);
    forall e, u | RequestCs(e, u) in s'.net ensures Ahead(o', u) == Upto(o', e) {
      if RequestCs(e, u) in s.net {
        assert Requesting(s, u) && u != n;
        assert u in U <==> e in X;
        RaisedFlight(o1, X, Upto(o, n) + {n}, U, e, u);
      } else {
        assert u == n && e == s.sites[n].father;
        assert Upto(o, e) == Upto(o, n);
      }
    }
  }

  lemma EnrolmentSelf(s: State, s': State, o: Order, n: NodeId, X: set<NodeId>)
    requires Entered(s, s', n) && Region(s, o, n, X) && SelfRule(s, o) && OnNodes(s.sites.Keys, o)
    requires var o1 := Enlist(o, n, Upto(o, n)); Partial(o1) && CanRaise(o1, Upto(o, n) + {n}, Heading(s, X, n))
    requires EnrolmentSettles(s, o, n, X)
    ensures SelfRule(s', Enrolment(s, o, n, X))
  {
    var o', o1 := Enrolment(s, o, n, X), Enlist(o, n, Upto(o, n));
    forall m | m in s'.sites && s'.sites[m].requesting ensures Ahead(o', m) + {m} <= Upto(o', m) {
      if m != n {
        assert s'.sites[m] == s.sites[m];
        RaisedSelf(o1, X, Upto(o, n) + {n}, Heading(s, X, n), m);
      }
    }
  }

  lemma EnrolmentNext(s: State, s': State, o: Order, n: NodeId, X: set<NodeId>)
    requires Entered(s, s', n) && NextRule(s, o) && OnNodes(s.sites.Keys, o)
    requires Travellers(s) && Free(s, Heading(s, X, n))
    requires forall m {:trigger s.sites[m]} :: m in s.sites ==> s.sites[m].next != n
    ensures NextRule(s', Enrolment(s, o, n, X))
  {
    var o', o1 := Enrolment(s, o, n, X), Enlist(o, n, Upto(o, n));
    forall m | m in s'.sites && s'.sites[m].next != EmptyNode ensures Ahead(o', s'.sites[m].next) == Ahead(o', m) + {m} {
      assert m != n && s'.sites[m] == s.sites[m];
      RaisedNext(o1, X, Upto(o, n) + {n}, Heading(s, X, n), m, s.sites[m].next);
    }
  }

  lemma EnrolmentTokens(s: State, s': State, o: Order, n: NodeId, X: set<NodeId>)
    requires Entered(s, s', n) && TokenRule(s, o) && RootRule(s, o) && OnNodes(s.sites.Keys, o)
    requires Free(s, Heading(s, X, n)) && EnrolmentSettles(s, o, n, X) && GetCs(n) !in s.net
    ensures TokenRule(s', Enrolment(s, o, n, X))
  {
    var o' := Enrolment(s, o, n, X);
    forall m | m in s'.sites && s'.sites[m].token ensures Ahead(o', m) == {} {
      if m == n {
        assert Upto(o, n) == {};
      } else {
        assert s'.sites[m] == s.sites[m];
      }
    }
  }

  lemma EnrolmentKeepsQueue(s: State, s': State, o: Order, n: NodeId, X: set<NodeId>)
    requires QueueInv(s, o) && Region(s, o, n, X) && Travellers(s) && Free(s, Heading(s, X, n)) && Entered(s, s', n)
    requires GetCs(n) !in s.net
    requires forall m {:trigger s.sites[m]} :: m in s.sites ==> s.sites[m].next != n
    ensures QueueInv(s', Enrolment(s, o, n, X))
  {
    hide Partial, MemberRule, LinkRule, RootRule, NextRule, FlightRule, SelfRule, TokenRule;
    hide Region, Travellers, Free, CanRaise, EnrolmentSettles;
    EnrolmentPlace(s, o, n, X);
    EnrolmentPlaces(s, o, n, X);
    RaiseKeepsPartial(Enlist(o, n, Upto(o, n)), X, Upto(o, n) + {n}, Heading(s, X, n));
    EnrolmentMembers(s, s', o, n, X);
    EnrolmentLinks(s, s', o, n, X);
    EnrolmentRoots(s, s', o, n, X);
    EnrolmentFlights(s, s', o, n, X);
    EnrolmentSelf(s, s', o, n, X);
    EnrolmentNext(s, s', o, n, X);
    EnrolmentTokens(s, s', o, n, X);
  }

  lemma CallEnters(s: State, n: NodeId)
    requires n in s.sites && n != EmptyNode && LocalOk(s.sites[n]) && !s.sites[n].requesting
    ensures Entered(s, DoEnter(s, n), n)
  {
    var s', f := DoEnter(s, n), s.sites[n].father;
    assert s'.net == if s.sites[n].token then s.net else s.net + multiset{RequestCs(f, n)};
  }

  /** A step that changes nothing the record looks at. */
  lemma QueueKept(s: State, s': State, o: Order)
    requires QueueInv(s, o) && s'.sites.Keys == s.sites.Keys
    requires forall m {:trigger s'.sites[m]} :: m in s.sites ==>
      && s'.sites[m].father == s.sites[m].father && s'.sites[m].next == s.sites[m].next
      && s'.sites[m].requesting == s.sites[m].requesting
      && (s'.sites[m].token ==> Ahead(o, m) == {})
    requires forall a, b :: RequestCs(b, a) in s'.net <==> RequestCs(b, a) in s.net
    requires forall m :: GetCs(m) in s'.net ==> GetCs(m) in s.net
    ensures QueueInv(s', o)
  {
    hide Partial, MemberRule, LinkRule, RootRule, SelfRule, NextRule, FlightRule, TokenRule;
    TreesKept(s, s', o);
    QueuesKept(s, s', o);
  }

  lemma TreesKept(s: State, s': State, o: Order)
    requires MemberRule(s, o) && LinkRule(s, o) && RootRule(s, o) && SelfRule(s, o) && s'.sites.Keys == s.sites.Keys
    requires forall m {:trigger s'.sites[m]} :: m in s.sites ==>
      s'.sites[m].father == s.sites[m].father && s'.sites[m].requesting == s.sites[m].requesting
    ensures MemberRule(s', o) && LinkRule(s', o) && RootRule(s', o) && SelfRule(s', o)
  {
    forall m, x | x in Upto(o, m) || x in Ahead(o, m) ensures Requesting(s', x) { assert Requesting(s, x); }
    forall m | m in s'.sites && s'.sites[m].father != EmptyNode ensures Upto(o, m) == Upto(o, s'.sites[m].father) {
      assert s'.sites[m].father == s.sites[m].father;
    }
  }

  lemma QueuesKept(s: State, s': State, o: Order)
    requires NextRule(s, o) && FlightRule(s, o) && TokenRule(s, o) && s'.sites.Keys == s.sites.Keys
    requires forall m {:trigger s'.sites[m]} :: m in s.sites ==>
      s'.sites[m].next == s.sites[m].next && (s'.sites[m].token ==> Ahead(o, m) == {})
    requires forall a, b :: RequestCs(b, a) in s'.net <==> RequestCs(b, a) in s.net
    requires forall m :: GetCs(m) in s'.net ==> GetCs(m) in s.net
    ensures NextRule(s', o) && FlightRule(s', o) && TokenRule(s', o)
  {
  }

  /** Nobody has promised the token to a node that is not waiting. */
  lemma NotClaimed(s: State, a: Account, n: NodeId)
    requires ClaimInv(s, a) && n != EmptyNode && !Pending(s, n)
    ensures GetCs(n) !in s.net
    ensures forall m {:trigger s.sites[m]} :: m in s.sites ==> s.sites[m].next != n
  {
    assert !HasClaim(s, n, Granted);
    forall m | m in s.sites ensures s.sites[m].next != n { assert !HasClaim(s, n, Queued(m)); }
  }

  lemma ReEnterKeepsQueue(s: State, o: Order, n: NodeId)
    requires QueueInv(s, o) && n in s.sites && s.sites[n].requesting && s.sites[n].token
    ensures QueueInv(DoEnter(s, n), o)
  {
    hide Partial, MemberRule, LinkRule, RootRule, NextRule, FlightRule, SelfRule;
    assert DoEnter(s, n).net == s.net;
    QueueKept(s, DoEnter(s, n), o);
  }

  lemma EnterKeepsQueue(s: State, a: Account, o: Order, n: NodeId) returns (o': Order)
    requires CoreInv(s, a) && TreeInv(s) && QueueInv(s, o) && Enabled(s, CallEnter(n))
    ensures QueueInv(DoEnter(s, n), o')
  {
    hide Tree, QueueInv, TokenInv, ClaimInv, Travellers, Free, Entered, DoEnter, Region;
    assert LocalOk(s.sites[n]) && n != EmptyNode;
    if s.sites[n].requesting {
      o' := o;
      ReEnterKeepsQueue(s, o, n);
    } else {
      var X := RegionOf(s, a, o, n);
      o' := Enrolment(s, o, n, X);
      TravellersAreFree(s, a, X, n);
      CallEnters(s, n);
      NotClaimed(s, a, n);
      EnrolmentKeepsQueue(s, DoEnter(s, n), o, n, X);
    }
  }

  // --- The node in the critical section leaves it.

  /** The effect of the last `release_CS`, as far as the rules look at it. */
  ghost predicate Released(s: State, s': State, n: NodeId) {
    && n in s.sites && s'.sites.Keys == s.sites.Keys
    && (forall m {:trigger s'.sites[m]} :: m in s.sites && m != n ==> s'.sites[m] == s.sites[m])
    && s.sites[n].requesting && s.sites[n].token && !s'.sites[n].requesting && s'.sites[n].next == EmptyNode
    && s'.sites[n].father == s.sites[n].father
    && (forall a, b :: RequestCs(b, a) in s'.net <==> RequestCs(b, a) in s.net)
    && (forall m :: GetCs(m) in s'.net ==> GetCs(m) in s.net || (m != EmptyNode && m == s.sites[n].next))
  }

  lemma ForgetRoots(s: State, s': State, o: Order, n: NodeId)
    requires Released(s, s', n) && RootRule(s, o) && TokenRule(s, o)
    ensures RootRule(s', Forget(o, n))
  {
    var o' := Forget(o, n);
    forall m | m in s'.sites && s'.sites[m].father == EmptyNode
      ensures Upto(o', m) == if s'.sites[m].requesting then Ahead(o', m) + {m} else {}
    {
      assert m != n ==> s'.sites[m] == s.sites[m];
      assert Upto(o, m) == if s.sites[m].requesting then Ahead(o, m) + {m} else {};
      assert Ahead(o, n) == {};
    }
  }

  lemma ForgetLinks(s: State, s': State, o: Order, n: NodeId)
    requires Released(s, s', n) && LinkRule(s, o) && SelfRule(s, o)
    ensures LinkRule(s', Forget(o, n)) && SelfRule(s', Forget(o, n))
  {
    var o' := Forget(o, n);
    forall m | m in s'.sites && s'.sites[m].father != EmptyNode ensures Upto(o', m) == Upto(o', s'.sites[m].father) {
      assert s.sites[m].father == s'.sites[m].father;
    }
    forall m | m in s'.sites && s'.sites[m].requesting ensures Ahead(o', m) + {m} <= Upto(o', m) {
      assert m != n && s'.sites[m] == s.sites[m];
    }
  }

  lemma ForgetNext(s: State, s': State, o: Order, n: NodeId)
    requires Released(s, s', n) && NextRule(s, o) && FlightRule(s, o) && TokenRule(s, o)
    ensures var o' := Forget(o, n); NextRule(s', o') && FlightRule(s', o') && TokenRule(s', o')
  {
    var o' := Forget(o, n);
    assert Ahead(o, n) == {};
    forall m | m in s'.sites ensures m != n ==> s'.sites[m] == s.sites[m] {}
    forall m | GetCs(m) in s'.net ensures Ahead(o', m) == {} {
      if m == s.sites[n].next && m != EmptyNode { assert Ahead(o, m) == Ahead(o, n) + {n}; }
    }
  }

  lemma ForgetMembers(s: State, s': State, o: Order, n: NodeId)
    requires Released(s, s', n) && MemberRule(s, o)
    ensures MemberRule(s', Forget(o, n))
  {
    var o' := Forget(o, n);
    forall m, x | x in Upto(o', m) || x in Ahead(o', m) ensures Requesting(s', x) {
      assert x != n && (x in Upto(o, m) || x in Ahead(o, m));
      assert Requesting(s, x) && s'.sites[x] == s.sites[x];
    }
  }

  lemma LastReleaseKeepsQueue(s: State, s': State, o: Order, n: NodeId)
    requires QueueInv(s, o) && Released(s, s', n)
    ensures QueueInv(s', Forget(o, n))
  {
    hide Partial, MemberRule, LinkRule, RootRule, NextRule, FlightRule, SelfRule, TokenRule;
    ForgetKeepsPartial(o, n);
    ForgetRoots(s, s', o, n);
    ForgetLinks(s, s', o, n);
    ForgetNext(s, s', o, n);
    ForgetMembers(s, s', o, n);
  }

  lemma LastReleaseReleases(s: State, n: NodeId)
    requires n in s.sites && LocalOk(s.sites[n]) && s.sites[n].users == 1
    ensures Released(s, DoRelease(s, n), n)
  {
    var s', x := DoRelease(s, n), s.sites[n].next;
    assert s'.net == if x == EmptyNode then s.net else s.net + multiset{GetCs(x)};
  }

  lemma InnerReleaseKeepsQueue(s: State, o: Order, n: NodeId)
    requires QueueInv(s, o) && n in s.sites && s.sites[n].users > 1
    ensures QueueInv(DoRelease(s, n), o)
  {
    hide Partial, MemberRule, LinkRule, RootRule, NextRule, FlightRule, SelfRule;
    assert DoRelease(s, n).net == s.net;
    QueueKept(s, DoRelease(s, n), o);
  }

  lemma ReleaseKeepsQueue(s: State, a: Account, o: Order, n: NodeId) returns (o': Order)
    requires CoreInv(s, a) && QueueInv(s, o) && Enabled(s, CallRelease(n))
    ensures QueueInv(DoRelease(s, n), o')
  {
    hide QueueInv, TokenInv, ClaimInv, DoRelease, Released;
    assert LocalOk(s.sites[n]);
    if s.sites[n].users > 1 {
      o' := o;
      InnerReleaseKeepsQueue(s, o, n);
    } else {
      o' := Forget(o, n);
      LastReleaseReleases(s, n);
      LastReleaseKeepsQueue(s, DoRelease(s, n), o, n);
    }
  }

  // --- The token arrives; the blocked caller goes on; a node joins.

  lemma GrantKeepsQueue(s: State, o: Order, d: NodeId)
    requires QueueInv(s, o) && Enabled(s, DeliverGrant(d))
    ensures QueueInv(DoGrant(s, d), o)
  {
    hide Partial, MemberRule, LinkRule, RootRule, NextRule, FlightRule, SelfRule;
    assert DoGrant(s, d).net == s.net - multiset{GetCs(d)};
    QueueKept(s, DoGrant(s, d), o);
  }

  lemma WakeKeepsQueue(s: State, o: Order, n: NodeId)
    requires QueueInv(s, o) && Enabled(s, CallWake(n))
    ensures QueueInv(DoWake(s, n), o)
  {
    hide Partial, MemberRule, LinkRule, RootRule, NextRule, FlightRule, SelfRule;
    assert DoWake(s, n).net == s.net;
    QueueKept(s, DoWake(s, n), o);
  }

  /** A newcomer gives a request the place its contact gives it. */
  ghost function Admission(o: Order, n: NodeId, c: NodeId): Order {
    Order(o.ahead[n := {}], o.upto[n := Upto(o, c)])
  }

  lemma AdmissionKeepsPartial(o: Order, n: NodeId, c: NodeId)
    requires Partial(o) && n !in o.ahead && c in o.upto
    ensures Partial(Admission(o, n, c))
  {
    var o' := Admission(o, n, c);
    forall m | m in o'.ahead ensures m !in o'.ahead[m] && Down(o', o'.ahead[m]) {
      assert m != n ==> Down(o, o.ahead[m]);
    }
    forall m | m in o'.upto ensures Down(o', o'.upto[m]) && Chain(o', o'.upto[m]) {
      var S := o'.upto[m];
      assert Down(o, S) && Chain(o, S);
      forall x, y | x in S && y in S ensures x in o'.ahead && y in o'.ahead && Ordered(o', x, y) {
        assert Ordered(o, x, y);
      }
    }
  }

  lemma AdmissionKeepsTrees(s: State, o: Order, n: NodeId, c: NodeId)
    requires OnNodes(s.sites.Keys, o) && LinkRule(s, o) && RootRule(s, o) && SelfRule(s, o)
    requires WellFormed(s) && n !in s.sites && c in s.sites
    ensures var s', o' := DoJoin(s, n, c), Admission(o, n, c); LinkRule(s', o') && RootRule(s', o') && SelfRule(s', o')
  {
    var s', o' := DoJoin(s, n, c), Admission(o, n, c);
    forall m | m in s'.sites && s'.sites[m].father != EmptyNode ensures Upto(o', m) == Upto(o', s'.sites[m].father) {
      assert m != n ==> s'.sites[m] == s.sites[m] && NamesOk(s, s.sites[m]);
    }
  }

  lemma AdmissionKeepsQueues(s: State, o: Order, n: NodeId, c: NodeId)
    requires OnNodes(s.sites.Keys, o) && NextRule(s, o) && FlightRule(s, o) && TokenRule(s, o)
    requires WellFormed(s) && n !in s.sites && c in s.sites
    ensures var s', o' := DoJoin(s, n, c), Admission(o, n, c); NextRule(s', o') && FlightRule(s', o') && TokenRule(s', o')
  {
    var s', o' := DoJoin(s, n, c), Admission(o, n, c);
    forall m | m in s'.sites && s'.sites[m].next != EmptyNode ensures Ahead(o', s'.sites[m].next) == Ahead(o', m) + {m} {
      assert m != n && s'.sites[m] == s.sites[m] && NamesOk(s, s.sites[m]);
    }
    forall d, r | RequestCs(d, r) in s'.net ensures Ahead(o', r) == Upto(o', d) { assert PacketOk(s, RequestCs(d, r)); }
    forall m | GetCs(m) in s'.net ensures Ahead(o', m) == {} { assert PacketOk(s, GetCs(m)); }
  }

  lemma JoinKeepsQueue(s: State, o: Order, n: NodeId, c: NodeId)
    requires QueueInv(s, o) && ShapeInv(s) && n !in s.sites && n != EmptyNode && c in s.sites
    ensures QueueInv(DoJoin(s, n, c), Admission(o, n, c))
  {
    hide Partial, LinkRule, RootRule, NextRule, FlightRule, SelfRule, TokenRule, WellFormed;
    AdmissionKeepsPartial(o, n, c);
    AdmissionKeepsTrees(s, o, n, c);
    AdmissionKeepsQueues(s, o, n, c);
    var s', o' := DoJoin(s, n, c), Admission(o, n, c);
    forall m, x | x in Upto(o', m) || x in Ahead(o', m) ensures Requesting(s', x) {
      assert x in Upto(o, m) || x in Ahead(o, m) || x in Upto(o, c);
      assert Requesting(s, x);
    }
  }
}
