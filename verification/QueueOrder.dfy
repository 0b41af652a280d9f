/**
 A record of what is already decided about the order in which waiting nodes get the token.
 `ahead[m]` are the nodes served before `m`; `upto[n]` are the nodes that a request arriving
 at `n` now will be served after. Both only grow while requests overtake each other, and the
 record stays a partial order in which every `upto[n]` is a chain.
 */
module QueueOrder {
  import opened Nodes

  datatype Order = Order(ahead: map<NodeId, set<NodeId>>, upto: map<NodeId, set<NodeId>>)

  predicate OnNodes(V: set<NodeId>, o: Order) {
    o.ahead.Keys == V && o.upto.Keys == V
  }

  /** `S` contains everybody ahead of its members. */
  predicate Down(o: Order, S: set<NodeId>) {
    forall x :: x in S ==> x in o.ahead && o.ahead[x] <= S
  }

  predicate Ordered(o: Order, x: NodeId, y: NodeId)
    requires x in o.ahead && y in o.ahead
  {
    x == y || x in o.ahead[y] || y in o.ahead[x]
  }

  /** Any two members of `S` are ordered. */
  predicate Chain(o: Order, S: set<NodeId>) {
    forall x, y :: x in S && y in S ==> x in o.ahead && y in o.ahead && Ordered(o, x, y)
  }

  ghost predicate Partial(o: Order) {
    && (forall m :: m in o.ahead ==> m !in o.ahead[m] && Down(o, o.ahead[m]))
    && (forall n :: n in o.upto ==> Down(o, o.upto[n]) && Chain(o, o.upto[n]))
  }

  // --- The one way the record grows.

  /** `m` is in `U` or behind a member of `U`. */
  predicate Behind(o: Order, U: set<NodeId>, m: NodeId)
    requires m in o.ahead
  {
    m in U || o.ahead[m] * U != {}
  }

  /** Requests arriving in `X` now come after `N`; so do the travelling requests `U` that are
      heading for `X`, and everybody behind them. */
  ghost function Raise(o: Order, X: set<NodeId>, N: set<NodeId>, U: set<NodeId>): Order {
    Order(
      map m | m in o.ahead :: if Behind(o, U, m) then o.ahead[m] + N else o.ahead[m],
      map n | n in o.upto :: if n in X then N else if o.upto[n] * U != {} then o.upto[n] + N else o.upto[n])
  }

  /** When the record may be raised: the members of `U` have the same nodes ahead of them,
      all in the chain `N`, and are not in `N` themselves. */
  ghost predicate CanRaise(o: Order, N: set<NodeId>, U: set<NodeId>) {
    && Down(o, N) && Chain(o, N) && N !! U
    && (forall u :: u in U ==> u in o.ahead && o.ahead[u] <= N)
  }

  lemma NotBehind(o: Order, N: set<NodeId>, U: set<NodeId>, x: NodeId)
    requires CanRaise(o, N, U) && x in N
    ensures x in o.ahead && !Behind(o, U, x)
  {
    assert o.ahead[x] <= N;
  }

  lemma BehindMeets(o: Order, U: set<NodeId>, S: set<NodeId>, x: NodeId)
    requires Down(o, S) && x in S && Behind(o, U, x)
    ensures S * U != {}
  {
    if x in U {
      assert x in S * U;
    } else {
      var u :| u in o.ahead[x] * U;
      assert u in S * U;
    }
  }

  lemma RaiseAhead(o: Order, X: set<NodeId>, N: set<NodeId>, U: set<NodeId>, m: NodeId)
    requires Partial(o) && CanRaise(o, N, U) && m in o.ahead
    ensures var o' := Raise(o, X, N, U); m !in o'.ahead[m] && Down(o', o'.ahead[m])
  {
    var o' := Raise(o, X, N, U);
    assert Down(o, o.ahead[m]);
    if m in N { NotBehind(o, N, U, m); }
    forall x | x in o'.ahead[m] ensures x in o'.ahead && o'.ahead[x] <= o'.ahead[m] {
      if x in N {
        NotBehind(o, N, U, x);
        assert o'.ahead[x] == o.ahead[x] <= N;
      }
      if x in o.ahead[m] {
        assert o.ahead[x] <= o.ahead[m];
        if Behind(o, U, x) { BehindMeets(o, U, o.ahead[m], x); }
      }
    }
  }

  lemma RaiseUptoDown(o: Order, X: set<NodeId>, N: set<NodeId>, U: set<NodeId>, n: NodeId)
    requires Partial(o) && CanRaise(o, N, U) && n in o.upto
    ensures var o' := Raise(o, X, N, U); Down(o', o'.upto[n])
  {
    var o' := Raise(o, X, N, U);
    assert Down(o, o.upto[n]);
    forall x | x in o'.upto[n] ensures x in o'.ahead && o'.ahead[x] <= o'.upto[n] {
      if x in N {
        NotBehind(o, N, U, x);
        assert o'.ahead[x] == o.ahead[x] <= N;
      } else {
        assert x in o.upto[n] && o.ahead[x] <= o.upto[n];
        if Behind(o, U, x) { BehindMeets(o, U, o.upto[n], x); }
      }
    }
  }

  /** A member of `N` and another member of a raised `upto` are ordered. */
  lemma RaiseOrders(o: Order, X: set<NodeId>, N: set<NodeId>, U: set<NodeId>, S: set<NodeId>, x: NodeId, y: NodeId)
    requires Partial(o) && CanRaise(o, N, U) && Down(o, S) && Chain(o, S) && S * U != {}
    requires x in S && y in N
    ensures var o' := Raise(o, X, N, U); x in o'.ahead && y in o'.ahead && Ordered(o', x, y)
  {
    var o' := Raise(o, X, N, U);
    NotBehind(o, N, U, y);
    var u :| u in S * U;
    assert Ordered(o, x, u);
    if x == u || u in o.ahead[x] {
      assert u in U && Behind(o, U, x);
      assert y in o'.ahead[x];
    } else {
      assert x in N;
      assert Ordered(o, x, y);
    }
  }

  lemma RaiseUptoChain(o: Order, X: set<NodeId>, N: set<NodeId>, U: set<NodeId>, n: NodeId)
    requires Partial(o) && CanRaise(o, N, U) && n in o.upto
    ensures var o' := Raise(o, X, N, U); Chain(o', o'.upto[n])
  {
    var o' := Raise(o, X, N, U);
    var S := o.upto[n];
    assert Down(o, S) && Chain(o, S);
    forall x, y | x in o'.upto[n] && y in o'.upto[n]
      ensures x in o'.ahead && y in o'.ahead && Ordered(o', x, y)
    {
      if x in N && y in N {
        assert Ordered(o, x, y);
      } else if x in S && y in S {
        assert Ordered(o, x, y);
      } else if x in S {
        RaiseOrders(o, X, N, U, S, x, y);
      } else {
        RaiseOrders(o, X, N, U, S, y, x);
      }
    }
  }

  lemma RaiseKeepsPartial(o: Order, X: set<NodeId>, N: set<NodeId>, U: set<NodeId>)
    requires Partial(o) && CanRaise(o, N, U)
    ensures Partial(Raise(o, X, N, U))
  {
    var o' := Raise(o, X, N, U);
    forall m | m in o'.ahead ensures m !in o'.ahead[m] && Down(o', o'.ahead[m]) { RaiseAhead(o, X, N, U, m); }
    forall n | n in o'.upto ensures Down(o', o'.upto[n]) && Chain(o', o'.upto[n]) {
      RaiseUptoDown(o, X, N, U, n);
      RaiseUptoChain(o, X, N, U, n);
    }
  }

  // --- The places that stay in step when the record is raised.

  lemma BehindIff(o: Order, U: set<NodeId>, m: NodeId)
    requires m in o.ahead
    ensures Behind(o, U, m) <==> (o.ahead[m] + {m}) * U != {}
  {
    assert m in U ==> m in (o.ahead[m] + {m}) * U;
    assert o.ahead[m] * U <= (o.ahead[m] + {m}) * U;
    assert m !in U ==> (o.ahead[m] + {m}) * U == o.ahead[m] * U;
  }

  lemma RaisedRoot(o: Order, X: set<NodeId>, N: set<NodeId>, U: set<NodeId>, m: NodeId)
    requires m in o.ahead && m in o.upto && m !in X && o.upto[m] == o.ahead[m] + {m}
    ensures var o' := Raise(o, X, N, U); o'.upto[m] == o'.ahead[m] + {m}
  {
    BehindIff(o, U, m);
  }

  lemma RaisedNext(o: Order, X: set<NodeId>, N: set<NodeId>, U: set<NodeId>, m: NodeId, x: NodeId)
    requires m in o.ahead && x in o.ahead && x !in U && o.ahead[x] == o.ahead[m] + {m}
    ensures var o' := Raise(o, X, N, U); o'.ahead[x] == o'.ahead[m] + {m}
  {
    BehindIff(o, U, m);
  }

  lemma RaisedFlight(o: Order, X: set<NodeId>, N: set<NodeId>, U: set<NodeId>, e: NodeId, u: NodeId)
    requires u in o.ahead && e in o.upto && o.ahead[u] == o.upto[e]
    requires if e in X then u in U && o.upto[e] <= N else u !in U
    ensures var o' := Raise(o, X, N, U); o'.ahead[u] == o'.upto[e]
  {
  }

  lemma RaisedSelf(o: Order, X: set<NodeId>, N: set<NodeId>, U: set<NodeId>, m: NodeId)
    requires Partial(o) && CanRaise(o, N, U)
    requires m in o.ahead && m in o.upto && o.ahead[m] + {m} <= o.upto[m]
    requires m in X ==> o.upto[m] <= N
    ensures var o' := Raise(o, X, N, U); o'.ahead[m] + {m} <= o'.upto[m]
  {
    if m in X {
      NotBehind(o, N, U, m);
    } else if Behind(o, U, m) {
      BehindMeets(o, U, o.upto[m], m);
    }
  }

  // --- The two other changes.

  /** A node that was in nobody's way gets its place in the order: after the chain `B`. */
  ghost function Enlist(o: Order, n: NodeId, B: set<NodeId>): Order {
    o.(ahead := o.ahead[n := B])
  }

  lemma EnlistKeepsPartial(o: Order, n: NodeId, B: set<NodeId>)
    requires Partial(o) && Down(o, B) && n !in B
    requires forall m :: m in o.ahead ==> n !in o.ahead[m]
    requires forall m :: m in o.upto ==> n !in o.upto[m]
    ensures Partial(Enlist(o, n, B))
  {
    var o' := Enlist(o, n, B);
    forall m | m in o'.ahead ensures m !in o'.ahead[m] && Down(o', o'.ahead[m]) {
      assert m != n ==> Down(o, o.ahead[m]);
    }
    forall m | m in o'.upto ensures Down(o', o'.upto[m]) && Chain(o', o'.upto[m]) {
      assert Down(o, o.upto[m]) && Chain(o, o.upto[m]);
      forall x, y | x in o'.upto[m] && y in o'.upto[m] ensures Ordered(o', x, y) { assert Ordered(o, x, y); }
    }
  }

  lemma EnlistKeepsChain(o: Order, n: NodeId, B: set<NodeId>)
    requires Down(o, B) && Chain(o, B) && n !in B
    ensures var o' := Enlist(o, n, B); Down(o', B + {n}) && Chain(o', B + {n})
  {
    var o' := Enlist(o, n, B);
    forall x, y | x in B + {n} && y in B + {n} ensures x in o'.ahead && y in o'.ahead && Ordered(o', x, y) {
      if x in B && y in B { assert Ordered(o, x, y); }
    }
  }

  /** A served node leaves the record. */
  ghost function Forget(o: Order, h: NodeId): Order {
    Order(map m | m in o.ahead :: o.ahead[m] - {h}, map n | n in o.upto :: o.upto[n] - {h})
  }

  lemma ForgetKeepsPartial(o: Order, h: NodeId)
    requires Partial(o)
    ensures Partial(Forget(o, h))
  {
    var o' := Forget(o, h);
    forall m | m in o'.ahead ensures m !in o'.ahead[m] && Down(o', o'.ahead[m]) {
      assert Down(o, o.ahead[m]);
    }
    forall n | n in o'.upto ensures Down(o', o'.upto[n]) && Chain(o', o'.upto[n]) {
      assert Down(o, o.upto[n]) && Chain(o, o.upto[n]);
      forall x, y | x in o'.upto[n] && y in o'.upto[n] ensures Ordered(o', x, y) { assert Ordered(o, x, y); }
    }
  }
}
