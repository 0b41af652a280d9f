/**
 One token and one claim per waiting node.
 */
module CsToken {
  import opened Nodes
  import opened NaimiTrehel
  import opened CsMachine

  /** Where the token can be: held by a node or travelling to one. */
  datatype Place = Held(n: NodeId) | Moving(n: NodeId)

  /** Why a waiting node will get the token: its request travels to `at`, some node keeps it
      in `next`, or the token is on its way. */
  datatype Claim = Asking(at: NodeId) | Queued(behind: NodeId) | Granted

  predicate TokenAt(s: State, p: Place) {
    match p
    case Held(n) => n in s.sites && s.sites[n].token
    case Moving(n) => GetCs(n) in s.net
  }

  predicate HasClaim(s: State, n: NodeId, c: Claim) {
    match c
    case Asking(d) => RequestCs(d, n) in s.net
    case Queued(m) => m in s.sites && s.sites[m].next == n
    case Granted => GetCs(n) in s.net
  }

  /** Waiting in `request_CS` without the token. */
  predicate Pending(s: State, n: NodeId) {
    n in s.sites && s.sites[n].waiting && !s.sites[n].token
  }

  predicate InSites(s: State, n: NodeId) {
    n == EmptyNode || n in s.sites
  }

  predicate PacketOk(s: State, p: Packet) {
    match p
    case RequestCs(d, r) => d in s.sites && r in s.sites && s.net[p] == 1
    case GetCs(d) => d in s.sites && s.net[p] == 1
    case _ => true
  }

  predicate NamesOk(s: State, t: Site) {
    InSites(s, t.father) && InSites(s, t.next)
  }

  /** Every identifier names a node of the protocol and no message is duplicated. */
  ghost predicate WellFormed(s: State) {
    && EmptyNode !in s.sites
    && (forall n {:trigger s.sites[n]} :: n in s.sites ==> NamesOk(s, s.sites[n]))
    && (forall p :: p in s.net ==> PacketOk(s, p))
  }

  /** What holds of one node's variables alone. */
  predicate LocalOk(t: Site) {
    && !t.leaving
    && (t.requesting <==> t.waiting || t.users > 0)
    && (t.users > 0 ==> t.token && !t.waiting)
    && (!t.requesting ==> (t.token <==> t.father == EmptyNode) && t.next == EmptyNode)
    && (t.requesting ==> (t.father == EmptyNode <==> t.next == EmptyNode))
  }

  ghost predicate LocalInv(s: State) {
    forall n {:trigger s.sites[n]} :: n in s.sites ==> LocalOk(s.sites[n])
  }

  /** The book-keeping that no node has: where the token is and what each waiting node's
      claim to it is. */
  datatype Account = Account(place: Place, why: map<NodeId, Claim>)

  /** The token is in one place. */
  ghost predicate TokenInv(s: State, a: Account) {
    forall p :: TokenAt(s, p) <==> p == a.place
  }

  /** The waiting nodes have one claim each, the other nodes none. */
  ghost predicate ClaimInv(s: State, a: Account) {
    && (forall n :: n in a.why <==> Pending(s, n))
    && (forall n, c :: n != EmptyNode ==> (HasClaim(s, n, c) <==> n in a.why && a.why[n] == c))
  }

  ghost predicate CoreInv(s: State, a: Account) {
    ShapeInv(s) && TokenInv(s, a) && ClaimInv(s, a)
  }

  // --- What each kind of change does to the claims. The states are written out, so that
  // --- every lemma needs only the part of the invariant it is about.

  lemma ClaimsKept(s: State, a: Account, n: NodeId, t: Site)
    requires ClaimInv(s, a) && n in s.sites
    requires t.next == s.sites[n].next
    requires t.waiting && !t.token <==> Pending(s, n)
    ensures ClaimInv(Put(s, n, t, s.net), a)
  {
    assert forall m, c :: HasClaim(Put(s, n, t, s.net), m, c) <==> HasClaim(s, m, c);
  }

  lemma ClaimAsked(s: State, a: Account, n: NodeId, t: Site, f: NodeId)
    requires ClaimInv(s, a) && n in s.sites && n != EmptyNode && !Pending(s, n)
    requires t.next == s.sites[n].next && t.waiting && !t.token
    ensures ClaimInv(Put(s, n, t, s.net + multiset{RequestCs(f, n)}), a.(why := a.why[n := Asking(f)]))
  {
    var s' := Put(s, n, t, s.net + multiset{RequestCs(f, n)});
    assert forall m, c :: HasClaim(s', m, c) <==> HasClaim(s, m, c) || (m == n && c == Asking(f));
  }

  lemma ClaimHanded(s: State, a: Account, n: NodeId, t: Site, x: NodeId)
    requires ClaimInv(s, a) && n in s.sites && x != EmptyNode && s.sites[n].next == x
    requires t.next == EmptyNode && !t.waiting && !Pending(s, n)
    ensures ClaimInv(Put(s, n, t, s.net + multiset{GetCs(x)}), a.(why := a.why[x := Granted]))
  {
    var s' := Put(s, n, t, s.net + multiset{GetCs(x)});
    assert HasClaim(s, x, Queued(n));
    assert x in a.why && a.why[x] == Queued(n) && x != n;
    forall m, c | m != EmptyNode
      ensures HasClaim(s', m, c) <==> if m == x then c == Granted else HasClaim(s, m, c)
    {
      assert m == x && HasClaim(s, m, c) ==> c == Queued(n);
    }
    forall m ensures Pending(s', m) <==> Pending(s, m) {}
  }

  lemma ClaimForwarded(s: State, a: Account, d: NodeId, r: NodeId, t: Site, f: NodeId)
    requires ClaimInv(s, a) && d in s.sites && r != EmptyNode && s.net[RequestCs(d, r)] == 1
    requires t.next == s.sites[d].next && t.token == s.sites[d].token && t.waiting == s.sites[d].waiting
    ensures ClaimInv(Put(s, d, t, s.net - multiset{RequestCs(d, r)} + multiset{RequestCs(f, r)}),
                     a.(why := a.why[r := Asking(f)]))
  {
    var s' := Put(s, d, t, s.net - multiset{RequestCs(d, r)} + multiset{RequestCs(f, r)});
    assert HasClaim(s, r, Asking(d));
    assert forall m, c :: HasClaim(s', m, c) <==>
      (m == r && c == Asking(f)) || (HasClaim(s, m, c) && !(m == r && c == Asking(d)));
  }

  lemma ClaimQueued(s: State, a: Account, d: NodeId, r: NodeId, t: Site)
    requires ClaimInv(s, a) && d in s.sites && r != EmptyNode && s.net[RequestCs(d, r)] == 1
    requires s.sites[d].next == EmptyNode && t.next == r
    requires t.token == s.sites[d].token && t.waiting == s.sites[d].waiting
    ensures ClaimInv(Put(s, d, t, s.net - multiset{RequestCs(d, r)}), a.(why := a.why[r := Queued(d)]))
  {
    var s' := Put(s, d, t, s.net - multiset{RequestCs(d, r)});
    assert HasClaim(s, r, Asking(d));
    assert forall m, c :: m != EmptyNode ==> (HasClaim(s', m, c) <==>
      (m == r && c == Queued(d)) || (HasClaim(s, m, c) && !(m == r && c == Asking(d))));
  }

  lemma ClaimGranted(s: State, a: Account, d: NodeId, r: NodeId, t: Site)
    requires ClaimInv(s, a) && d in s.sites && r != EmptyNode && s.net[RequestCs(d, r)] == 1
    requires t.next == s.sites[d].next && !t.waiting && !Pending(s, d)
    ensures ClaimInv(Put(s, d, t, s.net - multiset{RequestCs(d, r)} + multiset{GetCs(r)}),
                     a.(why := a.why[r := Granted]))
  {
    var s' := Put(s, d, t, s.net - multiset{RequestCs(d, r)} + multiset{GetCs(r)});
    assert HasClaim(s, r, Asking(d));
    assert forall m, c :: HasClaim(s', m, c) <==>
      (m == r && c == Granted) || (HasClaim(s, m, c) && !(m == r && c == Asking(d)));
  }

  lemma ClaimServed(s: State, a: Account, d: NodeId, t: Site)
    requires ClaimInv(s, a) && d in s.sites && d != EmptyNode && s.net[GetCs(d)] == 1
    requires t.next == s.sites[d].next && t.token
    ensures ClaimInv(Put(s, d, t, s.net - multiset{GetCs(d)}), a.(why := a.why - {d}))
  {
    var s' := Put(s, d, t, s.net - multiset{GetCs(d)});
    assert HasClaim(s, d, Granted);
    assert forall m, c :: HasClaim(s', m, c) <==> HasClaim(s, m, c) && !(m == d && c == Granted);
  }

  lemma ClaimsOfNewcomer(s: State, a: Account, n: NodeId, t: Site)
    requires ClaimInv(s, a) && n !in s.sites && t.next == EmptyNode && !t.waiting
    ensures ClaimInv(Put(s, n, t, s.net), a)
  {
    var s' := Put(s, n, t, s.net);
    assert forall m, c :: m != EmptyNode ==> (HasClaim(s', m, c) <==> HasClaim(s, m, c));
  }

  // --- What each kind of change does to the rest of the invariant.

  ghost predicate ShapeInv(s: State) {
    WellFormed(s) && LocalInv(s)
  }

  /** The identifiers of a message name nodes. */
  predicate EndsOk(s: State, p: Packet) {
    match p
    case RequestCs(d, r) => d in s.sites && r in s.sites
    case GetCs(d) => d in s.sites
    case _ => true
  }

  lemma ShapeKept(s: State, n: NodeId, t: Site)
    requires ShapeInv(s) && LocalOk(t) && n != EmptyNode && NamesOk(Put(s, n, t, s.net), t)
    ensures ShapeInv(Put(s, n, t, s.net))
  {
    var s' := Put(s, n, t, s.net);
    forall p | p in s.net ensures PacketOk(s', p) { assert PacketOk(s, p); }
  }

  lemma ShapeSent(s: State, n: NodeId, t: Site, q: Packet)
    requires ShapeInv(s) && LocalOk(t) && n != EmptyNode && NamesOk(Put(s, n, t, s.net), t)
    requires q !in s.net && EndsOk(s, q)
    ensures ShapeInv(Put(s, n, t, s.net + multiset{q}))
  {
    var s' := Put(s, n, t, s.net + multiset{q});
    forall p | p in s'.net ensures PacketOk(s', p) { assert p != q ==> PacketOk(s, p); }
  }

  lemma ShapeTaken(s: State, n: NodeId, t: Site, q: Packet)
    requires ShapeInv(s) && LocalOk(t) && n != EmptyNode && NamesOk(Put(s, n, t, s.net), t)
    requires s.net[q] == 1
    ensures ShapeInv(Put(s, n, t, s.net - multiset{q}))
  {
    var s' := Put(s, n, t, s.net - multiset{q});
    forall p | p in s'.net ensures PacketOk(s', p) { assert PacketOk(s, p); }
  }

  lemma ShapeExchanged(s: State, n: NodeId, t: Site, q: Packet, q': Packet)
    requires ShapeInv(s) && LocalOk(t) && n != EmptyNode && NamesOk(Put(s, n, t, s.net), t)
    requires s.net[q] == 1 && (q' == q || q' !in s.net) && EndsOk(s, q')
    ensures ShapeInv(Put(s, n, t, s.net - multiset{q} + multiset{q'}))
  {
    var s' := Put(s, n, t, s.net - multiset{q} + multiset{q'});
    forall p | p in s'.net ensures PacketOk(s', p) { assert p != q' ==> PacketOk(s, p); }
  }

  lemma TokenKept(s: State, a: Account, n: NodeId, t: Site, net: multiset<Packet>)
    requires TokenInv(s, a)
    requires t.token <==> n in s.sites && s.sites[n].token
    requires forall d :: GetCs(d) in net <==> GetCs(d) in s.net
    ensures TokenInv(Put(s, n, t, net), a)
  {
    assert forall p :: TokenAt(Put(s, n, t, net), p) <==> TokenAt(s, p);
  }

  lemma TokenSent(s: State, a: Account, n: NodeId, t: Site, net: multiset<Packet>, x: NodeId)
    requires TokenInv(s, a) && n in s.sites && s.sites[n].token && !t.token
    requires forall d :: GetCs(d) in net <==> GetCs(d) in s.net || d == x
    ensures TokenInv(Put(s, n, t, net), a.(place := Moving(x)))
  {
    assert TokenAt(s, Held(n));
    assert forall p :: TokenAt(Put(s, n, t, net), p) <==> p == Moving(x) || (TokenAt(s, p) && p != Held(n));
  }

  lemma TokenReceived(s: State, a: Account, d: NodeId, t: Site)
    requires TokenInv(s, a) && d in s.sites && s.net[GetCs(d)] == 1 && t.token
    ensures TokenInv(Put(s, d, t, s.net - multiset{GetCs(d)}), a.(place := Held(d)))
  {
    var net := s.net - multiset{GetCs(d)};
    assert TokenAt(s, Moving(d));
    assert forall x :: GetCs(x) in net <==> GetCs(x) in s.net && x != d;
    assert forall p :: TokenAt(Put(s, d, t, net), p) <==> p == Held(d) || (TokenAt(s, p) && p != Moving(d));
  }

  // --- The events.

  /** The place of the token and the claims after an event of the protocol itself. */
  ghost function Booked(s: State, a: Account, e: Event): Account
    requires Enabled(s, e)
  {
    match e
    case CallEnter(n) =>
      if s.sites[n].token then a else a.(why := a.why[n := Asking(s.sites[n].father)])
    case CallRelease(n) =>
      var x := s.sites[n].next;
      if s.sites[n].users > 1 || x == EmptyNode then a else Account(Moving(x), a.why[x := Granted])
    case DeliverRequest(d, r) =>
      if s.sites[d].father != EmptyNode then a.(why := a.why[r := Asking(s.sites[d].father)])
      else if s.sites[d].requesting then a.(why := a.why[r := Queued(d)])
      else Account(Moving(r), a.why[r := Granted])
    case DeliverGrant(d) => Account(Held(d), a.why - {d})
    case CallLeave(_, _) => Account(a.place, map[])
    case DeliverNewRoot(r, _, _) => Account(Held(r), map[])
    case DeliverReset(n, root) =>
      if s.stale[n].requesting then a.(why := a.why[n := Asking(root)]) else a
    case _ => a
  }

  lemma EnterKeepsCore(s: State, a: Account, n: NodeId)
    requires CoreInv(s, a) && Enabled(s, CallEnter(n))
    ensures CoreInv(DoEnter(s, n), Booked(s, a, CallEnter(n)))
  {
    var t := Enter(s.sites[n], n).site;
    var f := s.sites[n].father;
    assert LocalOk(s.sites[n]) && NamesOk(s, s.sites[n]);
    if s.sites[n].token {
      assert DoEnter(s, n) == Put(s, n, t, s.net);
      ShapeKept(s, n, t);
      TokenKept(s, a, n, t, s.net);
      ClaimsKept(s, a, n, t);
    } else {
      var net := s.net + multiset{RequestCs(f, n)};
      assert DoEnter(s, n) == Put(s, n, t, net);
      assert !HasClaim(s, n, Asking(f));
      ShapeSent(s, n, t, RequestCs(f, n));
      TokenKept(s, a, n, t, net);
      ClaimAsked(s, a, n, t, f);
    }
  }

  lemma WakeKeepsCore(s: State, a: Account, n: NodeId)
    requires CoreInv(s, a) && Enabled(s, CallWake(n))
    ensures CoreInv(DoWake(s, n), a)
  {
    var t := Wake(s.sites[n]);
    assert LocalOk(s.sites[n]) && NamesOk(s, s.sites[n]);
    assert DoWake(s, n) == Put(s, n, t, s.net);
    ShapeKept(s, n, t);
    TokenKept(s, a, n, t, s.net);
    ClaimsKept(s, a, n, t);
  }

  lemma ReleaseKeepsCore(s: State, a: Account, n: NodeId)
    requires CoreInv(s, a) && Enabled(s, CallRelease(n))
    ensures CoreInv(DoRelease(s, n), Booked(s, a, CallRelease(n)))
  {
    var t := Release(s.sites[n]).site;
    var x := s.sites[n].next;
    assert LocalOk(s.sites[n]) && NamesOk(s, s.sites[n]);
    if s.sites[n].users > 1 || x == EmptyNode {
      assert DoRelease(s, n) == Put(s, n, t, s.net);
      ShapeKept(s, n, t);
      TokenKept(s, a, n, t, s.net);
      ClaimsKept(s, a, n, t);
    } else {
      var net := s.net + multiset{GetCs(x)};
      assert DoRelease(s, n) == Put(s, n, t, net);
      assert TokenAt(s, Held(n)) && !TokenAt(s, Moving(x));
      ShapeSent(s, n, t, GetCs(x));
      TokenSent(s, a, n, t, net, x);
      ClaimHanded(s, a, n, t, x);
    }
  }

  lemma ForwardKeepsCore(s: State, a: Account, d: NodeId, r: NodeId)
    requires CoreInv(s, a) && Enabled(s, DeliverRequest(d, r)) && s.sites[d].father != EmptyNode
    ensures CoreInv(DoRequest(s, d, r), Booked(s, a, DeliverRequest(d, r)))
  {
    var t := OnRequest(s.sites[d], r).site;
    var f := s.sites[d].father;
    var net := s.net - multiset{RequestCs(d, r)} + multiset{RequestCs(f, r)};
    assert LocalOk(s.sites[d]) && NamesOk(s, s.sites[d]);
    assert PacketOk(s, RequestCs(d, r)) && HasClaim(s, r, Asking(d));
    assert DoRequest(s, d, r) == Put(s, d, t, net);
    assert f != d ==> !HasClaim(s, r, Asking(f));
    ShapeExchanged(s, d, t, RequestCs(d, r), RequestCs(f, r));
    TokenKept(s, a, d, t, net);
    ClaimForwarded(s, a, d, r, t, f);
  }

  lemma QueueKeepsCore(s: State, a: Account, d: NodeId, r: NodeId)
    requires CoreInv(s, a) && Enabled(s, DeliverRequest(d, r))
    requires s.sites[d].father == EmptyNode && s.sites[d].requesting
    ensures CoreInv(DoRequest(s, d, r), Booked(s, a, DeliverRequest(d, r)))
  {
    var t := OnRequest(s.sites[d], r).site;
    var net := s.net - multiset{RequestCs(d, r)};
    assert LocalOk(s.sites[d]) && NamesOk(s, s.sites[d]);
    assert PacketOk(s, RequestCs(d, r));
    assert DoRequest(s, d, r) == Put(s, d, t, net);
    ShapeTaken(s, d, t, RequestCs(d, r));
    TokenKept(s, a, d, t, net);
    ClaimQueued(s, a, d, r, t);
  }

  lemma HandOverKeepsCore(s: State, a: Account, d: NodeId, r: NodeId)
    requires CoreInv(s, a) && Enabled(s, DeliverRequest(d, r))
    requires s.sites[d].father == EmptyNode && !s.sites[d].requesting
    ensures CoreInv(DoRequest(s, d, r), Booked(s, a, DeliverRequest(d, r)))
  {
    var t := OnRequest(s.sites[d], r).site;
    var net := s.net - multiset{RequestCs(d, r)} + multiset{GetCs(r)};
    assert LocalOk(s.sites[d]) && NamesOk(s, s.sites[d]);
    assert PacketOk(s, RequestCs(d, r));
    assert DoRequest(s, d, r) == Put(s, d, t, net);
    assert TokenAt(s, Held(d)) && !TokenAt(s, Moving(r));
    ShapeExchanged(s, d, t, RequestCs(d, r), GetCs(r));
    TokenSent(s, a, d, t, net, r);
    ClaimGranted(s, a, d, r, t);
  }

  lemma RequestKeepsCore(s: State, a: Account, d: NodeId, r: NodeId)
    requires CoreInv(s, a) && Enabled(s, DeliverRequest(d, r))
    ensures CoreInv(DoRequest(s, d, r), Booked(s, a, DeliverRequest(d, r)))
  {
    if s.sites[d].father != EmptyNode {
      ForwardKeepsCore(s, a, d, r);
    } else if s.sites[d].requesting {
      QueueKeepsCore(s, a, d, r);
    } else {
      HandOverKeepsCore(s, a, d, r);
    }
  }

  lemma GrantKeepsCore(s: State, a: Account, d: NodeId)
    requires CoreInv(s, a) && Enabled(s, DeliverGrant(d))
    ensures CoreInv(DoGrant(s, d), Booked(s, a, DeliverGrant(d)))
  {
    var t := OnGrant(s.sites[d]);
    assert LocalOk(s.sites[d]) && NamesOk(s, s.sites[d]);
    assert PacketOk(s, GetCs(d)) && HasClaim(s, d, Granted);
    assert DoGrant(s, d) == Put(s, d, t, s.net - multiset{GetCs(d)});
    ShapeTaken(s, d, t, GetCs(d));
    TokenReceived(s, a, d, t);
    ClaimServed(s, a, d, t);
  }

  lemma JoinKeepsCore(s: State, a: Account, n: NodeId, contact: NodeId)
    requires CoreInv(s, a) && n !in s.sites && n != EmptyNode && contact in s.sites
    ensures CoreInv(DoJoin(s, n, contact), a)
  {
    var t := Fresh(contact, false);
    ShapeKept(s, n, t);
    TokenKept(s, a, n, t, s.net);
    ClaimsOfNewcomer(s, a, n, t);
  }
}
