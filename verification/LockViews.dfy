/**
 What a state of the page lock looks like to the trap argument, what every event of a write-only
 run does to that view, and that every event keeps every trap.
 */
module LockViews {
  import opened Nodes
  import opened PageLock
  import opened LockMachine
  import opened LockExclusion
  import opened LockTheorems
  import opened LockProgress
  import opened LockTrap

  /** Where a node sends a request that it neither answers nor lists. */
  function Next(p: Page): NodeId {
    if p.requests != [] then LastWriter(p.requests) else p.haveToken
  }

  ghost function Listings(s: State): set<(NodeId, NodeId)> {
    set n, m | n in s.pages && m in s.pages && Request(n, Write) in s.pages[m].requests :: (n, m)
  }

  ghost function Travels(net: multiset<Message>): set<(NodeId, NodeId)> {
    set m | m in net && m.AskLock? :: (m.dst, m.initiator)
  }

  /** The view of a state whose token is at `t` or travels to it. */
  ghost function ViewOf(s: State, t: NodeId): View {
    View(
      s.pages.Keys,
      (map n | n in s.pages :: Next(s.pages[n])),
      (map n | n in s.pages :: s.pages[n].haveToken),
      (set n | n in s.pages && s.pages[n].requests != []),
      (set n | n in s.pages && Pending(s, n)),
      Listings(s),
      Travels(s.net),
      {t})
  }

  lemma PlaceIs(s: State, a: Account, p: Place)
    requires TokenInv(s, a) && TokenAt(s, p)
    ensures a.place == p
  {}

  lemma OthersPending(s: State, n: NodeId, p: Page, net: multiset<Message>)
    requires n in s.pages
    ensures forall k :: Pending(Put(s, n, p, net), k) <==> if k == n then Blocked(p) && !p.signalled else Pending(s, k)
  {}

  lemma PageViewed(s: State, n: NodeId, p: Page, net: multiset<Message>, t: NodeId, t': NodeId)
    requires n in s.pages
    ensures var v, v' := ViewOf(s, t), ViewOf(Put(s, n, p, net), t');
      && v'.nodes == v.nodes && v'.next == v.next[n := Next(p)] && v'.own == v.own[n := p.haveToken]
      && v'.full == (if p.requests != [] then v.full + {n} else v.full - {n})
      && v'.pending == (if Blocked(p) && !p.signalled then v.pending + {n} else v.pending - {n})
      && v'.asks == Travels(net) && v'.listed == Listings(Put(s, n, p, net)) && v'.token == {t'}
  {
    hide Listings, Travels, Next, Pending;
    OthersPending(s, n, p, net);
    hide Blocked;
    var v, v' := ViewOf(s, t), ViewOf(Put(s, n, p, net), t');
    assert v'.nodes == v.nodes;
  }

  lemma TravelsAre(net: multiset<Message>, d: NodeId, i: NodeId)
    requires forall m :: m in net && m.AskLock? ==> m.mode == Write
    ensures (d, i) in Travels(net) <==> AskLock(d, i, Write) in net
  {
    if AskLock(d, i, Write) in net { assert (AskLock(d, i, Write).dst, AskLock(d, i, Write).initiator) in Travels(net); }
  }

  lemma ListingsKept(s: State, n: NodeId, p: Page, net: multiset<Message>)
    requires n in s.pages && p.requests == s.pages[n].requests
    ensures Listings(Put(s, n, p, net)) == Listings(s)
  {
    var s' := Put(s, n, p, net);
    forall x, m ensures (x, m) in Listings(s') <==> (x, m) in Listings(s) {}
  }

  lemma ListingAdded(s: State, n: NodeId, p: Page, i: NodeId, net: multiset<Message>)
    requires n in s.pages && i in s.pages && p.requests == Add(s.pages[n].requests, i, Write)
    ensures Listings(Put(s, n, p, net)) == Listings(s) + {(i, n)}
  {
    var s' := Put(s, n, p, net);
    forall x, m ensures (x, m) in Listings(s') <==> (x, m) in Listings(s) || (x, m) == (i, n) {}
  }

  lemma ListingTaken(s: State, n: NodeId, p: Page, net: multiset<Message>)
    requires n in s.pages && ListOk(s.pages.Keys, s.pages[n].requests) && s.pages[n].requests != []
    requires p.requests == s.pages[n].requests[1..]
    ensures Listings(Put(s, n, p, net)) == Listings(s) - {(s.pages[n].requests[0].who, n)}
  {
    var s', rs := Put(s, n, p, net), s.pages[n].requests;
    assert rs == [rs[0]] + rs[1..] && rs[0] == Request(rs[0].who, Write) && rs[0] !in rs[1..];
    forall x, m ensures (x, m) in Listings(s') <==> (x, m) in Listings(s) && (x, m) != (rs[0].who, n) {}
  }

  lemma AsksAfter(nodes: set<NodeId>, net: multiset<Message>, net': multiset<Message>, taken: set<(NodeId, NodeId)>, added: set<(NodeId, NodeId)>)
    requires MailOk(nodes, net) && MailOk(nodes, net')
    requires forall d, i :: AskLock(d, i, Write) in net' <==> (AskLock(d, i, Write) in net && (d, i) !in taken) || (d, i) in added
    ensures Travels(net') == Travels(net) - taken + added
  {
    hide Travels;
    assert forall m :: m in net && m.AskLock? ==> m.mode == Write;
    assert forall m :: m in net' && m.AskLock? ==> m.mode == Write;
    forall p: (NodeId, NodeId) ensures p in Travels(net') <==> p in Travels(net) - taken + added {
      TravelsAre(net', p.0, p.1);
      TravelsAre(net, p.0, p.1);
    }
  }

  lemma AskTaken(nodes: set<NodeId>, net: multiset<Message>, d: NodeId, i: NodeId)
    requires MailOk(nodes, net) && AskLock(d, i, Write) in net
    ensures var left := net - multiset{AskLock(d, i, Write)};
      MailOk(nodes, left) && Travels(left) == Travels(net) - {(d, i)} && AskLock(d, i, Write) !in left && d in nodes && i in nodes
  {
    hide Travels;
    MailTaken(nodes, net, AskLock(d, i, Write));
    AsksAfter(nodes, net, net - multiset{AskLock(d, i, Write)}, {(d, i)}, {});
  }

  lemma AskAdded(nodes: set<NodeId>, net: multiset<Message>, f: NodeId, i: NodeId)
    requires MailOk(nodes, net) && AskLock(f, i, Write) !in net && f in nodes && i in nodes
    ensures var all := net + multiset{AskLock(f, i, Write)};
      MailOk(nodes, all) && Travels(all) == Travels(net) + {(f, i)}
  {
    hide Travels;
    MailSent(nodes, net, AskLock(f, i, Write));
    AsksAfter(nodes, net, net + multiset{AskLock(f, i, Write)}, {}, {(f, i)});
  }

  // --- The view of each step.

  lemma CallViewed(s: State, n: NodeId, p: Page, t: NodeId)
    requires ShapeInv(s) && n in s.pages && s.pages[n].mode == Unlocked && s.pages[n].haveToken != n
    requires p == s.pages[n].(mode := Writing, waiting := true) && AskLock(p.haveToken, n, Write) !in s.net
    ensures ViewOf(Put(s, n, p, s.net + multiset{AskLock(p.haveToken, n, Write)}), t) == Called(ViewOf(s, t), n)
    ensures var v := ViewOf(s, t); n !in v.pending && v.own[n] in v.nodes && v.own[n] != n
  {
    hide LastWriter, ListOk, Listings, Travels, MailOk, ShapeInv;
    var net := s.net + multiset{AskLock(p.haveToken, n, Write)};
    Facts(s, n);
    PageViewed(s, n, p, net, t, t);
    ListingsKept(s, n, p, net);
    MailSent(s.pages.Keys, s.net, AskLock(p.haveToken, n, Write));
    AsksAfter(s.pages.Keys, s.net, net, {}, {(p.haveToken, n)});
    hide ViewOf;
    assert ViewOf(s, t).next[n := Next(p)] == ViewOf(s, t).next by { SameNext(s, n, p, t); }
  }

  lemma SameNext(s: State, n: NodeId, p: Page, t: NodeId)
    requires n in s.pages && p.requests == s.pages[n].requests && (p.requests == [] ==> p.haveToken == s.pages[n].haveToken)
    ensures n in ViewOf(s, t).next && ViewOf(s, t).next[n] == Next(p) && ViewOf(s, t).next[n := Next(p)] == ViewOf(s, t).next
  {
    hide LastWriter;
  }

  lemma QuietViewed(s: State, n: NodeId, p: Page, t: NodeId)
    requires n in s.pages && p.requests == s.pages[n].requests && p.haveToken == s.pages[n].haveToken
    requires Blocked(p) && !p.signalled <==> Pending(s, n)
    ensures ViewOf(Put(s, n, p, s.net), t) == ViewOf(s, t)
  {
    hide Listings, Travels, LastWriter;
    PageViewed(s, n, p, s.net, t, t);
    ListingsKept(s, n, p, s.net);
    SameNext(s, n, p, t);
  }

  lemma PromotionViewed(s: State, n: NodeId, x: NodeId, p: Page)
    requires ShapeInv(s) && n in s.pages && s.pages[n].requests != [] && x == s.pages[n].requests[0].who && Holds(s.pages[n])
    requires p == s.pages[n].(mode := Unlocked, haveToken := x, requests := s.pages[n].requests[1..])
    requires GetLock(x, n, Write) !in s.net
    ensures var v, v' := ViewOf(s, n), ViewOf(Put(s, n, p, s.net + multiset{GetLock(x, n, Write)}), x);
      && v' == Promoted(v, n, x, Next(p), v'.full) && v.full - {n} <= v'.full <= v.full
      && (Next(p) == x || Next(p) == v.next[n]) && (x, n) in v.listed && x in v.nodes && n in v.nodes
  {
    hide LastWriter, Listings, Travels, MailOk, ShapeInv;
    var net := s.net + multiset{GetLock(x, n, Write)};
    Facts(s, n);
    PageViewed(s, n, p, net, n, x);
    ListingTaken(s, n, p, net);
    MailSent(s.pages.Keys, s.net, GetLock(x, n, Write));
    AsksAfter(s.pages.Keys, s.net, net, {}, {});
    NextAfterPromotion(s.pages.Keys, s.pages[n]);
    assert (x, n) in Listings(s) by { FirstIsListed(s, n); }
  }

  lemma FirstIsListed(s: State, n: NodeId)
    requires n in s.pages && ListOk(s.pages.Keys, s.pages[n].requests) && s.pages[n].requests != []
    ensures (s.pages[n].requests[0].who, n) in Listings(s)
  {
    var r := s.pages[n].requests[0];
    assert r == Request(r.who, Write) && r in s.pages[n].requests;
  }

  lemma {:induction false} LastIs(rs: seq<Request>)
    requires rs != [] && rs[|rs| - 1].mode == Write
    ensures LastWriter(rs) == rs[|rs| - 1].who
  {}

  /** A first request is what a page forwards to; further ones change nothing. */
  lemma NextAfterAdd(nodes: set<NodeId>, p: Page, who: NodeId)
    requires ListOk(nodes, p.requests)
    ensures Next(p.(requests := Add(p.requests, who, Write))) == if p.requests != [] then Next(p) else who
  {
    var all := Add(p.requests, who, Write);
    LastIs(all);
    if p.requests != [] { LastIs(p.requests); }
  }

  lemma NextAfterPromotion(nodes: set<NodeId>, p: Page)
    requires ListOk(nodes, p.requests) && p.requests != []
    ensures var q := p.(mode := Unlocked, haveToken := p.requests[0].who, requests := p.requests[1..]);
      Next(q) == if |p.requests| > 1 then Next(p) else p.requests[0].who
  {
    LastIs(p.requests);
    if |p.requests| > 1 { LastIs(p.requests[1..]); }
  }

  lemma TakingViewed(s: State, d: NodeId, i: NodeId, t: NodeId)
    requires ShapeInv(s) && d in s.pages && AskLock(d, i, Write) in s.net
    ensures var p := s.pages[d].(requests := Add(s.pages[d].requests, i, Write));
      ViewOf(Put(s, d, p, s.net - multiset{AskLock(d, i, Write)}), t) == TakenInto(ViewOf(s, t), d, i)
  {
    hide Next, Listings, Travels, MailOk, ShapeInv, Add, ListOk;
    var p := s.pages[d].(requests := Add(s.pages[d].requests, i, Write));
    var net := s.net - multiset{AskLock(d, i, Write)};
    Facts(s, d);
    AskTaken(s.pages.Keys, s.net, d, i);
    PageViewed(s, d, p, net, t, t);
    ListingAdded(s, d, p, i, net);
    NextAfterAdd(s.pages.Keys, s.pages[d], i);
    assert p.requests != [] by { AddIsFull(s.pages[d].requests, i); }
    SameCaller(s, d, p);
    hide Pending, Blocked;
  }

  lemma AddIsFull(rs: seq<Request>, i: NodeId)
    ensures Add(rs, i, Write) != []
  {}

  lemma SameCaller(s: State, d: NodeId, p: Page)
    requires d in s.pages && p.waiting == s.pages[d].waiting && p.stuck == s.pages[d].stuck && p.signalled == s.pages[d].signalled
    ensures Blocked(p) && !p.signalled <==> Pending(s, d)
  {}

  /** A node with a list passes the request on and does not change. */
  lemma PassingViewed(s: State, d: NodeId, i: NodeId, f: NodeId, t: NodeId)
    requires ShapeInv(s) && d in s.pages && AskLock(d, i, Write) in s.net && f == Next(s.pages[d]) && f in s.pages
    requires AskLock(f, i, Write) in s.net ==> f == d
    requires s.pages[d].requests != []
    ensures ViewOf(Put(s, d, s.pages[d], s.net - multiset{AskLock(d, i, Write)} + multiset{AskLock(f, i, Write)}), t)
         == Forwarded(ViewOf(s, t), d, i)
  {
    hide Next, Listings, Travels, MailOk, ShapeInv, ListOk, Pending;
    var left, p := s.net - multiset{AskLock(d, i, Write)}, s.pages[d];
    Facts(s, d);
    AskTaken(s.pages.Keys, s.net, d, i);
    AskAdded(s.pages.Keys, left, f, i);
    ListingsKept(s, d, p, left + multiset{AskLock(f, i, Write)});
    assert s.pages[d := p] == s.pages;
    SamePages(s, State(s.pages, left + multiset{AskLock(f, i, Write)}), t);
  }

  lemma SamePages(s: State, s': State, t: NodeId)
    requires s'.pages == s.pages
    ensures ViewOf(s', t) == ViewOf(s, t).(asks := Travels(s'.net))
  {
    hide Travels, Next;
    forall x ensures Pending(s', x) <==> Pending(s, x) {}
    forall p: (NodeId, NodeId) ensures p in Listings(s') <==> p in Listings(s) {}
  }

  /** A node without a list passes the request on and names the requester from now on. */
  lemma FlipViewed(s: State, d: NodeId, i: NodeId, f: NodeId, t: NodeId)
    requires ShapeInv(s) && d in s.pages && AskLock(d, i, Write) in s.net && f == s.pages[d].haveToken && f in s.pages
    requires AskLock(f, i, Write) in s.net ==> f == d
    requires s.pages[d].requests == []
    ensures ViewOf(Put(s, d, s.pages[d].(haveToken := i), s.net - multiset{AskLock(d, i, Write)} + multiset{AskLock(f, i, Write)}), t)
         == Forwarded(ViewOf(s, t), d, i)
  {
    hide Listings, Travels, MailOk, ShapeInv, ListOk;
    var left, p := s.net - multiset{AskLock(d, i, Write)}, s.pages[d].(haveToken := i);
    Facts(s, d);
    AskTaken(s.pages.Keys, s.net, d, i);
    AskAdded(s.pages.Keys, left, f, i);
    PageViewed(s, d, p, left + multiset{AskLock(f, i, Write)}, t, t);
    ListingsKept(s, d, p, left + multiset{AskLock(f, i, Write)});
    SameCaller(s, d, p);
    hide Pending, Blocked;
  }

  lemma AnswerViewed(s: State, d: NodeId, i: NodeId)
    requires ShapeInv(s) && d in s.pages && AskLock(d, i, Write) in s.net && GetLock(i, d, Write) !in s.net
    requires s.pages[d].haveToken == d && s.pages[d].mode == Unlocked
    ensures ViewOf(Put(s, d, s.pages[d].(haveToken := i), s.net - multiset{AskLock(d, i, Write)} + multiset{GetLock(i, d, Write)}), i)
         == Answered(ViewOf(s, d), d, i)
  {
    hide LastWriter, Listings, Travels, MailOk, ShapeInv;
    var m, m', p := AskLock(d, i, Write), GetLock(i, d, Write), s.pages[d].(haveToken := i);
    var net := s.net - multiset{m} + multiset{m'};
    Facts(s, d);
    MailTaken(s.pages.Keys, s.net, m);
    MailSent(s.pages.Keys, s.net - multiset{m}, m');
    PageViewed(s, d, p, net, d, i);
    ListingsKept(s, d, p, net);
    AsksAfter(s.pages.Keys, s.net, net, {(d, i)}, {});
    SameCaller(s, d, p);
  }

  lemma ArrivalViewed(s: State, d: NodeId, x: NodeId, p: Page)
    requires ShapeInv(s) && d in s.pages && GetLock(d, x, Write) in s.net && Pending(s, d)
    requires p == s.pages[d].(haveToken := d, signalled := true)
    ensures ViewOf(Put(s, d, p, s.net - multiset{GetLock(d, x, Write)}), d) == Arrived(ViewOf(s, d), d)
  {
    hide LastWriter, Listings, Travels, MailOk, ShapeInv;
    var m := GetLock(d, x, Write);
    Facts(s, d);
    MailTaken(s.pages.Keys, s.net, m);
    PageViewed(s, d, p, s.net - multiset{m}, d, d);
    ListingsKept(s, d, p, s.net - multiset{m});
    AsksAfter(s.pages.Keys, s.net, s.net - multiset{m}, {}, {});
    if s.pages[d].requests != [] { SameNext(s, d, p, d); }
  }

  // --- Every step keeps a trap.

  ghost predicate Trapped(s: State, a: Account, z: Zone) {
    Trap(ViewOf(s, a.place.n), z)
  }

  lemma WaitingTrapped(s: State, a: Account, n: NodeId, p: Page, s': State, a': Account, z: Zone)
    requires n in s.pages && s.pages[n].mode == Unlocked && s.pages[n].haveToken != n
    requires p == s.pages[n].(mode := Writing, waiting := true) && s' == Put(s, n, p, s.net + multiset{AskLock(p.haveToken, n, Write)})
    requires Inv(s, a) && TokenInv(s', a') && Trapped(s, a, z) && !Pending(s, n) && !s.pages[n].waiting
    ensures Trapped(s', a', z)
  {
    hide Trap, ViewOf, ClaimInv, ListOk, MailOk, ShapeInv, TokenInv, Next;
    NoClaim(s, a, n);
    assert !HasClaim(s, n, Asking(p.haveToken));
    StaysAt(s, a, s', a');
    CallViewed(s, n, p, a.place.n);
    NodesViewed(s, a.place.n);
    CallKeepsTrap(ViewOf(s, a.place.n), z, n);
  }

  lemma CallTrapped(s: State, a: Account, n: NodeId, a': Account, z: Zone)
    requires Enabled(s, CallAsk(n)) && Inv(s, a) && Inv(Step(s, CallAsk(n)), a') && Trapped(s, a, z)
    ensures Trapped(Step(s, CallAsk(n)), a', z)
  {
    hide Trapped, ViewOf, ClaimInv, ListOk, MailOk, ShapeInv, TokenInv, Next;
    var p, s' := s.pages[n], Step(s, CallAsk(n));
    Facts(s, n);
    if p.mode == Unlocked && p.haveToken != n {
      var p' := p.(mode := Writing, waiting := true);
      assert s' == Put(s, n, p', s.net + multiset{AskLock(p.haveToken, n, Write)});
      WaitingTrapped(s, a, n, p', s', a', z);
    } else {
      var p' := p.(mode := Writing);
      assert s' == Put(s, n, p', s.net);
      StaysAt(s, a, s', a');
      QuietTrapped(s, a, n, p', a', z);
    }
  }

  lemma QuietTrapped(s: State, a: Account, n: NodeId, p: Page, a': Account, z: Zone)
    requires n in s.pages && p.requests == s.pages[n].requests && p.haveToken == s.pages[n].haveToken
    requires Blocked(p) && !p.signalled <==> Pending(s, n)
    requires a'.place == a.place && Trapped(s, a, z)
    ensures Trapped(Put(s, n, p, s.net), a', z)
  {
    hide Trap, ViewOf;
    QuietViewed(s, n, p, a.place.n);
  }

  lemma NodesViewed(s: State, t: NodeId)
    ensures ViewOf(s, t).nodes == s.pages.Keys && ViewOf(s, t).token == {t}
  {}

  lemma StaysAt(s: State, a: Account, s': State, a': Account)
    requires TokenInv(s, a) && TokenInv(s', a')
    requires forall n :: TokenAt(s, Held(n)) ==> TokenAt(s', Held(n))
    requires forall n, x :: GetLock(n, x, Write) in s.net ==> GetLock(n, x, Write) in s'.net
    ensures a'.place == a.place
  {
    assert TokenAt(s, a.place);
    assert TokenAt(s', a.place);
  }

  lemma ResumeTrapped(s: State, a: Account, n: NodeId, a': Account, z: Zone)
    requires Enabled(s, CallResume(n)) && Inv(s, a) && Inv(Step(s, CallResume(n)), a') && Trapped(s, a, z)
    ensures Trapped(Step(s, CallResume(n)), a', z)
  {
    hide Trap, ViewOf, ClaimInv, ListOk, MailOk, ShapeInv, TokenInv;
    var s', p' := Step(s, CallResume(n)), Resume(s.pages[n]);
    Facts(s, n);
    assert s' == Put(s, n, p', s.net);
    assert a'.place == a.place by { StaysAt(s, a, s', a'); }
    QuietViewed(s, n, p', a.place.n);
  }

  lemma PromotionTrapped(s: State, a: Account, n: NodeId, x: NodeId, p: Page, s': State, a': Account, z: Zone)
    requires n in s.pages && s.pages[n].requests != [] && x == s.pages[n].requests[0].who && Holds(s.pages[n])
    requires p == s.pages[n].(mode := Unlocked, haveToken := x, requests := s.pages[n].requests[1..])
    requires s' == Put(s, n, p, s.net + multiset{GetLock(x, n, Write)})
    requires ShapeInv(s) && TokenInv(s, a) && TokenInv(s', a') && Trapped(s, a, z)
    ensures Trapped(s', a', z)
  {
    hide Trap, ViewOf, ListOk, MailOk, ShapeInv, TokenInv, Next;
    Facts(s, n);
    PlaceIs(s, a, Held(n));
    NoGrantNow(s, a, n, x);
    PlaceIs(s', a', Moving(x, n));
    PromotionViewed(s, n, x, p);
    NodesViewed(s, n);
    PromotionKeepsTrap(ViewOf(s, n), z, n, x, Next(p), ViewOf(s', x).full);
  }

  lemma UnlockForms(s: State, n: NodeId)
    requires ShapeInv(s) && Enabled(s, CallUnlock(n))
    ensures var p := s.pages[n];
      Step(s, CallUnlock(n)) ==
        if p.requests == [] then Put(s, n, p.(mode := Unlocked), s.net)
        else Put(s, n, p.(mode := Unlocked, haveToken := p.requests[0].who, requests := p.requests[1..]),
                 s.net + multiset{GetLock(p.requests[0].who, n, Write)})
  {
    hide MailOk, ShapeInv;
    Facts(s, n);
  }

  lemma UnlockTrapped(s: State, a: Account, n: NodeId, a': Account, z: Zone)
    requires Enabled(s, CallUnlock(n)) && Inv(s, a) && Inv(Step(s, CallUnlock(n)), a') && Trapped(s, a, z)
    ensures Trapped(Step(s, CallUnlock(n)), a', z)
  {
    hide Trapped, ClaimInv, ListOk, MailOk, ShapeInv, TokenInv, Next, Step, Unlock;
    var p, s' := s.pages[n], Step(s, CallUnlock(n));
    UnlockForms(s, n);
    if p.requests == [] {
      StaysAt(s, a, s', a');
      QuietTrapped(s, a, n, p.(mode := Unlocked), a', z);
    } else {
      var x := p.requests[0].who;
      PromotionTrapped(s, a, n, x, p.(mode := Unlocked, haveToken := x, requests := p.requests[1..]), s', a', z);
    }
  }

  lemma NoGrantNow(s: State, a: Account, n: NodeId, x: NodeId)
    requires TokenInv(s, a) && a.place == Held(n)
    ensures GetLock(x, n, Write) !in s.net
  {
    assert TokenAt(s, Moving(x, n)) <==> a.place == Moving(x, n);
  }

  lemma TakingForms(s: State, d: NodeId, i: NodeId)
    requires ShapeInv(s) && Enabled(s, DeliverAsk(d, i)) && TakesIn(s.pages[d], d)
    ensures Step(s, DeliverAsk(d, i))
         == Put(s, d, s.pages[d].(requests := Add(s.pages[d].requests, i, Write)), s.net - multiset{AskLock(d, i, Write)})
  {
    hide MailOk, ListOk, ShapeInv, LastWriter;
    Facts(s, d);
  }

  lemma AnswerForms(s: State, d: NodeId, i: NodeId)
    requires ShapeInv(s) && Enabled(s, DeliverAsk(d, i)) && !TakesIn(s.pages[d], d)
    requires s.pages[d].requests == [] && s.pages[d].haveToken == d
    ensures s.pages[d].mode == Unlocked
    ensures Step(s, DeliverAsk(d, i))
         == Put(s, d, s.pages[d].(haveToken := i), s.net - multiset{AskLock(d, i, Write)} + multiset{GetLock(i, d, Write)})
  {
    hide MailOk, ListOk, ShapeInv;
    Facts(s, d);
  }

  lemma ForwardForms(s: State, d: NodeId, i: NodeId)
    requires ShapeInv(s) && Enabled(s, DeliverAsk(d, i)) && !TakesIn(s.pages[d], d)
    requires !(s.pages[d].requests == [] && s.pages[d].haveToken == d)
    ensures var p := s.pages[d]; var f := Next(p);
      && f in s.pages
      && Step(s, DeliverAsk(d, i)) == Put(s, d, if p.requests != [] then p else p.(haveToken := i),
           s.net - multiset{AskLock(d, i, Write)} + multiset{AskLock(f, i, Write)})
  {
    hide MailOk, ListOk, ShapeInv, LastWriter;
    Facts(s, d);
    LastWriterOfWriters(s.pages.Keys, s.pages[d].requests);
  }

  lemma TakingTrapped(s: State, a: Account, d: NodeId, i: NodeId, s': State, a': Account, z: Zone)
    requires d in s.pages && Enabled(s, DeliverAsk(d, i)) && s' == Step(s, DeliverAsk(d, i))
    requires TakesIn(s.pages[d], d)
    requires Inv(s, a) && Inv(s', a') && Trapped(s, a, z)
    ensures Trapped(s', a', z)
  {
    hide Trap, ViewOf, ClaimInv, ShapeInv, TokenInv, TakesIn, Step;
    TakingForms(s, d, i);
    TravelViewed(s, d, i, a.place.n);
    StaysAt(s, a, s', a');
    TakingViewed(s, d, i, a.place.n);
    TakingInKeepsTrap(ViewOf(s, a.place.n), z, d, i);
  }

  lemma AnswerTrapped(s: State, a: Account, d: NodeId, i: NodeId, s': State, a': Account, z: Zone)
    requires d in s.pages && Enabled(s, DeliverAsk(d, i)) && s' == Step(s, DeliverAsk(d, i))
    requires !TakesIn(s.pages[d], d) && s.pages[d].requests == [] && s.pages[d].haveToken == d
    requires Inv(s, a) && Inv(s', a') && Trapped(s, a, z)
    ensures Trapped(s', a', z)
  {
    hide Trap, ViewOf, ClaimInv, ShapeInv, TokenInv, TakesIn, Step, MailOk, ListOk;
    AnswerForms(s, d, i);
    TravelViewed(s, d, i, a.place.n);
    Facts(s, d);
    PlaceIs(s, a, Held(d));
    NoGrantNow(s, a, d, i);
    PlaceIs(s', a', Moving(i, d));
    AnswerViewed(s, d, i);
    NodesViewed(s, d);
    AnswerKeepsTrap(ViewOf(s, d), z, d, i);
  }

  lemma AskTrapped(s: State, a: Account, d: NodeId, i: NodeId, a': Account, z: Zone)
    requires Enabled(s, DeliverAsk(d, i)) && Inv(s, a) && Inv(Step(s, DeliverAsk(d, i)), a') && Trapped(s, a, z)
    ensures Trapped(Step(s, DeliverAsk(d, i)), a', z)
  {
    hide Trapped, Inv, TakesIn, Step;
    var s' := Step(s, DeliverAsk(d, i));
    if TakesIn(s.pages[d], d) {
      TakingTrapped(s, a, d, i, s', a', z);
    } else if s.pages[d].requests == [] && s.pages[d].haveToken == d {
      AnswerTrapped(s, a, d, i, s', a', z);
    } else {
      AskForwarded(s, a, d, i, s', a', z);
    }
  }

  lemma TravelViewed(s: State, d: NodeId, i: NodeId, t: NodeId)
    requires AskLock(d, i, Write) in s.net
    ensures (d, i) in ViewOf(s, t).asks
  {
    assert (AskLock(d, i, Write).dst, AskLock(d, i, Write).initiator) in Travels(s.net);
  }

  lemma AskForwarded(s: State, a: Account, d: NodeId, i: NodeId, s': State, a': Account, z: Zone)
    requires d in s.pages && Enabled(s, DeliverAsk(d, i)) && s' == Step(s, DeliverAsk(d, i))
    requires !TakesIn(s.pages[d], d) && !(s.pages[d].requests == [] && s.pages[d].haveToken == d)
    requires Inv(s, a) && Inv(s', a') && Trapped(s, a, z)
    ensures Trapped(s', a', z)
  {
    hide Trap, ViewOf, ClaimInv, ShapeInv, TokenInv, TakesIn, Step, LastWriter;
    var p, t := s.pages[d], a.place.n;
    ForwardForms(s, d, i);
    TravelViewed(s, d, i, t);
    var f := Next(p);
    assert HasClaim(s, i, Asking(d));
    OneClaim(s, a, i, Asking(d), Asking(f));
    StaysUnlessGiven(s, a, d, if p.requests != [] then p else p.(haveToken := i), s', a');
    if p.requests != [] { PassingViewed(s, d, i, f, t); } else { FlipViewed(s, d, i, f, t); }
    ForwardedViewed(s, d, i, t);
    ForwardKeepsTrap(ViewOf(s, t), z, d, i);
  }

  lemma ForwardedViewed(s: State, d: NodeId, i: NodeId, t: NodeId)
    requires d in s.pages && Next(s.pages[d]) in s.pages && Pending(s, i)
    ensures var v := ViewOf(s, t); d in v.next && v.next[d] in v.nodes && i in v.pending
  {}

  lemma StaysUnlessGiven(s: State, a: Account, d: NodeId, p: Page, s': State, a': Account)
    requires TokenInv(s, a) && TokenInv(s', a') && d in s.pages && s'.pages == s.pages[d := p]
    requires p.waiting == s.pages[d].waiting && p.signalled == s.pages[d].signalled
    requires p == s.pages[d] || s.pages[d].haveToken != d
    requires forall n, x :: GetLock(n, x, Write) in s.net ==> GetLock(n, x, Write) in s'.net
    ensures a'.place == a.place
  {
    hide TokenInv;
    assert forall n :: TokenAt(s, Held(n)) ==> TokenAt(s', Held(n));
    StaysAt(s, a, s', a');
  }

  lemma GetTrapped(s: State, a: Account, d: NodeId, x: NodeId, a': Account, z: Zone)
    requires Enabled(s, DeliverGet(d, x)) && Inv(s, a) && Inv(Step(s, DeliverGet(d, x)), a') && Trapped(s, a, z)
    ensures Trapped(Step(s, DeliverGet(d, x)), a', z)
  {
    hide Trap, ViewOf, ListOk, MailOk, ShapeInv, TokenInv, ClaimInv;
    var s', m := Step(s, DeliverGet(d, x)), GetLock(d, x, Write);
    Facts(s, d);
    PlaceIs(s, a, Moving(d, x));
    assert HasClaim(s, d, Granted(x));
    OneClaim(s, a, d, Granted(x), Granted(x));
    var p' := s.pages[d].(haveToken := d, signalled := true);
    assert s' == Put(s, d, p', s.net - multiset{m});
    NoStuck(s, d);
    PlaceIs(s', a', Held(d));
    ArrivalViewed(s, d, x, p');
    NodesViewed(s, d);
    ArrivalKeepsTrap(ViewOf(s, d), z, d);
  }

  lemma NoStuck(s: State, d: NodeId)
    requires ShapeInv(s) && d in s.pages && Pending(s, d)
    ensures s.pages[d].waiting && s.pages[d].mode == Writing
  {
    assert PageOk(s.pages.Keys, d, s.pages[d]);
  }

  lemma StepKeepsTrap(s: State, a: Account, e: Event, a': Account, z: Zone)
    requires Enabled(s, e) && Inv(s, a) && Inv(Step(s, e), a') && Trapped(s, a, z)
    ensures Trapped(Step(s, e), a', z)
  {
    hide Inv, Enabled, Step, Trapped;
    match e
    case CallAsk(n) => CallTrapped(s, a, n, a', z);
    case CallResume(n) => ResumeTrapped(s, a, n, a', z);
    case CallUnlock(n) => UnlockTrapped(s, a, n, a', z);
    case DeliverAsk(d, i) => AskTrapped(s, a, d, i, a', z);
    case DeliverGet(d, x) => GetTrapped(s, a, d, x, a', z);
  }
}
