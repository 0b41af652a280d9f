/**
 Write-only runs: one token, one claim for each blocked caller, and therefore at most one
 node between `ask_lock` and `unlock`.
 */
module LockExclusion {
  import opened Nodes
  import opened PageLock
  import opened LockMachine

  datatype Place = Held(n: NodeId) | Moving(n: NodeId, sender: NodeId)

  /** Where the request of a blocked caller is. */
  datatype Claim = Asking(at: NodeId) | Listed(at: NodeId) | Granted(sender: NodeId)

  datatype Account = Account(place: Place, why: map<NodeId, Claim>)

  /** A node has the token if it names itself and does not wait, or waits and was signalled. A
      waiting node that names itself without a signal does not have it. */
  predicate TokenAt(s: State, p: Place) {
    match p
    case Held(n) => n in s.pages && if s.pages[n].waiting then s.pages[n].signalled else s.pages[n].haveToken == n
    case Moving(n, x) => GetLock(n, x, Write) in s.net
  }

  predicate HasClaim(s: State, n: NodeId, c: Claim) {
    match c
    case Asking(d) => AskLock(d, n, Write) in s.net
    case Listed(m) => m in s.pages && Request(n, Write) in s.pages[m].requests
    case Granted(x) => GetLock(n, x, Write) in s.net
  }

  predicate Pending(s: State, n: NodeId) {
    n in s.pages && Blocked(s.pages[n]) && !s.pages[n].signalled
  }

  predicate Addressed(nodes: set<NodeId>, m: Message) {
    match m
    case AskLock(d, i, t) => d in nodes && i in nodes && t == Write
    case GetLock(d, x, t) => d in nodes && t == Write
    case UnlockPage(_, _) => false
  }

  /** No message is in flight twice. */
  predicate MailOk(nodes: set<NodeId>, net: multiset<Message>) {
    forall m :: m in net ==> Addressed(nodes, m) && net[m] == 1
  }

  /** The list holds each writer once. */
  predicate ListOk(nodes: set<NodeId>, rs: seq<Request>) {
    && (forall i :: 0 <= i < |rs| ==> rs[i].mode == Write && rs[i].who in nodes)
    && (forall i, j :: 0 <= i < j < |rs| ==> rs[i] != rs[j])
  }

  predicate PageOk(nodes: set<NodeId>, n: NodeId, p: Page) {
    && p.mode != Reading && p.haveToken in nodes && ListOk(nodes, p.requests)
    && !p.stuck && (p.waiting ==> p.mode == Writing)
    && (p.mode == Unlocked && p.haveToken == n ==> p.requests == [])
    && (p.signalled ==> p.waiting && p.haveToken == n)
    && (p.mode == Writing && !p.waiting ==> p.haveToken == n)
  }

  ghost predicate ShapeInv(s: State) {
    && EmptyNode !in s.pages && MailOk(s.pages.Keys, s.net)
    && (forall n {:trigger s.pages[n]} :: n in s.pages ==> PageOk(s.pages.Keys, n, s.pages[n]))
  }

  ghost predicate TokenInv(s: State, a: Account) {
    forall p :: TokenAt(s, p) <==> p == a.place
  }

  ghost predicate ClaimInv(s: State, a: Account) {
    && (forall n :: n in a.why <==> Pending(s, n))
    && (forall n, c :: HasClaim(s, n, c) <==> n in a.why && a.why[n] == c)
  }

  ghost predicate Inv(s: State, a: Account) {
    ShapeInv(s) && TokenInv(s, a) && ClaimInv(s, a)
  }

  // --- What each kind of change does to the claims.

  lemma ClaimsKept(s: State, a: Account, n: NodeId, p: Page)
    requires ClaimInv(s, a) && n in s.pages && p.requests == s.pages[n].requests
    requires Blocked(p) && !p.signalled <==> Pending(s, n)
    ensures ClaimInv(Put(s, n, p, s.net), a)
  {
    assert forall m, c :: HasClaim(Put(s, n, p, s.net), m, c) <==> HasClaim(s, m, c);
  }

  lemma ClaimAsked(s: State, a: Account, n: NodeId, p: Page, f: NodeId)
    requires ClaimInv(s, a) && n in s.pages && p.requests == s.pages[n].requests
    requires !Pending(s, n) && p.waiting && !p.signalled
    ensures ClaimInv(Put(s, n, p, s.net + multiset{AskLock(f, n, Write)}), a.(why := a.why[n := Asking(f)]))
  {
    var s' := Put(s, n, p, s.net + multiset{AskLock(f, n, Write)});
    assert forall m, c :: HasClaim(s', m, c) <==> HasClaim(s, m, c) || (m == n && c == Asking(f));
  }

  lemma ClaimListed(s: State, a: Account, d: NodeId, i: NodeId, p: Page)
    requires ClaimInv(s, a) && d in s.pages && s.net[AskLock(d, i, Write)] == 1
    requires p.requests == Add(s.pages[d].requests, i, Write)
    requires p.stuck == s.pages[d].stuck && p.waiting == s.pages[d].waiting && p.signalled == s.pages[d].signalled
    ensures ClaimInv(Put(s, d, p, s.net - multiset{AskLock(d, i, Write)}), a.(why := a.why[i := Listed(d)]))
  {
    var s' := Put(s, d, p, s.net - multiset{AskLock(d, i, Write)});
    assert HasClaim(s, i, Asking(d));
    forall m, c ensures HasClaim(s', m, c) <==> if m == i then c == Listed(d) else HasClaim(s, m, c) {
      if m == i { assert HasClaim(s, m, c) ==> c == Asking(d); }
    }
  }

  lemma ClaimForwarded(s: State, a: Account, d: NodeId, i: NodeId, p: Page, f: NodeId)
    requires ClaimInv(s, a) && d in s.pages && s.net[AskLock(d, i, Write)] == 1
    requires p.requests == s.pages[d].requests
    requires p.stuck == s.pages[d].stuck && p.waiting == s.pages[d].waiting && p.signalled == s.pages[d].signalled
    ensures ClaimInv(Put(s, d, p, s.net - multiset{AskLock(d, i, Write)} + multiset{AskLock(f, i, Write)}),
                     a.(why := a.why[i := Asking(f)]))
  {
    var s' := Put(s, d, p, s.net - multiset{AskLock(d, i, Write)} + multiset{AskLock(f, i, Write)});
    assert HasClaim(s, i, Asking(d));
    forall m, c ensures HasClaim(s', m, c) <==> if m == i then c == Asking(f) else HasClaim(s, m, c) {
      if m == i { assert HasClaim(s, m, c) ==> c == Asking(d); }
    }
  }

  lemma ClaimGranted(s: State, a: Account, d: NodeId, i: NodeId, p: Page)
    requires ClaimInv(s, a) && d in s.pages && s.net[AskLock(d, i, Write)] == 1
    requires p.requests == s.pages[d].requests
    requires p.stuck == s.pages[d].stuck && p.waiting == s.pages[d].waiting && p.signalled == s.pages[d].signalled
    ensures ClaimInv(Put(s, d, p, s.net - multiset{AskLock(d, i, Write)} + multiset{GetLock(i, d, Write)}),
                     a.(why := a.why[i := Granted(d)]))
  {
    var s' := Put(s, d, p, s.net - multiset{AskLock(d, i, Write)} + multiset{GetLock(i, d, Write)});
    assert HasClaim(s, i, Asking(d));
    forall m, c ensures HasClaim(s', m, c) <==> if m == i then c == Granted(d) else HasClaim(s, m, c) {
      if m == i { assert HasClaim(s, m, c) ==> c == Asking(d); }
    }
  }

  lemma ClaimPromoted(s: State, a: Account, n: NodeId, p: Page)
    requires ClaimInv(s, a) && n in s.pages && ListOk(s.pages.Keys, s.pages[n].requests) && s.pages[n].requests != []
    requires p.requests == s.pages[n].requests[1..] && !Pending(s, n) && !p.stuck && !p.waiting
    ensures var x := s.pages[n].requests[0].who;
      ClaimInv(Put(s, n, p, s.net + multiset{GetLock(x, n, Write)}), a.(why := a.why[x := Granted(n)]))
  {
    var rs := s.pages[n].requests;
    var x := rs[0].who;
    var s' := Put(s, n, p, s.net + multiset{GetLock(x, n, Write)});
    assert rs[0] == Request(x, Write) && HasClaim(s, x, Listed(n));
    assert rs == [rs[0]] + rs[1..];
    assert Request(x, Write) !in rs[1..];
    forall m, c ensures HasClaim(s', m, c) <==> if m == x then c == Granted(n) else HasClaim(s, m, c) {
      if m == x { assert HasClaim(s, m, c) ==> c == Listed(n); }
    }
  }

  lemma ClaimServed(s: State, a: Account, d: NodeId, x: NodeId, p: Page)
    requires ClaimInv(s, a) && d in s.pages && s.net[GetLock(d, x, Write)] == 1 && p.requests == s.pages[d].requests
    requires p.waiting && p.signalled && !p.stuck
    ensures ClaimInv(Put(s, d, p, s.net - multiset{GetLock(d, x, Write)}), a.(why := a.why - {d}))
  {
    var s' := Put(s, d, p, s.net - multiset{GetLock(d, x, Write)});
    assert HasClaim(s, d, Granted(x));
    forall m, c ensures HasClaim(s', m, c) <==> HasClaim(s, m, c) && m != d {
      if m == d { assert HasClaim(s, m, c) ==> c == Granted(x); }
    }
  }

  // --- What each kind of change does to the shape and to the token.

  lemma ShapeChanged(s: State, n: NodeId, p: Page, net: multiset<Message>)
    requires ShapeInv(s) && n in s.pages && PageOk(s.pages.Keys, n, p) && MailOk(s.pages.Keys, net)
    ensures ShapeInv(Put(s, n, p, net))
  {
    hide PageOk, MailOk;
    var s' := Put(s, n, p, net);
    assert s'.pages.Keys == s.pages.Keys;
    forall k {:trigger s'.pages[k]} | k in s'.pages ensures PageOk(s'.pages.Keys, k, s'.pages[k]) {
      assert PageOk(s.pages.Keys, k, s'.pages[k]);
    }
  }

  lemma MailTaken(nodes: set<NodeId>, net: multiset<Message>, m: Message)
    requires MailOk(nodes, net) && m in net
    ensures MailOk(nodes, net - multiset{m}) && m !in net - multiset{m} && Addressed(nodes, m) && net[m] == 1
  {}

  lemma MailSent(nodes: set<NodeId>, net: multiset<Message>, m: Message)
    requires MailOk(nodes, net) && m !in net && Addressed(nodes, m)
    ensures MailOk(nodes, net + multiset{m})
  {}

  ghost predicate SameGrants(a: multiset<Message>, b: multiset<Message>) {
    forall n, x :: GetLock(n, x, Write) in a <==> GetLock(n, x, Write) in b
  }

  lemma TokenKept(s: State, a: Account, why: map<NodeId, Claim>, n: NodeId, p: Page, net: multiset<Message>)
    requires TokenInv(s, a) && n in s.pages && SameGrants(s.net, net)
    requires (if p.waiting then p.signalled else p.haveToken == n) <==> TokenAt(s, Held(n))
    ensures TokenInv(Put(s, n, p, net), a.(why := why))
  {
    assert forall q :: TokenAt(Put(s, n, p, net), q) <==> TokenAt(s, q);
  }

  lemma TokenSent(s: State, a: Account, why: map<NodeId, Claim>, n: NodeId, p: Page, x: NodeId, net: multiset<Message>)
    requires TokenInv(s, a) && n in s.pages && TokenAt(s, Held(n)) && !p.waiting && p.haveToken != n
    requires SameGrants(s.net, net)
    ensures TokenInv(Put(s, n, p, net + multiset{GetLock(x, n, Write)}), Account(Moving(x, n), why))
  {
    var s' := Put(s, n, p, net + multiset{GetLock(x, n, Write)});
    forall q ensures TokenAt(s', q) <==> q == Moving(x, n) {
      assert TokenAt(s, q) <==> q == Held(n);
    }
  }

  lemma TokenArrived(s: State, a: Account, why: map<NodeId, Claim>, n: NodeId, p: Page, x: NodeId)
    requires TokenInv(s, a) && n in s.pages && s.net[GetLock(n, x, Write)] == 1 && p.waiting && p.signalled
    ensures TokenInv(Put(s, n, p, s.net - multiset{GetLock(n, x, Write)}), Account(Held(n), why))
  {
    var s' := Put(s, n, p, s.net - multiset{GetLock(n, x, Write)});
    assert TokenAt(s, Moving(n, x));
    forall q ensures TokenAt(s', q) <==> q == Held(n) {
      assert TokenAt(s, q) <==> q == Moving(n, x);
    }
  }

  // --- Every step keeps the invariant.

  lemma NoClaim(s: State, a: Account, n: NodeId)
    requires ClaimInv(s, a) && !Pending(s, n)
    ensures forall c :: !HasClaim(s, n, c)
  {}

  lemma AddKeepsList(s: State, a: Account, d: NodeId, n: NodeId)
    requires d in s.pages && n in s.pages && ListOk(s.pages.Keys, s.pages[d].requests) && !HasClaim(s, n, Listed(d))
    ensures ListOk(s.pages.Keys, Add(s.pages[d].requests, n, Write))
  {
    var rs := s.pages[d].requests;
    assert forall i :: 0 <= i < |rs| ==> rs[i] in rs && rs[i] != Request(n, Write);
  }

  lemma {:induction false} LastWriterOfWriters(nodes: set<NodeId>, rs: seq<Request>)
    requires ListOk(nodes, rs)
    ensures rs == [] ==> LastWriter(rs) == EmptyNode
    ensures rs != [] ==> LastWriter(rs) in nodes && LastWriter(rs) == rs[|rs| - 1].who
  {}

  lemma Facts(s: State, n: NodeId)
    requires ShapeInv(s) && n in s.pages
    ensures PageOk(s.pages.Keys, n, s.pages[n]) && EmptyNode !in s.pages && MailOk(s.pages.Keys, s.net)
  {}

  lemma AskKeepsInv(s: State, a: Account, n: NodeId) returns (a': Account)
    requires Inv(s, a) && Enabled(s, CallAsk(n))
    ensures Inv(Step(s, CallAsk(n)), a')
  {
    hide TokenInv, ClaimInv, ShapeInv, MailOk, ListOk;
    var s', p := Step(s, CallAsk(n)), s.pages[n];
    Facts(s, n);
    assert !Pending(s, n);
    NoClaim(s, a, n);
    if p.mode != Unlocked || (p.haveToken == n && p.requests == []) {
      var p' := p.(mode := Writing);
      assert s' == Put(s, n, p', s.net);
      ShapeChanged(s, n, p', s.net);
      a' := a;
      ClaimsKept(s, a, n, p');
      TokenKept(s, a, a.why, n, p', s.net);
    } else {
      var p' := p.(mode := Writing, waiting := true);
      var m := AskLock(p.haveToken, n, Write);
      assert s' == Put(s, n, p', s.net + multiset{m});
      assert !HasClaim(s, n, Asking(p.haveToken));
      a' := a.(why := a.why[n := Asking(p.haveToken)]);
      MailSent(s.pages.Keys, s.net, m);
      ShapeChanged(s, n, p', s.net + multiset{m});
      ClaimAsked(s, a, n, p', p.haveToken);
      TokenKept(s, a, a'.why, n, p', s.net + multiset{m});
    }
  }

  lemma ResumeKeepsInv(s: State, a: Account, n: NodeId)
    requires Inv(s, a) && Enabled(s, CallResume(n))
    ensures Inv(Step(s, CallResume(n)), a)
  {
    hide TokenInv, ClaimInv, ShapeInv, MailOk, ListOk;
    var s', p := Step(s, CallResume(n)), Resume(s.pages[n]);
    Facts(s, n);
    assert s' == Put(s, n, p, s.net);
    ShapeChanged(s, n, p, s.net);
    ClaimsKept(s, a, n, p);
    TokenKept(s, a, a.why, n, p, s.net);
  }

  lemma PromoteKeepsInv(s: State, a: Account, n: NodeId, x: NodeId, p: Page) returns (a': Account)
    requires n in s.pages && s.pages[n].requests != [] && x == s.pages[n].requests[0].who
    requires Holds(s.pages[n]) && p == s.pages[n].(mode := Unlocked, haveToken := x, requests := s.pages[n].requests[1..])
    requires Inv(s, a)
    ensures Inv(Put(s, n, p, s.net + multiset{GetLock(x, n, Write)}), a')
  {
    hide TokenInv, ClaimInv, ShapeInv, MailOk;
    var m := GetLock(x, n, Write);
    Facts(s, n);
    NoClaim(s, a, n);
    assert s.pages[n].requests[0] == Request(x, Write);
    assert HasClaim(s, x, Listed(n));
    OneClaim(s, a, x, Listed(n), Granted(n));
    a' := Account(Moving(x, n), a.why[x := Granted(n)]);
    ClaimPromoted(s, a, n, p);
    TokenSent(s, a, a'.why, n, p, x, s.net);
    SameClaims(Put(s, n, p, s.net + multiset{m}), a.(why := a'.why), a');
    MailSent(s.pages.Keys, s.net, m);
    ShapeChanged(s, n, p, s.net + multiset{m});
  }

  lemma UnlockKeepsInv(s: State, a: Account, n: NodeId) returns (a': Account)
    requires Inv(s, a) && Enabled(s, CallUnlock(n))
    ensures Inv(Step(s, CallUnlock(n)), a')
  {
    hide TokenInv, ClaimInv, ShapeInv, MailOk;
    var s', p := Step(s, CallUnlock(n)), s.pages[n];
    Facts(s, n);
    if p.requests == [] {
      var p' := p.(mode := Unlocked);
      assert s' == Put(s, n, p', s.net);
      a' := a;
      ShapeChanged(s, n, p', s.net);
      ClaimsKept(s, a, n, p');
      TokenKept(s, a, a.why, n, p', s.net);
    } else {
      var x := p.requests[0].who;
      var p' := p.(mode := Unlocked, haveToken := x, requests := p.requests[1..]);
      assert s' == Put(s, n, p', s.net + multiset{GetLock(x, n, Write)});
      a' := PromoteKeepsInv(s, a, n, x, p');
    }
  }

  lemma OneClaim(s: State, a: Account, n: NodeId, c: Claim, d: Claim)
    requires ClaimInv(s, a) && HasClaim(s, n, c)
    ensures HasClaim(s, n, d) ==> d == c
    ensures Pending(s, n)
  {}

  lemma SameClaims(s: State, a: Account, b: Account)
    requires ClaimInv(s, a) && a.why == b.why
    ensures ClaimInv(s, b)
  {}

  /** The request is forwarded to `f`; `p` is the page afterwards. */
  lemma ForwardKeepsInv(s: State, a: Account, d: NodeId, i: NodeId, p: Page, f: NodeId) returns (a': Account)
    requires Inv(s, a) && d in s.pages && AskLock(d, i, Write) in s.net && f in s.pages
    requires p == s.pages[d] || (p == s.pages[d].(haveToken := i) && s.pages[d].haveToken != d)
    ensures Inv(Put(s, d, p, s.net - multiset{AskLock(d, i, Write)} + multiset{AskLock(f, i, Write)}), a')
  {
    hide TokenInv, ClaimInv, ShapeInv, MailOk, ListOk;
    var m, m' := AskLock(d, i, Write), AskLock(f, i, Write);
    var net := s.net - multiset{m} + multiset{m'};
    Facts(s, d);
    MailTaken(s.pages.Keys, s.net, m);
    a' := a.(why := a.why[i := Asking(f)]);
    ClaimForwarded(s, a, d, i, p, f);
    assert HasClaim(s, i, Asking(d));
    OneClaim(s, a, i, Asking(d), Asking(f));
    TokenKept(s, a, a'.why, d, p, net);
    ForwardKeepsShape(s, d, i, p, f);
  }

  lemma ForwardKeepsShape(s: State, d: NodeId, i: NodeId, p: Page, f: NodeId)
    requires ShapeInv(s) && d in s.pages && i in s.pages && PageOk(s.pages.Keys, d, p) && f in s.pages
    requires AskLock(d, i, Write) in s.net && (AskLock(f, i, Write) in s.net ==> f == d)
    ensures ShapeInv(Put(s, d, p, s.net - multiset{AskLock(d, i, Write)} + multiset{AskLock(f, i, Write)}))
  {
    hide ShapeInv, PageOk, MailOk;
    var m, m' := AskLock(d, i, Write), AskLock(f, i, Write);
    Facts(s, d);
    MailTaken(s.pages.Keys, s.net, m);
    if f == d {
      assert s.net - multiset{m} + multiset{m'} == s.net;
      ShapeChanged(s, d, p, s.net);
    } else {
      MailSent(s.pages.Keys, s.net - multiset{m}, m');
      ShapeChanged(s, d, p, s.net - multiset{m} + multiset{m'});
    }
  }

  lemma ListKeepsInv(s: State, a: Account, d: NodeId, i: NodeId) returns (a': Account)
    requires d in s.pages && (s.pages[d].mode == Unlocked ==> s.pages[d].haveToken != d)
    requires Inv(s, a) && AskLock(d, i, Write) in s.net
    ensures var p := s.pages[d].(requests := Add(s.pages[d].requests, i, Write));
      Inv(Put(s, d, p, s.net - multiset{AskLock(d, i, Write)}), a')
  {
    hide TokenInv, ClaimInv, ShapeInv, MailOk, ListOk;
    var m := AskLock(d, i, Write);
    var p := s.pages[d].(requests := Add(s.pages[d].requests, i, Write));
    var net := s.net - multiset{m};
    Facts(s, d);
    MailTaken(s.pages.Keys, s.net, m);
    assert HasClaim(s, i, Asking(d));
    OneClaim(s, a, i, Asking(d), Listed(d));
    AddKeepsList(s, a, d, i);
    a' := a.(why := a.why[i := Listed(d)]);
    ClaimListed(s, a, d, i, p);
    TokenKept(s, a, a'.why, d, p, net);
    ShapeChanged(s, d, p, net);
  }

  lemma GrantKeepsInv(s: State, a: Account, d: NodeId, i: NodeId) returns (a': Account)
    requires Inv(s, a) && d in s.pages && AskLock(d, i, Write) in s.net
    requires s.pages[d].haveToken == d && s.pages[d].mode == Unlocked
    ensures Inv(Put(s, d, s.pages[d].(haveToken := i), s.net - multiset{AskLock(d, i, Write)} + multiset{GetLock(i, d, Write)}), a')
  {
    hide TokenInv, ClaimInv, ShapeInv, MailOk, ListOk;
    var m, m' := AskLock(d, i, Write), GetLock(i, d, Write);
    var p := s.pages[d].(haveToken := i);
    var net := s.net - multiset{m};
    Facts(s, d);
    MailTaken(s.pages.Keys, s.net, m);
    assert HasClaim(s, i, Asking(d));
    OneClaim(s, a, i, Asking(d), Granted(d));
    a' := Account(Moving(i, d), a.why[i := Granted(d)]);
    ClaimGranted(s, a, d, i, p);
    TokenSent(s, a, a'.why, d, p, i, net);
    MailSent(s.pages.Keys, net, m');
    ShapeChanged(s, d, p, net + multiset{m'});
    SameClaims(Put(s, d, p, net + multiset{m'}), a.(why := a'.why), a');
  }

  lemma DeliverAskKeepsInv(s: State, a: Account, d: NodeId, i: NodeId) returns (a': Account)
    requires Inv(s, a) && Enabled(s, DeliverAsk(d, i))
    ensures Inv(Step(s, DeliverAsk(d, i)), a')
  {
    hide TokenInv, ClaimInv, ShapeInv, MailOk, ListOk;
    var s', p := Step(s, DeliverAsk(d, i)), s.pages[d];
    var m := AskLock(d, i, Write);
    Facts(s, d);
    var last := LastWriter(p.requests);
    LastWriterOfWriters(s.pages.Keys, p.requests);
    if last == d || (last == EmptyNode && p.haveToken == d && p.mode != Unlocked) {
      assert s' == Put(s, d, p.(requests := Add(p.requests, i, Write)), s.net - multiset{m});
      a' := ListKeepsInv(s, a, d, i);
    } else if last != EmptyNode {
      assert s' == Put(s, d, p, s.net - multiset{m} + multiset{AskLock(last, i, Write)});
      a' := ForwardKeepsInv(s, a, d, i, p, last);
    } else if p.haveToken != d {
      assert s' == Put(s, d, p.(haveToken := i), s.net - multiset{m} + multiset{AskLock(p.haveToken, i, Write)});
      a' := ForwardKeepsInv(s, a, d, i, p.(haveToken := i), p.haveToken);
    } else {
      assert s' == Put(s, d, p.(haveToken := i), s.net - multiset{m} + multiset{GetLock(i, d, Write)});
      a' := GrantKeepsInv(s, a, d, i);
    }
  }

  lemma DeliverGetKeepsInv(s: State, a: Account, d: NodeId, x: NodeId) returns (a': Account)
    requires Inv(s, a) && Enabled(s, DeliverGet(d, x))
    ensures Inv(Step(s, DeliverGet(d, x)), a')
  {
    hide TokenInv, ClaimInv, ShapeInv, MailOk, ListOk;
    var s', p := Step(s, DeliverGet(d, x)), s.pages[d];
    var m := GetLock(d, x, Write);
    Facts(s, d);
    MailTaken(s.pages.Keys, s.net, m);
    assert HasClaim(s, d, Granted(x));
    OneClaim(s, a, d, Granted(x), Granted(x));
    OneToken(s, a, Moving(d, x), Held(d));
    var p' := p.(haveToken := d, signalled := true);
    assert s' == Put(s, d, p', s.net - multiset{m});
    a' := Account(Held(d), a.why - {d});
    ClaimServed(s, a, d, x, p');
    TokenArrived(s, a, a'.why, d, p', x);
    ShapeChanged(s, d, p', s.net - multiset{m});
    SameClaims(s', a.(why := a'.why), a');
  }

  lemma OneToken(s: State, a: Account, p: Place, q: Place)
    requires TokenInv(s, a) && TokenAt(s, p)
    ensures TokenAt(s, q) ==> q == p
  {}

  lemma StepKeepsInv(s: State, a: Account, e: Event) returns (a': Account)
    requires Inv(s, a) && Enabled(s, e)
    ensures Inv(Step(s, e), a')
  {
    hide Inv, Step;
    match e
    case CallAsk(n) => a' := AskKeepsInv(s, a, n);
    case CallResume(n) => a' := a; ResumeKeepsInv(s, a, n);
    case CallUnlock(n) => a' := UnlockKeepsInv(s, a, n);
    case DeliverAsk(d, i) => a' := DeliverAskKeepsInv(s, a, d, i);
    case DeliverGet(d, x) => a' := DeliverGetKeepsInv(s, a, d, x);
  }

  lemma InitInv(nodes: set<NodeId>, first: NodeId)
    requires EmptyNode !in nodes && first in nodes
    ensures Inv(Init(nodes, first), Account(Held(first), map[]))
  {}

  lemma {:induction false} RunKeepsInv(s: State, a: Account, es: seq<Event>) returns (a': Account)
    requires Inv(s, a) && IsRun(s, es)
    ensures Inv(After(s, es), a')
    decreases |es|
  {
    hide Inv;
    a' := a;
    if es != [] {
      a' := StepKeepsInv(s, a, es[0]);
      a' := RunKeepsInv(Step(s, es[0]), a', es[1..]);
    }
  }
}
