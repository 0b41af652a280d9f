/**
 Runs in which everybody reads: the list of the node that has the token is exactly the readers in
 the lock and those whose UNLOCK is on its way, and nobody waits for anybody.
 */
module ReadersOnly {
  import opened Nodes
  import opened PageLock
  import M = LockMachine
  import opened MixedLock

  predicate OnlyReads(es: seq<Event>) {
    forall e :: e in es && e.CallAsk? ==> e.t == Read
  }

  predicate MailOk(s: State, f: NodeId, m: Message) {
    match m
    case AskLock(d, i, t) => d == f && t == Read && i in s.pages && i != f
    case GetLock(d, x, t) => x == f && t == Read && d in s.pages && d != f
    case UnlockPage(d, x) => d == f && x in s.pages && x != f
  }

  /** What a waiting reader waits for: its request, the grant, or the signal it has not seen. */
  function Coming(s: State, f: NodeId, n: NodeId): nat
    requires n in s.pages
  {
    s.net[AskLock(f, n, Read)] + s.net[GetLock(n, f, Read)] + if s.pages[n].signalled then 1 else 0
  }

  /** How many requests of `n` the node `f` lists. */
  function Entries(s: State, f: NodeId, n: NodeId): nat
    requires f in s.pages
  {
    multiset(s.pages[f].requests)[Request(n, Read)]
  }

  ghost predicate NodeOk(s: State, f: NodeId, n: NodeId)
    requires n in s.pages && f in s.pages
  {
    var p := s.pages[n];
    && p.haveToken == f && !p.stuck && p.mode != Writing && (p.waiting ==> p.mode == Reading)
    && (n == f ==> !p.waiting) && (n != f ==> p.requests == [])
    && Coming(s, f, n) == (if p.waiting then 1 else 0)
    && Entries(s, f, n) + s.net[AskLock(f, n, Read)] == (if p.mode == Reading then 1 else 0) + s.net[UnlockPage(f, n)]
  }

  ghost predicate ReadInv(s: State, f: NodeId) {
    && f in s.pages && EmptyNode !in s.pages
    && (forall r :: r in s.pages[f].requests ==> r.mode == Read && r.who in s.pages)
    && (forall m :: m in s.net ==> MailOk(s, f, m))
    && (forall n {:trigger s.pages[n]} :: n in s.pages ==> NodeOk(s, f, n))
  }

  lemma NodeAt(s: State, f: NodeId, n: NodeId)
    requires ReadInv(s, f) && n in s.pages
    ensures NodeOk(s, f, n)
  {}

  /** The messages about `n` and its entries in the list of `f` are the same. */
  ghost predicate SameFor(s: State, t: State, f: NodeId, n: NodeId) {
    && f in s.pages && f in t.pages && Entries(t, f, n) == Entries(s, f, n)
    && t.net[AskLock(f, n, Read)] == s.net[AskLock(f, n, Read)] && t.net[GetLock(n, f, Read)] == s.net[GetLock(n, f, Read)]
    && t.net[UnlockPage(f, n)] == s.net[UnlockPage(f, n)]
  }

  /** Nothing that concerns `n` has changed. */
  lemma NodeKept(s: State, t: State, f: NodeId, n: NodeId)
    requires n in s.pages && f in s.pages && n in t.pages && f in t.pages && NodeOk(s, f, n)
    requires t.pages[n] == s.pages[n] || (n == f && t.pages[n] == s.pages[n].(requests := t.pages[n].requests))
    requires SameFor(s, t, f, n)
    ensures NodeOk(t, f, n)
  {}

  lemma {:induction false} RemoveOne(rs: seq<Request>, who: NodeId, k: NodeId)
    requires (forall r :: r in rs ==> r.mode == Read) && Request(who, Read) in rs
    ensures multiset(Remove(rs, who))[Request(k, Read)] == multiset(rs)[Request(k, Read)] - if k == who then 1 else 0
    ensures forall r :: r in Remove(rs, who) ==> r in rs
  {
    assert rs == [rs[0]] + rs[1..];
    assert rs[0] in rs && rs[0].mode == Read;
    if rs[0].who != who {
      RemoveOne(rs[1..], who, k);
    }
  }

  lemma NobodyWrites(s: State, f: NodeId)
    requires ReadInv(s, f)
    ensures NodesNamed(s.pages[f].requests) && NoWriter(s.pages[f].requests)
  {
    hide NodeOk;
    var rs := s.pages[f].requests;
    forall k | 0 <= k < |rs| ensures rs[k].mode == Read { assert rs[k] in rs; }
  }

  // --- Every event keeps this.

  /** The state with one page and the messages changed. */
  lemma Changed(s: State, f: NodeId, d: NodeId, p: Page, net: multiset<Message>, n: NodeId)
    requires ReadInv(s, f) && d in s.pages && n in s.pages
    requires d == f || p.requests == s.pages[d].requests
    requires forall r :: d == f && r in p.requests ==> r.mode == Read && r.who in s.pages
    requires forall m :: m in net ==> m in s.net || MailOk(s, f, m)
    requires NodeOk(M.Put(s, d, p, net), f, n) && (d == n || (d == f && p == s.pages[f].(requests := p.requests)))
    requires forall k :: k in s.pages && k != n ==> SameFor(s, M.Put(s, d, p, net), f, k)
    ensures ReadInv(M.Put(s, d, p, net), f)
  {
    hide NodeOk, SameFor;
    var t := M.Put(s, d, p, net);
    forall k {:trigger t.pages[k]} | k in t.pages ensures NodeOk(t, f, k) {
      NodeAt(s, f, k);
      if k != n { NodeKept(s, t, f, k); }
    }
    forall m | m in t.net ensures MailOk(t, f, m) { assert MailOk(s, f, m); }
  }

  lemma AskKeeps(s: State, f: NodeId, n: NodeId)
    requires ReadInv(s, f) && Enabled(s, CallAsk(n, Read))
    ensures ReadInv(Step(s, CallAsk(n, Read)), f)
  {
    hide ReadInv, NodeOk, MailOk, SameFor, Ask;
    InInv(s, f, n);
    var e := EffectOf(s, CallAsk(n, Read));
    var t := Step(s, CallAsk(n, Read));
    AskedNode(s, f, n);
    assert forall m :: m in t.net ==> m in s.net || m in e.sent;
    forall m | m in t.net ensures m in s.net || MailOk(s, f, m) { if m in e.sent { AskMail(s, f, n, m); } }
    forall r | n == f && r in e.page.requests ensures r.mode == Read && r.who in s.pages { AskList(s, f, n, r); }
    forall k | k in s.pages && k != n ensures SameFor(s, t, f, k) { AskRest(s, f, n, k); }
    Elsewhere(s, f, n);
    Changed(s, f, n, e.page, t.net, n);
  }

  lemma InInv(s: State, f: NodeId, n: NodeId)
    requires ReadInv(s, f)
    ensures f in s.pages && EmptyNode !in s.pages && (n in s.pages ==> NodeOk(s, f, n))
    ensures forall r :: r in s.pages[f].requests ==> r.mode == Read && r.who in s.pages
  {}

  lemma AskedNode(s: State, f: NodeId, n: NodeId)
    requires f in s.pages && Enabled(s, CallAsk(n, Read)) && NodeOk(s, f, n)
    ensures NodeOk(Step(s, CallAsk(n, Read)), f, n)
  {
    var p, t := s.pages[n], Step(s, CallAsk(n, Read));
    if p.mode != Unlocked {
      assert t.net == s.net;
    } else if n == f {
      AskedAtHome(s, f);
    } else {
      assert t == M.Put(s, n, p.(mode := Reading, waiting := true), s.net + multiset{AskLock(f, n, Read)}) by {
        assert t.net == s.net + multiset{AskLock(f, n, Read)};
      }
    }
  }

  lemma AskedAtHome(s: State, f: NodeId)
    requires f in s.pages && Enabled(s, CallAsk(f, Read)) && NodeOk(s, f, f) && s.pages[f].mode == Unlocked
    ensures NodeOk(Step(s, CallAsk(f, Read)), f, f)
  {
    var p, t := s.pages[f], Step(s, CallAsk(f, Read));
    assert t.net == s.net;
    assert multiset([Request(f, Read)] + p.requests) == multiset{Request(f, Read)} + multiset(p.requests);
  }

  lemma AskMail(s: State, f: NodeId, n: NodeId, m: Message)
    requires n in s.pages && f in s.pages && NodeOk(s, f, n) && m in Ask(s.pages[n], n, Read).sent
    ensures MailOk(s, f, m)
  {}

  lemma Elsewhere(s: State, f: NodeId, n: NodeId)
    requires n in s.pages && f in s.pages && NodeOk(s, f, n)
    ensures n == f || Ask(s.pages[n], n, Read).page.requests == s.pages[n].requests
  {}

  lemma AskList(s: State, f: NodeId, n: NodeId, r: Request)
    requires n in s.pages && r in Ask(s.pages[n], n, Read).page.requests
    ensures r in s.pages[n].requests || r == Request(n, Read)
  {}

  lemma AskRest(s: State, f: NodeId, n: NodeId, k: NodeId)
    requires f in s.pages && Enabled(s, CallAsk(n, Read)) && NodeOk(s, f, n) && k != n
    ensures SameFor(s, Step(s, CallAsk(n, Read)), f, k)
  {
    hide NodeOk, Ask;
    AskRequests(s.pages[n], n, k);
    AskSent(s.pages[n], n);
    NotSent(s.net, EffectOf(s, CallAsk(n, Read)).sent, f, k);
  }

  lemma AskSent(p: Page, n: NodeId)
    ensures forall m :: m in Ask(p, n, Read).sent ==> m.AskLock? && m.initiator == n
  {}

  lemma NotSent(net: multiset<Message>, sent: seq<Message>, f: NodeId, k: NodeId)
    requires AskLock(f, k, Read) !in sent && GetLock(k, f, Read) !in sent && UnlockPage(f, k) !in sent
    ensures var after := net - multiset{} + multiset(sent);
      && after[AskLock(f, k, Read)] == net[AskLock(f, k, Read)] && after[GetLock(k, f, Read)] == net[GetLock(k, f, Read)]
      && after[UnlockPage(f, k)] == net[UnlockPage(f, k)]
  {}

  lemma AskRequests(p: Page, n: NodeId, k: NodeId)
    requires k != n
    ensures multiset(Ask(p, n, Read).page.requests)[Request(k, Read)] == multiset(p.requests)[Request(k, Read)]
  {
    assert multiset([Request(n, Read)] + p.requests) == multiset{Request(n, Read)} + multiset(p.requests);
  }

  lemma ResumeKeeps(s: State, f: NodeId, n: NodeId)
    requires ReadInv(s, f) && Enabled(s, CallResume(n))
    ensures ReadInv(Step(s, CallResume(n)), f)
  {
    hide ReadInv, MailOk;
    InInv(s, f, n);
    var t := Step(s, CallResume(n));
    assert t.net == s.net;
    Changed(s, f, n, Resume(s.pages[n]), t.net, n);
  }

  lemma GetKeeps(s: State, f: NodeId, d: NodeId, x: NodeId, y: LockType)
    requires ReadInv(s, f) && Enabled(s, DeliverGet(d, x, y))
    ensures ReadInv(Step(s, DeliverGet(d, x, y)), f)
  {
    hide ReadInv;
    InInv(s, f, d);
    Mail(s, f, GetLock(d, x, y));
    var t := Step(s, DeliverGet(d, x, y));
    assert t.net == s.net - multiset{GetLock(d, f, Read)};
    Changed(s, f, d, OnGet(s.pages[d], d, f, Read), t.net, d);
  }

  lemma Mail(s: State, f: NodeId, m: Message)
    requires ReadInv(s, f) && m in s.net
    ensures MailOk(s, f, m)
  {}

  lemma DeliverAskKeeps(s: State, f: NodeId, d: NodeId, i: NodeId, y: LockType)
    requires ReadInv(s, f) && Enabled(s, DeliverAsk(d, i, y))
    ensures ReadInv(Step(s, DeliverAsk(d, i, y)), f)
    ensures Step(s, DeliverAsk(d, i, y)).net == s.net - multiset{AskLock(f, i, Read)} + multiset{GetLock(i, f, Read)}
  {
    hide ReadInv, LastWriter, NodesNamed, NoWriter;
    InInv(s, f, d);
    InInv(s, f, i);
    Mail(s, f, AskLock(d, i, y));
    NobodyWrites(s, f);
    LastWriterIff(s.pages[f].requests);
    var p := s.pages[f].(requests := [Request(i, Read)] + s.pages[f].requests);
    assert OnAsk(s.pages[f], f, i, Read) == Effect(p, [GetLock(i, f, Read)]);
    var net := s.net - multiset{AskLock(f, i, Read)} + multiset{GetLock(i, f, Read)};
    var t := M.Put(s, f, p, net);
    assert multiset(p.requests) == multiset{Request(i, Read)} + multiset(s.pages[f].requests);
    Changed(s, f, f, p, net, i);
  }

  lemma EndKeeps(s: State, f: NodeId, d: NodeId, x: NodeId)
    requires ReadInv(s, f) && Enabled(s, DeliverUnlock(d, x))
    ensures ReadInv(Step(s, DeliverUnlock(d, x)), f)
  {
    hide ReadInv, Remove, NodeOk;
    InInv(s, f, d);
    InInv(s, f, x);
    Mail(s, f, UnlockPage(d, x));
    var rs, net := s.pages[f].requests, s.net - multiset{UnlockPage(f, x)};
    EntryIsThere(s, f, x);
    RemoveOne(rs, x, x);
    Ended(s.pages[f], f, x);
    var p := s.pages[f].(requests := Remove(rs, x));
    assert s.pages[f].haveToken == f by { InInv(s, f, f); HomeFacts(s, f); }
    var t := M.Put(s, f, p, net);
    assert Step(s, DeliverUnlock(d, x)) == t by { assert Step(s, DeliverUnlock(d, x)).net == net; }
    forall k ensures Entries(t, f, k) == Entries(s, f, k) - if k == x then 1 else 0 { RemoveOne(rs, x, k); }
    EndedNode(s, t, f, x);
    Changed(s, f, f, p, net, x);
  }

  lemma EntryIsThere(s: State, f: NodeId, x: NodeId)
    requires f in s.pages && x in s.pages && NodeOk(s, f, x) && UnlockPage(f, x) in s.net
    ensures Request(x, Read) in s.pages[f].requests
  {
    assert Entries(s, f, x) >= 1;
  }

  lemma HomeFacts(s: State, f: NodeId)
    requires f in s.pages && NodeOk(s, f, f)
    ensures s.pages[f].haveToken == f && s.pages[f].mode != Writing && !M.Blocked(s.pages[f])
  {}

  lemma EndedNode(s: State, t: State, f: NodeId, x: NodeId)
    requires f in s.pages && x in s.pages && x != f && NodeOk(s, f, x) && f in t.pages && t.pages == s.pages[f := t.pages[f]]
    requires UnlockPage(f, x) in s.net && t.net == s.net - multiset{UnlockPage(f, x)} && Entries(t, f, x) == Entries(s, f, x) - 1
    ensures NodeOk(t, f, x)
  {}

  lemma Ended(p: Page, f: NodeId, x: NodeId)
    requires (forall r :: r in p.requests ==> r.mode == Read) && Request(x, Read) in p.requests
    ensures LocalUnlock(p, f, x) == Effect(p.(requests := Remove(p.requests, x)), [])
  {
    hide Remove;
    RemoveOne(p.requests, x, x);
    var rs := Remove(p.requests, x);
    if rs != [] { assert rs[0] in rs; }
  }

  lemma UnlockKeeps(s: State, f: NodeId, n: NodeId)
    requires ReadInv(s, f) && Enabled(s, CallUnlock(n))
    ensures ReadInv(Step(s, CallUnlock(n)), f)
  {
    hide ReadInv;
    if n == f {
      UnlockAtHome(s, f);
    } else {
      InInv(s, f, n);
      var t := Step(s, CallUnlock(n));
      assert t.net == s.net + multiset{UnlockPage(f, n)};
      Changed(s, f, n, s.pages[n].(mode := Unlocked), t.net, n);
    }
  }

  lemma UnlockAtHome(s: State, f: NodeId)
    requires ReadInv(s, f) && Enabled(s, CallUnlock(f))
    ensures ReadInv(Step(s, CallUnlock(f)), f)
  {
    hide ReadInv, Remove, NodeOk;
    InInv(s, f, f);
    HomeFacts(s, f);
    OwnEntry(s, f);
    var rs := s.pages[f].requests;
    Ended(s.pages[f], f, f);
    RemoveOne(rs, f, f);
    var p := s.pages[f].(requests := Remove(rs, f), mode := Unlocked);
    var t := M.Put(s, f, p, s.net);
    assert Step(s, CallUnlock(f)) == t by { assert Step(s, CallUnlock(f)).net == s.net; }
    forall k ensures Entries(t, f, k) == Entries(s, f, k) - if k == f then 1 else 0 { RemoveOne(rs, f, k); }
    HomeUnlocked(s, t, f);
    Changed(s, f, f, p, s.net, f);
  }

  lemma OwnEntry(s: State, f: NodeId)
    requires f in s.pages && NodeOk(s, f, f) && s.pages[f].mode == Reading
    ensures Request(f, Read) in s.pages[f].requests
  {
    assert Coming(s, f, f) == 0;
    assert Entries(s, f, f) >= 1;
  }

  lemma HomeUnlocked(s: State, t: State, f: NodeId)
    requires f in s.pages && f in t.pages && NodeOk(s, f, f) && s.pages[f].mode == Reading && t.net == s.net
    requires t.pages[f] == s.pages[f].(requests := t.pages[f].requests, mode := Unlocked) && Entries(t, f, f) == Entries(s, f, f) - 1
    ensures NodeOk(t, f, f)
  {}

  lemma StepKeeps(s: State, f: NodeId, e: Event)
    requires ReadInv(s, f) && Enabled(s, e) && (e.CallAsk? ==> e.t == Read)
    ensures ReadInv(Step(s, e), f)
  {
    hide ReadInv, Step, Enabled;
    match e
    case CallAsk(n, _) => AskKeeps(s, f, n);
    case CallResume(n) => ResumeKeeps(s, f, n);
    case CallUnlock(n) => UnlockKeeps(s, f, n);
    case DeliverAsk(d, i, y) => DeliverAskKeeps(s, f, d, i, y);
    case DeliverGet(d, x, y) => GetKeeps(s, f, d, x, y);
    case DeliverUnlock(d, x) => EndKeeps(s, f, d, x);
  }

  lemma {:induction false} RunKeeps(s: State, f: NodeId, es: seq<Event>)
    requires ReadInv(s, f) && IsRun(s, es) && OnlyReads(es)
    ensures ReadInv(After(s, es), f)
    decreases |es|
  {
    hide ReadInv, Step, Enabled;
    if es != [] {
      assert es[0] in es;
      StepKeeps(s, f, es[0]);
      RunKeeps(Step(s, es[0]), f, es[1..]);
    }
  }

  lemma InitInv(nodes: set<NodeId>, first: NodeId)
    requires EmptyNode !in nodes && first in nodes
    ensures ReadInv(M.Init(nodes, first), first)
  {}

  // --- What this means.

  /** `s` is the end of a run in which everybody reads. */
  ghost predicate ReadReachable(s: State, first: NodeId) {
    exists nodes, es :: EmptyNode !in nodes && first in nodes && OnlyReads(es)
      && IsRun(M.Init(nodes, first), es) && s == After(M.Init(nodes, first), es)
  }

  lemma ReadReachableInv(s: State, first: NodeId)
    requires ReadReachable(s, first)
    ensures ReadInv(s, first)
  {
    hide ReadInv, IsRun, After, OnlyReads;
    var nodes, es :| EmptyNode !in nodes && first in nodes && OnlyReads(es)
      && IsRun(M.Init(nodes, first), es) && s == After(M.Init(nodes, first), es);
    InitInv(nodes, first);
    RunKeeps(M.Init(nodes, first), first, es);
  }

  /** The node that has the token lists a reader once for its turn, from the delivery of its request
      to the delivery of its UNLOCK, and once for each earlier turn whose UNLOCK is still on its way;
      it lists nobody else. */
  lemma ListIsTheReaders(s: State, first: NodeId, n: NodeId)
    requires ReadReachable(s, first) && n in s.pages
    ensures first in s.pages && s.pages[n].haveToken == first
    ensures multiset(s.pages[first].requests)[Request(n, Read)] + s.net[AskLock(first, n, Read)] ==
      (if s.pages[n].mode == Reading then 1 else 0) + s.net[UnlockPage(first, n)]
    ensures forall r :: r in s.pages[first].requests ==> r.mode == Read && r.who in s.pages
  {
    hide ReadReachable, ReadInv;
    ReadReachableInv(s, first);
    InInv(s, first, n);
  }

  /** Nobody waits for anybody: a reader that has not got in yet has its request, the grant or the
      signal under way, exactly one of them; a delivered request is granted at once; and the next of
      these steps is possible. */
  lemma NobodyWaits(s: State, first: NodeId, n: NodeId)
    requires ReadReachable(s, first) && n in s.pages
    ensures s.net[AskLock(first, n, Read)] + s.net[GetLock(n, first, Read)] + (if s.pages[n].signalled then 1 else 0)
      == (if s.pages[n].waiting then 1 else 0)
    ensures s.pages[n].waiting ==>
      Enabled(s, DeliverAsk(first, n, Read)) || Enabled(s, DeliverGet(n, first, Read)) || Enabled(s, CallResume(n))
    ensures Enabled(s, DeliverAsk(first, n, Read)) ==> GetLock(n, first, Read) in Step(s, DeliverAsk(first, n, Read)).net
    ensures !s.pages[n].stuck
  {
    hide ReadReachable, ReadInv;
    ReadReachableInv(s, first);
    InInv(s, first, n);
    if Enabled(s, DeliverAsk(first, n, Read)) { DeliverAskKeeps(s, first, first, n, Read); }
  }

  /** When nobody is in the lock and no message travels the list is empty, so that a writer who asks
      is granted at once. */
  lemma NothingIsLeft(s: State, first: NodeId)
    requires ReadReachable(s, first) && s.net == multiset{} && forall n {:trigger s.pages[n]} :: n in s.pages ==> s.pages[n].mode == Unlocked
    ensures first in s.pages && s.pages[first].requests == []
  {
    hide ReadReachable, ReadInv;
    ReadReachableInv(s, first);
    InInv(s, first, first);
    var rs := s.pages[first].requests;
    if rs != [] {
      var n := rs[0].who;
      assert rs[0] == Request(n, Read) && rs[0] in rs;
      ListIsTheReaders(s, first, n);
    }
  }
}
