/**
 The page lock with readers and writers: which read grants a node sends, and the system of all
 nodes with both kinds of request.
 */
module MixedLock {
  import opened Nodes
  import opened PageLock
  import M = LockMachine

  // --- One page: who is granted what.

  predicate NoWriter(rs: seq<Request>) {
    forall k :: 0 <= k < |rs| ==> rs[k].mode == Read
  }

  /** The request at place `k` is a reader's, with no writer before it in the list. */
  predicate Leads(rs: seq<Request>, k: int) {
    0 <= k < |rs| && NoWriter(rs[..k + 1])
  }

  predicate NodesNamed(rs: seq<Request>) {
    forall r :: r in rs ==> r.who != EmptyNode
  }

  lemma {:induction false} LastWriterIff(rs: seq<Request>)
    requires NodesNamed(rs)
    ensures LastWriter(rs) == EmptyNode <==> NoWriter(rs)
  {
    if rs != [] {
      var k := |rs| - 1;
      assert rs[k] in rs;
      LastWriterIff(rs[..k]);
      assert rs == rs[..k] + [rs[k]];
    }
  }

  /** A request is granted by its handler: a reader at once by the node that has the token, is not
      writing and has no writer listed; a writer by the node that has the token, is idle and has an
      empty list. Nobody else is. */
  lemma AskGrantsIff(p: Page, me: NodeId, i: NodeId, t: LockType, x: NodeId)
    requires me != EmptyNode && NodesNamed(p.requests)
    ensures var sent := OnAsk(p, me, i, t).sent;
      && (GetLock(x, me, Read) in sent <==>
        x == i && t == Read && p.haveToken == me && p.mode != Writing && NoWriter(p.requests))
      && (GetLock(x, me, Write) in sent <==>
        x == i && t == Write && p.haveToken == me && p.mode == Unlocked && p.requests == [])
  {
    hide LastWriter, Add;
    LastWriterIff(p.requests);
  }

  lemma {:induction false} LeadsIff(rs: seq<Request>, k: int)
    ensures Leads(rs, k) <==> 0 <= k < ReaderCount(rs)
  {
    if k < 0 {
    } else if rs != [] && rs[0].mode == Read && k > 0 {
      LeadsIff(rs[1..], k - 1);
      if k < |rs| { assert rs[..k + 1] == [rs[0]] + rs[1..][..k]; }
    } else if k < |rs| && rs[0].mode == Write {
      assert rs[..k + 1][0] == rs[0];
    }
  }

  lemma {:induction false} GrantsIff(rs: seq<Request>, me: NodeId, x: NodeId)
    ensures GetLock(x, me, Read) in Grants(rs, me) <==> exists k :: 0 <= k < |rs| && rs[k].who == x
  {
    var g := Grants(rs, me);
    if k :| 0 <= k < |rs| && rs[k].who == x { assert g[k] == GetLock(x, me, Read); }
    if GetLock(x, me, Read) in g {
      var k :| 0 <= k < |g| && g[k] == GetLock(x, me, Read);
    }
  }

  /** The end of a writer's turn grants exactly the readers with no writer before them, once for
      each of their requests in list order, and nobody else; the end of a reader's turn grants no
      reader. */
  lemma UnlockGrantsIff(p: Page, me: NodeId, x: NodeId)
    requires p.mode != Unlocked
    ensures GetLock(x, me, Read) in Unlock(p, me).sent <==>
      p.mode == Writing && exists k :: Leads(p.requests, k) && p.requests[k].who == x
    ensures p.mode == Writing && Leads(p.requests, 0) ==>
      var sent := Unlock(p, me).sent;
      && (forall k :: 0 <= k < |sent| <==> Leads(p.requests, k))
      && (forall k :: 0 <= k < |sent| ==> sent[k] == GetLock(p.requests[k].who, me, Read))
  {
    hide LocalUnlock, Leads;
    forall k ensures Leads(p.requests, k) <==> 0 <= k < ReaderCount(p.requests) { LeadsIff(p.requests, k); }
    if p.mode == Reading {
      LocalUnlockGrants(p, me, me, x);
    } else if p.requests != [] && p.requests[0].mode == Read {
      LeadersGranted(p.requests, me, x);
    } else {
      NobodyLeads(p.requests);
    }
  }

  lemma LocalUnlockGrants(p: Page, me: NodeId, from: NodeId, x: NodeId)
    ensures GetLock(x, me, Read) !in LocalUnlock(p, me, from).sent
  {
    hide Remove;
  }

  lemma NobodyLeads(rs: seq<Request>)
    requires rs == [] || rs[0].mode == Write
    ensures forall k :: !Leads(rs, k)
  {
    forall k ensures !Leads(rs, k) { LeadsIff(rs, k); }
  }

  lemma LeadersGranted(rs: seq<Request>, me: NodeId, x: NodeId)
    ensures GetLock(x, me, Read) in Grants(LeadingReaders(rs), me) <==> exists k :: Leads(rs, k) && rs[k].who == x
  {
    hide Leads;
    var l := LeadingReaders(rs);
    GrantsIff(l, me, x);
    forall k ensures Leads(rs, k) <==> 0 <= k < |l| { LeadsIff(rs, k); }
    if k :| 0 <= k < |l| && l[k].who == x { assert Leads(rs, k) && rs[k].who == x; }
    if k :| Leads(rs, k) && rs[k].who == x { assert l[k].who == x; }
  }

  // --- All nodes, with readers and writers.

  datatype Event =
    | CallAsk(n: NodeId, t: LockType)
    | CallResume(n: NodeId)
    | CallUnlock(n: NodeId)
    | DeliverAsk(at: NodeId, initiator: NodeId, t: LockType)
    | DeliverGet(at: NodeId, sender: NodeId, t: LockType)
    | DeliverUnlock(at: NodeId, sender: NodeId)

  type State = M.State

  /** One caller on each node; it unlocks what it holds. */
  predicate Enabled(s: State, e: Event) {
    match e
    case CallAsk(n, _) => n in s.pages && !M.Blocked(s.pages[n])
    case CallResume(n) => n in s.pages && s.pages[n].waiting && s.pages[n].signalled
    case CallUnlock(n) => n in s.pages && s.pages[n].mode != Unlocked && !M.Blocked(s.pages[n])
    case DeliverAsk(at, i, t) => at in s.pages && AskLock(at, i, t) in s.net
    case DeliverGet(at, x, t) => at in s.pages && GetLock(at, x, t) in s.net
    case DeliverUnlock(at, x) => at in s.pages && UnlockPage(at, x) in s.net
  }

  function Actor(e: Event): NodeId {
    match e
    case CallAsk(n, _) => n
    case CallResume(n) => n
    case CallUnlock(n) => n
    case DeliverAsk(at, _, _) => at
    case DeliverGet(at, _, _) => at
    case DeliverUnlock(at, _) => at
  }

  function EffectOf(s: State, e: Event): Effect
    requires Enabled(s, e)
  {
    var p := s.pages[Actor(e)];
    match e
    case CallAsk(n, t) => Ask(p, n, t)
    case CallResume(_) => Effect(Resume(p), [])
    case CallUnlock(n) => Unlock(p, n)
    case DeliverAsk(at, i, t) => OnAsk(p, at, i, t)
    case DeliverGet(at, x, t) => Effect(OnGet(p, at, x, t), [])
    case DeliverUnlock(at, x) => OnUnlock(p, at, x)
  }

  function Taken(e: Event): multiset<Message> {
    match e
    case DeliverAsk(at, i, t) => multiset{AskLock(at, i, t)}
    case DeliverGet(at, x, t) => multiset{GetLock(at, x, t)}
    case DeliverUnlock(at, x) => multiset{UnlockPage(at, x)}
    case _ => multiset{}
  }

  function Step(s: State, e: Event): State
    requires Enabled(s, e)
  {
    M.Apply(s, Actor(e), Taken(e), EffectOf(s, e))
  }

  predicate IsRun(s: State, es: seq<Event>)
    decreases |es|
  {
    es == [] || (Enabled(s, es[0]) && IsRun(Step(s, es[0]), es[1..]))
  }

  function After(s: State, es: seq<Event>): State
    requires IsRun(s, es)
    decreases |es|
  {
    if es == [] then s else After(Step(s, es[0]), es[1..])
  }

  ghost predicate Reachable(s: State) {
    exists nodes, first, es :: EmptyNode !in nodes && first in nodes
      && IsRun(M.Init(nodes, first), es) && s == After(M.Init(nodes, first), es)
  }

  // --- No identifier is EMPTY_NODE.

  predicate MessageNamed(m: Message) {
    match m
    case AskLock(_, i, _) => i != EmptyNode
    case GetLock(_, x, _) => x != EmptyNode
    case UnlockPage(_, x) => x != EmptyNode
  }

  ghost predicate Named(s: State) {
    && EmptyNode !in s.pages
    && (forall n {:trigger s.pages[n]} :: n in s.pages ==> NodesNamed(s.pages[n].requests))
    && (forall m :: m in s.net ==> MessageNamed(m))
  }

  lemma {:induction false} RemoveNamed(rs: seq<Request>, who: NodeId)
    requires NodesNamed(rs)
    ensures NodesNamed(Remove(rs, who))
  {
    if rs != [] {
      assert rs[0] in rs && forall r :: r in rs[1..] ==> r in rs;
      RemoveNamed(rs[1..], who);
    }
  }

  lemma LocalNamed(p: Page, me: NodeId, from: NodeId)
    requires NodesNamed(p.requests)
    ensures NodesNamed(LocalUnlock(p, me, from).page.requests)
  {
    hide Remove;
    RemoveNamed(p.requests, from);
  }

  lemma PageNamed(s: State, e: Event)
    requires Enabled(s, e) && EmptyNode !in s.pages && NodesNamed(s.pages[Actor(e)].requests)
    requires e.DeliverAsk? ==> e.initiator != EmptyNode
    ensures NodesNamed(EffectOf(s, e).page.requests)
  {
    hide LastWriter, Grants, LeadingReaders, LocalUnlock, OnAsk;
    var p, n := s.pages[Actor(e)], Actor(e);
    match e
    case CallUnlock(_) => LocalNamed(p, n, n);
    case DeliverAsk(_, i, t) => AskIsNeverLost(p, n, i, t);
    case DeliverUnlock(_, x) => LocalNamed(p, n, x);
    case _ =>
  }

  lemma SentNamed(s: State, e: Event, m: Message)
    requires Enabled(s, e) && EmptyNode !in s.pages && m in EffectOf(s, e).sent
    requires e.DeliverAsk? ==> e.initiator != EmptyNode
    ensures MessageNamed(m)
  {
    hide LastWriter, LeadingReaders, Remove, Add;
  }

  lemma StepNamed(s: State, e: Event)
    requires Named(s) && Enabled(s, e)
    ensures Named(Step(s, e))
  {
    hide NodesNamed, EffectOf, MessageNamed;
    var s' := Step(s, e);
    InitiatorNamed(s, e);
    assert NodesNamed(s.pages[Actor(e)].requests);
    PageNamed(s, e);
    forall m | m in s'.net ensures MessageNamed(m) {
      if m in EffectOf(s, e).sent { SentNamed(s, e, m); }
    }
  }

  lemma InitiatorNamed(s: State, e: Event)
    requires Named(s) && Enabled(s, e)
    ensures (e.DeliverAsk? ==> e.initiator != EmptyNode) && Actor(e) in s.pages
  {
    if e.DeliverAsk? { assert MessageNamed(AskLock(e.at, e.initiator, e.t)); }
  }

  lemma {:induction false} RunNamed(s: State, es: seq<Event>)
    requires Named(s) && IsRun(s, es)
    ensures Named(After(s, es))
    decreases |es|
  {
    hide Named, Step, Enabled;
    if es != [] {
      StepNamed(s, es[0]);
      RunNamed(Step(s, es[0]), es[1..]);
    }
  }

  lemma ReachableNamed(s: State)
    requires Reachable(s)
    ensures Named(s)
  {
    hide IsRun, After;
    var nodes, first, es :| EmptyNode !in nodes && first in nodes
      && IsRun(M.Init(nodes, first), es) && s == After(M.Init(nodes, first), es);
    RunNamed(M.Init(nodes, first), es);
  }

  // --- Which steps grant.

  /** The step sends `m`. */
  predicate Sends(s: State, e: Event, m: Message)
    requires Enabled(s, e)
  {
    m in EffectOf(s, e).sent
  }

  /** In every run: a read grant leaves `d` exactly when a reader's request arrives there and `d`
      has the token, is not writing and has no writer listed, and at the end of a writer's turn at
      `d`, for a listed reader with no writer before it. */
  lemma ReadGrantIff(s: State, e: Event, d: NodeId, x: NodeId)
    requires Reachable(s) && Enabled(s, e) && Actor(e) == d
    ensures var p := s.pages[d]; Sends(s, e, GetLock(x, d, Read)) <==>
      || (e == DeliverAsk(d, x, Read) && p.haveToken == d && p.mode != Writing && NoWriter(p.requests))
      || (e == CallUnlock(d) && p.mode == Writing && exists k :: Leads(p.requests, k) && p.requests[k].who == x)
  {
    hide Reachable, NodesNamed, Leads, NoWriter, LastWriter, Unlock, OnAsk, LocalUnlock;
    ReachableNamed(s);
    var p := s.pages[d];
    match e
    case DeliverAsk(_, i, t) => AskGrantsIff(p, d, i, t, x);
    case CallUnlock(_) => UnlockGrantsIff(p, d, x);
    case DeliverUnlock(_, y) => LocalUnlockGrants(p, d, y, x);
    case _ =>
  }

  /** A node that is writing, or waits to, grants no reader before it unlocks. */
  lemma WriterGrantsNobody(s: State, e: Event, d: NodeId, x: NodeId)
    requires Reachable(s) && Enabled(s, e) && Actor(e) == d && s.pages[d].mode == Writing
    ensures Sends(s, e, GetLock(x, d, Read)) ==> e == CallUnlock(d)
  {
    hide Reachable, Sends, NoWriter, Leads;
    ReadGrantIff(s, e, d, x);
  }
}
