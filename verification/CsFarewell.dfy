/**
 A node that leaves: whom it makes the new root, what it does until LEAVE_CS arrives, and what
 becomes of the requests that still reach it.
 */
module CsFarewell {
  import opened Nodes
  import opened NaimiTrehel
  import opened CsMachine
  import opened CsToken
  import opened SpanningTree
  import opened CsTree
  import opened CsQueue
  import opened CsSoundness
  import opened CsTheorems
  import L = CsLimits

  // --- The new root.

  /** The node behind the leaver in the queue, or the given successor if there is none. */
  function Heir(q: seq<NodeId>, successor: NodeId): NodeId {
    if |q| > 1 then q[1] else successor
  }

  lemma LeaverHeadsQueue(s: State, n: NodeId, successor: NodeId) returns (q: seq<NodeId>)
    requires Inv(s) && Enabled(s, CallLeave(n, successor))
    ensures IsQueue(s, n, q)
    ensures EmptyNode !in s.sites && s.sites[n].next == if |q| > 1 then q[1] else EmptyNode
    ensures forall x :: x in q ==> x in s.sites
  {
    hide Inv, Holders, Receivers;
    var h: NodeId;
    h, q := QueueOf(s);
    HolderIs(s, n, h);
    assert |q| > 1 ==> s.sites[q[0]].next == q[1];
  }

  /** Who uses the critical section has the token. */
  lemma HolderIs(s: State, n: NodeId, h: NodeId)
    requires Inv(s) && n in s.sites && s.sites[n].users > 0 && h in Holders(s) + Receivers(s)
    ensures h == n && EmptyNode !in s.sites
  {
    hide TreeInv, QueueInv, ClaimInv;
    var b :| Sound(s, b);
    assert LocalOk(s.sites[n]) && TokenAt(s, Held(n));
    assert TokenAt(s, Held(h)) <==> b.account.place == Held(h);
    assert TokenAt(s, Moving(h)) <==> b.account.place == Moving(h);
  }

  /** What a departure that begins sends, and to whom: the node that is next in the queue becomes
      the new root, and whenever a node waits for the token that node is one that waits. */
  lemma NewRootIsNext(s: State, n: NodeId, successor: NodeId) returns (q: seq<NodeId>)
    requires Inv(s) && Enabled(s, CallLeave(n, successor))
    ensures IsQueue(s, n, q)
    ensures Step(s, CallLeave(n, successor)).net == s.net + multiset{NewRootCs(Heir(q, successor), n)}
    ensures Heir(q, successor) in s.sites && Heir(q, successor) != n
    ensures (exists m :: m != n && Requesting(s, m)) ==> Pending(s, Heir(q, successor))
  {
    hide Inv, FollowsNext, NoRequestInFlight;
    q := LeaverHeadsQueue(s, n, successor);
    assert FollowsNext(s, q);
    QueueStarts(s, q, n);
    if |q| > 1 {
      assert q[1] in q && q[0] != q[1];
      RequestersWait(s, q[1], n);
    }
    if m :| m != n && Requesting(s, m) { InQueue(q, m, n); }
    assert Exchange(s.net, multiset{}, [NewRootCs(Heir(q, successor), n)]) == s.net + multiset{NewRootCs(Heir(q, successor), n)};
  }

  lemma QueueStarts(s: State, q: seq<NodeId>, n: NodeId)
    requires FollowsNext(s, q)
    ensures |q| > 0
  {}

  lemma InQueue(q: seq<NodeId>, m: NodeId, n: NodeId)
    requires m in q && m != n && |q| > 0 && q[0] == n
    ensures |q| > 1
  {}

  lemma RequestersWait(s: State, m: NodeId, n: NodeId)
    requires Inv(s) && n in s.sites && s.sites[n].users > 0 && Requesting(s, m) && m != n
    ensures Pending(s, m)
  {
    hide TreeInv, QueueInv, ClaimInv;
    var b :| Sound(s, b);
    assert LocalOk(s.sites[n]) && LocalOk(s.sites[m]);
    assert TokenAt(s, Held(n)) && !TokenAt(s, Held(m));
  }

  /** The token it had goes to that node: when NEW_ROOT_CS arrives there, its blocked caller can go
      on at once. */
  lemma HeirCanGoOn(s: State, n: NodeId, successor: NodeId, q: seq<NodeId>, nodes: seq<NodeId>)
    requires Inv(s) && Enabled(s, CallLeave(n, successor)) && IsQueue(s, n, q)
    requires var t := Step(s, CallLeave(n, successor)); Enabled(t, DeliverNewRoot(Heir(q, successor), n, nodes))
    ensures var t := Step(s, CallLeave(n, successor));
      var u := Step(t, DeliverNewRoot(Heir(q, successor), n, nodes));
      && u.sites.Keys == {Heir(q, successor)} && u.sites[Heir(q, successor)].token
      && ((exists m :: m != n && Requesting(s, m)) ==> Enabled(u, CallWake(Heir(q, successor))))
  {
    hide Inv, FollowsNext, NoRequestInFlight, Exchange, Lists;
    assert FollowsNext(s, q);
    QueueStarts(s, q, n);
    if m :| m != n && Requesting(s, m) {
      InQueue(q, m, n);
      assert q[1] in q && q[0] != q[1];
      RequestersWait(s, q[1], n);
    }
  }

  // --- The leaver until it returns.

  /** `leavers` are the nodes inside `leave_CS`, with their variables. `strays` are REQUEST_CS
      messages to them from nodes that are still to be reset. */
  datatype Farewell = Farewell(core: State, leavers: map<NodeId, Site>, strays: multiset<Packet>)

  datatype Move =
    | Core(e: Event)
    | CallStale(n: NodeId)
    | DeliverStray(at: NodeId, requester: NodeId)
    | DeliverLeave(at: NodeId)
    | Return(at: NodeId)

  /** A node left behind may call `request_CS` while its father is a node that leaves. A leaver
      comes back only after it has returned. */
  predicate Possible(f: Farewell, m: Move) {
    match m
    case Core(e) => Enabled(f.core, e) && (e.Join? ==> e.n !in f.leavers)
    case CallStale(n) => n in f.core.stale && !f.core.stale[n].waiting && f.core.stale[n].father in f.leavers
    case DeliverStray(at, r) => at in f.leavers && f.leavers[at].leaving && RequestCs(at, r) in f.strays
    case DeliverLeave(at) => at in f.leavers && LeaveCs(at) in f.core.net
    case Return(at) => at in f.leavers && !f.leavers[at].leaving
  }

  function Next(f: Farewell, m: Move): Farewell
    requires Possible(f, m)
  {
    match m
    case Core(e) =>
      Farewell(
        Step(f.core, e),
        if e.CallLeave? then f.leavers[e.n := Depart(f.core.sites[e.n], e.n, e.successor).site] else f.leavers,
        f.strays)
    case CallStale(n) =>
      var e := Enter(f.core.stale[n], n);
      f.(core := f.core.(stale := f.core.stale[n := e.site]), strays := f.strays + multiset(e.sent))
    case DeliverStray(at, r) =>
      var e := OnRequest(f.leavers[at], r);
      Farewell(
        f.core.(net := f.core.net + multiset(e.sent)), f.leavers[at := e.site], f.strays - multiset{RequestCs(at, r)})
    case DeliverLeave(at) =>
      f.(core := f.core.(net := f.core.net - multiset{LeaveCs(at)}), leavers := f.leavers[at := OnLeave(f.leavers[at])])
    case Return(at) => f.(leavers := f.leavers - {at})
  }

  function Begin(first: NodeId): Farewell {
    Farewell(Init(first), map[], multiset{})
  }

  predicate IsFarewellRun(f: Farewell, ms: seq<Move>)
    decreases |ms|
  {
    ms == [] || (Possible(f, ms[0]) && IsFarewellRun(Next(f, ms[0]), ms[1..]))
  }

  function AfterMoves(f: Farewell, ms: seq<Move>): Farewell
    requires IsFarewellRun(f, ms)
    decreases |ms|
  {
    if ms == [] then f else AfterMoves(Next(f, ms[0]), ms[1..])
  }

  // --- What every move keeps.

  ghost predicate RootDue(s: State, l: NodeId) {
    exists r :: NewRootCs(r, l) in s.net
  }

  /** A leaver waits for LEAVE_CS exactly as long as NEW_ROOT_CS or LEAVE_CS is in flight for it. */
  ghost predicate LeaverOk(s: State, l: NodeId, t: Site) {
    && l !in s.sites && l !in s.stale
    && (t.leaving <==> RootDue(s, l) || LeaveCs(l) in s.net)
    && !(RootDue(s, l) && LeaveCs(l) in s.net) && s.net[LeaveCs(l)] <= 1
  }

  ghost predicate LeaversOk(f: Farewell) {
    && (forall l {:trigger f.leavers[l]} :: l in f.leavers ==> LeaverOk(f.core, l, f.leavers[l]))
    && (forall l :: LeaveCs(l) in f.core.net || RootDue(f.core, l) ==> l in f.leavers)
  }

  ghost predicate FarewellInv(f: Farewell) {
    Inv(f.core) && LeaversOk(f)
  }

  function Members(s: State): set<NodeId> {
    s.sites.Keys + s.stale.Keys
  }

  /** Who is a member after a step. */
  lemma MembersAfter(s: State, e: Event)
    requires Enabled(s, e)
    ensures Members(Step(s, e)) <= Members(s) + if e.Join? then {e.n} else {}
    ensures e.CallLeave? ==> e.n in s.sites && e.n !in Members(Step(s, e))
  {
    hide Exchange, Enter, Release, OnRequest, OnReset, OnNewRoot;
    if e.CallLeave? { assert Step(s, e).stale == s.sites - {e.n}; }
  }

  predicate FarewellMail(p: Packet) {
    p.NewRootCs? || p.LeaveCs?
  }

  /** Most steps leave the messages of departures alone. */
  lemma FarewellMailStays(s: State, e: Event, p: Packet)
    requires Enabled(s, e) && !e.CallLeave? && !e.DeliverNewRoot? && FarewellMail(p)
    ensures Step(s, e).net[p] == s.net[p]
  {
    hide Step, Enabled;
    if ProtocolEvent(e) {
      ProtocolMail(s, e);
    } else {
      OtherMailStays(s, e, p);
    }
  }

  lemma OtherMailStays(s: State, e: Event, p: Packet)
    requires Enabled(s, e) && (e.Join? || e.DeliverReset?) && FarewellMail(p)
    ensures Step(s, e).net[p] == s.net[p]
  {
    if e.DeliverReset? {
      var sent := OnReset(s.stale[e.at], e.at, e.root).sent;
      assert p !in sent;
    }
  }

  lemma LeaverStays(s: State, s': State, l: NodeId, t: Site)
    requires LeaverOk(s, l, t) && l !in Members(s')
    requires forall p :: FarewellMail(p) ==> s'.net[p] == s.net[p]
    ensures LeaverOk(s', l, t) && (RootDue(s', l) <==> RootDue(s, l))
  {
    SameDue(s, s', l);
    assert FarewellMail(LeaveCs(l));
  }

  lemma SameDue(s: State, s': State, l: NodeId)
    requires forall p :: FarewellMail(p) ==> s'.net[p] == s.net[p]
    ensures RootDue(s', l) <==> RootDue(s, l)
    ensures LeaveCs(l) in s'.net <==> LeaveCs(l) in s.net
  {
    forall r ensures NewRootCs(r, l) in s'.net <==> NewRootCs(r, l) in s.net { assert FarewellMail(NewRootCs(r, l)); }
    assert FarewellMail(LeaveCs(l));
  }

  lemma QuietCoreKeeps(f: Farewell, e: Event)
    requires FarewellInv(f) && Possible(f, Core(e)) && !e.CallLeave? && !e.DeliverNewRoot?
    ensures LeaversOk(Next(f, Core(e)))
  {
    hide Inv, LeaverOk, RootDue, Step, Enabled;
    var s, s' := f.core, Step(f.core, e);
    forall p | FarewellMail(p) ensures s'.net[p] == s.net[p] { FarewellMailStays(s, e, p); }
    MembersAfter(s, e);
    forall l {:trigger f.leavers[l]} | l in f.leavers ensures LeaverOk(s', l, f.leavers[l]) {
      OutOfCore(s, l, f.leavers[l]);
      LeaverStays(s, s', l, f.leavers[l]);
    }
    forall l | LeaveCs(l) in s'.net || RootDue(s', l) ensures l in f.leavers { SameDue(s, s', l); }
  }

  lemma OutOfCore(s: State, l: NodeId, t: Site)
    requires LeaverOk(s, l, t)
    ensures l !in Members(s)
  {}

  // --- A departure begins.

  lemma LeaveCoreKeeps(f: Farewell, e: Event)
    requires FarewellInv(f) && Possible(f, Core(e)) && e.CallLeave?
    ensures LeaversOk(Next(f, Core(e)))
  {
    hide Inv, LeaverOk, RootDue, Step, Enabled, IsQueue;
    var s, s', n := f.core, Step(f.core, e), e.n;
    var q := NewRootIsNext(s, n, e.successor);
    var r := Heir(q, e.successor);
    MembersAfter(s, e);
    forall l {:trigger f.leavers[l]} | l in f.leavers ensures l != n && LeaverOk(s', l, f.leavers[l]) {
      OutOfCore(s, l, f.leavers[l]);
      OtherLeaver(s, s', l, f.leavers[l], NewRootCs(r, n));
    }
    NobodyDue(f, n);
    NewLeaver(s, s', n, r, Depart(s.sites[n], n, e.successor).site);
    forall l | LeaveCs(l) in s'.net || RootDue(s', l) ensures l in f.leavers || l == n {
      if l != n { DueBefore(s, s', l, NewRootCs(r, n)); }
    }
  }

  lemma OtherLeaver(s: State, s': State, l: NodeId, t: Site, p: Packet)
    requires LeaverOk(s, l, t) && l !in Members(s') && s'.net == s.net + multiset{p} && p.NewRootCs? && p.sender != l
    ensures LeaverOk(s', l, t)
  {
    forall r ensures NewRootCs(r, l) in s'.net <==> NewRootCs(r, l) in s.net {}
  }

  lemma DueBefore(s: State, s': State, l: NodeId, p: Packet)
    requires s'.net == s.net + multiset{p} && p.NewRootCs? && p.sender != l
    ensures RootDue(s', l) ==> RootDue(s, l)
    ensures LeaveCs(l) in s'.net ==> LeaveCs(l) in s.net
  {
    if r :| NewRootCs(r, l) in s'.net { assert NewRootCs(r, l) in s.net; }
  }

  lemma NobodyDue(f: Farewell, n: NodeId)
    requires LeaversOk(f) && n in f.core.sites
    ensures n !in f.leavers && !RootDue(f.core, n) && LeaveCs(n) !in f.core.net
  {
    assert n in f.leavers ==> LeaverOk(f.core, n, f.leavers[n]);
  }

  lemma NewLeaver(s: State, s': State, n: NodeId, r: NodeId, t: Site)
    requires n !in Members(s') && s'.net == s.net + multiset{NewRootCs(r, n)} && LeaveCs(n) !in s.net && t.leaving
    ensures LeaverOk(s', n, t)
  {
    assert NewRootCs(r, n) in s'.net;
  }

  // --- The new root hears of it.

  lemma NewRootCoreKeeps(f: Farewell, e: Event)
    requires FarewellInv(f) && Possible(f, Core(e)) && e.DeliverNewRoot?
    ensures LeaversOk(Next(f, Core(e)))
  {
    hide Inv, LeaverOk, RootDue, Step, Enabled;
    var s, s' := f.core, Step(f.core, e);
    NewRootFarewell(s, e);
    MembersAfter(s, e);
    forall l {:trigger f.leavers[l]} | l in f.leavers ensures LeaverOk(s', l, f.leavers[l]) {
      OutOfCore(s, l, f.leavers[l]);
      ToldLeaver(s, s', l, f.leavers[l], e.at, e.leaver);
    }
    forall l | LeaveCs(l) in s'.net || RootDue(s', l) ensures l in f.leavers { DueOrTold(s, s', l, e.at, e.leaver); }
  }

  /** What the delivery does to the messages of departures. */
  lemma NewRootFarewell(s: State, e: Event)
    requires Inv(s) && Enabled(s, e) && e.DeliverNewRoot?
    ensures NewRootCs(e.at, e.leaver) in s.net && forall r, l :: NewRootCs(r, l) in s.net ==> r == e.at && l == e.leaver
    ensures forall r, l :: NewRootCs(r, l) !in Step(s, e).net
    ensures forall l :: Step(s, e).net[LeaveCs(l)] == s.net[LeaveCs(l)] + if l == e.leaver then 1 else 0
  {
    hide Inv, DoNewRoot;
    OneNewRoot(s, e);
    var s' := Step(s, e);
    forall x, y ensures NewRootCs(x, y) !in s'.net {
      NewRootSends(s, e.at, e.leaver, e.nodes, NewRootCs(x, y));
    }
    forall y ensures s'.net[LeaveCs(y)] == s.net[LeaveCs(y)] + if y == e.leaver then 1 else 0 {
      NewRootSends(s, e.at, e.leaver, e.nodes, LeaveCs(y));
    }
  }

  lemma OneNewRoot(s: State, e: Event)
    requires Inv(s) && Enabled(s, e) && e.DeliverNewRoot?
    ensures s.net[NewRootCs(e.at, e.leaver)] == 1
    ensures forall r, l :: NewRootCs(r, l) in s.net ==> r == e.at && l == e.leaver
  {
    hide Sound, StaleInv, ResetsDue, Lists;
    assert NewRootCs(e.at, e.leaver) in s.net;
    var r, l :| Orphaned(s, r, l);
  }

  lemma ToldLeaver(s: State, s': State, l: NodeId, t: Site, root: NodeId, leaver: NodeId)
    requires LeaverOk(s, l, t) && l !in Members(s') && NewRootCs(root, leaver) in s.net
    requires forall x, y :: NewRootCs(x, y) in s.net ==> x == root && y == leaver
    requires forall x, y :: NewRootCs(x, y) !in s'.net
    requires forall y :: s'.net[LeaveCs(y)] == s.net[LeaveCs(y)] + if y == leaver then 1 else 0
    ensures LeaverOk(s', l, t)
  {
    assert l == leaver ==> RootDue(s, l);
    assert RootDue(s, l) ==> l == leaver;
    assert !RootDue(s', l);
  }

  lemma DueOrTold(s: State, s': State, l: NodeId, root: NodeId, leaver: NodeId)
    requires NewRootCs(root, leaver) in s.net
    requires forall x, y :: NewRootCs(x, y) !in s'.net
    requires forall y :: s'.net[LeaveCs(y)] == s.net[LeaveCs(y)] + if y == leaver then 1 else 0
    ensures LeaveCs(l) in s'.net || RootDue(s', l) ==> LeaveCs(l) in s.net || RootDue(s, l)
  {
    assert RootDue(s, leaver);
    assert s'.net[LeaveCs(l)] == s.net[LeaveCs(l)] + if l == leaver then 1 else 0;
  }

  // --- The other moves.

  lemma StaleChangeKeepsInv(s: State, n: NodeId, t: Site)
    requires Inv(s) && n in s.stale && Stale(t)
    ensures Inv(s.(stale := s.stale[n := t]))
  {
    var s' := s.(stale := s.stale[n := t]);
    if Rooted(s) {
      RootedWith(s, s');
    } else {
      var r, l :| Orphaned(s, r, l);
      OrphanedWith(s, s', r, l);
    }
  }

  lemma SameCore(s: State, s': State, b: Books)
    requires Sound(s, b) && s'.sites == s.sites && SameTraffic(s.net, s'.net)
    ensures Sound(s', b)
  {
    hide Sound;
    ForeignMail(s, s', b);
  }

  lemma RootedWith(s: State, s': State)
    requires Rooted(s) && s'.sites == s.sites && s'.stale.Keys == s.stale.Keys
    requires forall n :: n in s'.stale ==> Stale(s'.stale[n])
    requires forall p :: s'.net[p] == s.net[p] || p.LeaveCs?
    ensures Rooted(s')
  {
    hide Sound;
    var b :| Sound(s, b);
    SameCore(s, s', b);
    forall n | n in s'.stale ensures n !in s'.sites && n != EmptyNode { assert n in s.stale; }
    forall n, r ensures s'.net[ResetCs(n, r)] == s.net[ResetCs(n, r)] {}
    forall n | n in s'.stale ensures exists r :: ResetCs(n, r) in s'.net {
      assert n in s.stale;
      var r :| ResetCs(n, r) in s.net;
      assert ResetCs(n, r) in s'.net;
    }
    forall n, l ensures NewRootCs(n, l) !in s'.net { assert s'.net[NewRootCs(n, l)] == s.net[NewRootCs(n, l)]; }
  }

  lemma OrphanedWith(s: State, s': State, r: NodeId, l: NodeId)
    requires Orphaned(s, r, l) && s'.sites == s.sites && s'.stale.Keys == s.stale.Keys
    requires forall n :: n in s'.stale ==> Stale(s'.stale[n])
    requires forall p :: s'.net[p] == s.net[p] || p.LeaveCs?
    ensures Orphaned(s', r, l)
  {
    forall x, y ensures s'.net[NewRootCs(x, y)] == s.net[NewRootCs(x, y)] {}
    forall p | p in s'.net ensures Foreign(p) && !p.ResetCs? { assert p in s.net || p.LeaveCs?; }
    forall n | n in s'.stale ensures n != EmptyNode { assert n in s.stale; }
  }

  lemma LessMailKeepsInv(s: State, l: NodeId)
    requires Inv(s)
    ensures Inv(s.(net := s.net - multiset{LeaveCs(l)}))
  {
    hide Rooted, Orphaned;
    var s' := s.(net := s.net - multiset{LeaveCs(l)});
    AllStale(s);
    if Rooted(s) {
      RootedWith(s, s');
    } else {
      var r, x :| Orphaned(s, r, x);
      OrphanedWith(s, s', r, x);
    }
  }

  lemma AllStale(s: State)
    requires Inv(s)
    ensures forall n :: n in s.stale ==> Stale(s.stale[n])
  {
    hide Sound, ResetsDue;
  }

  lemma StaleCallKeeps(f: Farewell, n: NodeId)
    requires FarewellInv(f) && Possible(f, CallStale(n))
    ensures FarewellInv(Next(f, CallStale(n)))
  {
    hide Inv, LeaverOk, RootDue;
    var s := f.core;
    AllStale(s);
    var t := Enter(s.stale[n], n).site;
    StaleChangeKeepsInv(s, n, t);
    var s' := s.(stale := s.stale[n := t]);
    forall l {:trigger f.leavers[l]} | l in f.leavers ensures LeaverOk(s', l, f.leavers[l]) {
      OutOfCore(s, l, f.leavers[l]);
      LeaverStays(s, s', l, f.leavers[l]);
    }
    forall l ensures RootDue(s', l) <==> RootDue(s, l) { SameDue(s, s', l); }
  }

  lemma LeaveArrivesKeeps(f: Farewell, at: NodeId)
    requires FarewellInv(f) && Possible(f, DeliverLeave(at))
    ensures FarewellInv(Next(f, DeliverLeave(at)))
  {
    hide Inv, LeaverOk, RootDue;
    var s := f.core;
    LessMailKeepsInv(s, at);
    var f' := Next(f, DeliverLeave(at));
    forall l {:trigger f'.leavers[l]} | l in f'.leavers ensures LeaverOk(f'.core, l, f'.leavers[l]) {
      assert LeaverOk(s, l, f.leavers[l]);
      LeaveTaken(s, l, at, f.leavers[l]);
    }
    forall l | LeaveCs(l) in f'.core.net || RootDue(f'.core, l) ensures l in f'.leavers { DueWithLess(s, l, at); }
  }

  lemma LeaveTaken(s: State, l: NodeId, at: NodeId, t: Site)
    requires LeaverOk(s, l, t) && LeaveCs(at) in s.net
    ensures LeaverOk(s.(net := s.net - multiset{LeaveCs(at)}), l, if l == at then OnLeave(t) else t)
  {
    var net := s.net - multiset{LeaveCs(at)};
    forall r ensures NewRootCs(r, l) in net <==> NewRootCs(r, l) in s.net {}
  }

  lemma DueWithLess(s: State, l: NodeId, at: NodeId)
    ensures var s' := s.(net := s.net - multiset{LeaveCs(at)});
      LeaveCs(l) in s'.net || RootDue(s', l) ==> LeaveCs(l) in s.net || RootDue(s, l)
  {
    var net := s.net - multiset{LeaveCs(at)};
    forall r ensures NewRootCs(r, l) in net ==> NewRootCs(r, l) in s.net {}
  }

  /** A request that reaches the leaver before LEAVE_CS does: nothing is sent and nothing changes. */
  lemma LeaverIsSilent(f: Farewell, at: NodeId, r: NodeId)
    requires Possible(f, DeliverStray(at, r))
    ensures Next(f, DeliverStray(at, r)) == f.(strays := f.strays - multiset{RequestCs(at, r)})
  {
    assert f.core.net + multiset([]) == f.core.net;
    assert f.leavers[at := f.leavers[at]] == f.leavers;
  }

  lemma ReturnKeeps(f: Farewell, at: NodeId)
    requires FarewellInv(f) && Possible(f, Return(at))
    ensures FarewellInv(Next(f, Return(at)))
  {
    hide Inv;
    assert LeaverOk(f.core, at, f.leavers[at]);
    forall l {:trigger f.leavers[l]} | l in f.leavers && l != at ensures LeaverOk(f.core, l, f.leavers[l]) {}
  }

  lemma MoveKeepsInv(f: Farewell, m: Move)
    requires FarewellInv(f) && Possible(f, m)
    ensures FarewellInv(Next(f, m))
  {
    hide Inv, LeaverOk, RootDue, LeaversOk, Enabled, Step, Depart;
    match m
    case Core(e) =>
      StepKeepsInv(f.core, e);
      if e.CallLeave? { LeaveCoreKeeps(f, e); }
      else if e.DeliverNewRoot? { NewRootCoreKeeps(f, e); }
      else { QuietCoreKeeps(f, e); }
    case CallStale(n) => StaleCallKeeps(f, n);
    case DeliverStray(at, r) => LeaverIsSilent(f, at, r); StraysAside(f, f.strays - multiset{RequestCs(at, r)});
    case DeliverLeave(at) => LeaveArrivesKeeps(f, at);
    case Return(at) => ReturnKeeps(f, at);
  }

  lemma StraysAside(f: Farewell, strays: multiset<Packet>)
    requires FarewellInv(f)
    ensures FarewellInv(f.(strays := strays))
  {
    hide Inv, LeaverOk, RootDue;
    var g := f.(strays := strays);
    forall l {:trigger g.leavers[l]} | l in g.leavers ensures LeaverOk(g.core, l, g.leavers[l]) {
      assert LeaverOk(f.core, l, f.leavers[l]);
    }
  }

  lemma {:induction false} MovesKeepInv(f: Farewell, ms: seq<Move>)
    requires FarewellInv(f) && IsFarewellRun(f, ms)
    ensures FarewellInv(AfterMoves(f, ms))
    decreases |ms|
  {
    hide FarewellInv, Next, Possible;
    if ms != [] {
      MoveKeepsInv(f, ms[0]);
      MovesKeepInv(Next(f, ms[0]), ms[1..]);
    }
  }

  ghost predicate FarewellReachable(f: Farewell) {
    exists first, ms :: first != EmptyNode && IsFarewellRun(Begin(first), ms) && f == AfterMoves(Begin(first), ms)
  }

  lemma FarewellReachableInv(f: Farewell)
    requires FarewellReachable(f)
    ensures FarewellInv(f)
  {
    hide FarewellInv;
    var first, ms :| first != EmptyNode && IsFarewellRun(Begin(first), ms) && f == AfterMoves(Begin(first), ms);
    BeginInv(first);
    MovesKeepInv(Begin(first), ms);
  }

  lemma BeginInv(first: NodeId)
    requires first != EmptyNode
    ensures FarewellInv(Begin(first))
  {
    hide Inv;
    InitInv(first);
  }

  /** With leavers that have not returned and callers left behind, too, there is one token and at
      most one node in the critical section. */
  lemma FarewellIsExclusive(f: Farewell)
    requires FarewellReachable(f)
    ensures Exclusive(f.core)
  {
    hide Inv, LeaversOk, FarewellReachable, Exclusive;
    FarewellReachableInv(f);
    InvIsExclusive(f.core);
  }

  // --- The order of events.

  /** `leave_CS` waits at `l`. */
  predicate StillLeaving(f: Farewell, l: NodeId) {
    l in f.leavers && f.leavers[l].leaving
  }

  predicate TellsRoot(m: Move, l: NodeId) {
    m.Core? && m.e.DeliverNewRoot? && m.e.leaver == l
  }

  lemma LeaverAt(f: Farewell, l: NodeId)
    requires FarewellInv(f) && StillLeaving(f, l)
    ensures LeaverOk(f.core, l, f.leavers[l]) && l !in f.core.sites
  {
    hide Inv;
  }

  lemma StaysLeaving(f: Farewell, m: Move, l: NodeId)
    requires FarewellInv(f) && Possible(f, m) && StillLeaving(f, l) && m != DeliverLeave(l)
    ensures StillLeaving(Next(f, m), l)
  {
    hide FarewellInv, LeaverOk, Step;
    LeaverAt(f, l);
  }

  lemma StaysDue(f: Farewell, m: Move, l: NodeId)
    requires FarewellInv(f) && Possible(f, m) && RootDue(f.core, l) && !TellsRoot(m, l)
    ensures RootDue(Next(f, m).core, l)
  {
    hide Inv, LeaversOk, Enabled, Step, Enter, OnRequest, RootDue;
    var s, s' := f.core, Next(f, m).core;
    if m.Core? && m.e.CallLeave? {
      var q := NewRootIsNext(s, m.e.n, m.e.successor);
      MoreDue(s, s', l);
    } else if m.Core? && m.e.DeliverNewRoot? {
      NewRootFarewell(s, m.e);
      OnlyDueFor(s, l, m.e);
    } else {
      forall r ensures s'.net[NewRootCs(r, l)] >= s.net[NewRootCs(r, l)] {
        if m.Core? { FarewellMailStays(s, m.e, NewRootCs(r, l)); }
      }
      MoreDue(s, s', l);
    }
  }

  lemma MoreDue(s: State, s': State, l: NodeId)
    requires RootDue(s, l) && forall r :: s'.net[NewRootCs(r, l)] >= s.net[NewRootCs(r, l)]
    ensures RootDue(s', l)
  {
    var r :| NewRootCs(r, l) in s.net;
    assert NewRootCs(r, l) in s'.net;
  }

  lemma OnlyDueFor(s: State, l: NodeId, e: Event)
    requires RootDue(s, l) && e.DeliverNewRoot? && forall x, y :: NewRootCs(x, y) in s.net ==> x == e.at && y == e.leaver
    ensures l == e.leaver
  {
    var r :| NewRootCs(r, l) in s.net;
  }

  lemma {:induction false} WaitsForLeave(f: Farewell, ms: seq<Move>, l: NodeId) returns (j: nat)
    requires FarewellInv(f) && StillLeaving(f, l) && IsFarewellRun(f, ms) && !StillLeaving(AfterMoves(f, ms), l)
    ensures j < |ms| && ms[j] == DeliverLeave(l)
    decreases |ms|
  {
    hide FarewellInv, Next, Possible, StillLeaving;
    if ms[0] == DeliverLeave(l) {
      j := 0;
    } else {
      StaysLeaving(f, ms[0], l);
      MoveKeepsInv(f, ms[0]);
      j := WaitsForLeave(Next(f, ms[0]), ms[1..], l);
      j := j + 1;
    }
  }

  lemma DueIsNotTold(f: Farewell, l: NodeId)
    requires FarewellInv(f) && StillLeaving(f, l) && RootDue(f.core, l)
    ensures !Possible(f, DeliverLeave(l))
  {
    hide Inv;
    LeaverAt(f, l);
  }

  /** `leave_CS` returns only after its NEW_ROOT_CS was delivered and then LEAVE_CS. */
  lemma {:induction false} WaitsForBoth(f: Farewell, ms: seq<Move>, l: NodeId) returns (i: nat, j: nat)
    requires FarewellInv(f) && StillLeaving(f, l) && RootDue(f.core, l)
    requires IsFarewellRun(f, ms) && !StillLeaving(AfterMoves(f, ms), l)
    ensures i < j < |ms| && TellsRoot(ms[i], l) && ms[j] == DeliverLeave(l)
    decreases |ms|
  {
    hide FarewellInv, Next, Possible, StillLeaving, RootDue;
    DueIsNotTold(f, l);
    assert ms != [] && ms[0] != DeliverLeave(l);
    var f' := Next(f, ms[0]);
    StaysLeaving(f, ms[0], l);
    MoveKeepsInv(f, ms[0]);
    if TellsRoot(ms[0], l) {
      j := WaitsForLeave(f', ms[1..], l);
      i, j := 0, j + 1;
    } else {
      StaysDue(f, ms[0], l);
      i, j := WaitsForBoth(f', ms[1..], l);
      i, j := i + 1, j + 1;
    }
  }

  lemma LeaveBegins(f: Farewell, n: NodeId, successor: NodeId)
    requires FarewellInv(f) && Possible(f, Core(CallLeave(n, successor)))
    ensures StillLeaving(Next(f, Core(CallLeave(n, successor))), n)
    ensures RootDue(Next(f, Core(CallLeave(n, successor))).core, n)
  {
    hide Inv, LeaversOk, IsQueue;
    var q := NewRootIsNext(f.core, n, successor);
    assert NewRootCs(Heir(q, successor), n) in Step(f.core, CallLeave(n, successor)).net;
  }

  /** From the beginning of a departure: until `leave_CS` returns, the leaver is there and answers no
      request; it returns only after its NEW_ROOT_CS and then LEAVE_CS were delivered. */
  lemma ReturnsOnlyAfterLeave(f: Farewell, n: NodeId, successor: NodeId, ms: seq<Move>) returns (i: nat, j: nat)
    requires FarewellReachable(f) && Possible(f, Core(CallLeave(n, successor)))
    requires var g := Next(f, Core(CallLeave(n, successor)));
      IsFarewellRun(g, ms) && (n !in AfterMoves(g, ms).leavers || Possible(AfterMoves(g, ms), Return(n)))
    ensures i < j < |ms| && TellsRoot(ms[i], n) && ms[j] == DeliverLeave(n)
  {
    hide FarewellInv, FarewellReachable, Next, IsFarewellRun, AfterMoves, RootDue;
    FarewellReachableInv(f);
    LeaveBegins(f, n, successor);
    MoveKeepsInv(f, Core(CallLeave(n, successor)));
    i, j := WaitsForBoth(Next(f, Core(CallLeave(n, successor))), ms, n);
  }

  /** As long as a node is leaving, one of the events that its return needs can happen. */
  lemma LeaverGoesOn(f: Farewell, l: NodeId)
    requires FarewellReachable(f) && l in f.leavers
    ensures exists m :: Possible(f, m) && (TellsRoot(m, l) || m == DeliverLeave(l) || m == Return(l))
  {
    hide FarewellReachable, Inv;
    FarewellReachableInv(f);
    assert LeaverOk(f.core, l, f.leavers[l]);
    if !f.leavers[l].leaving {
      assert Possible(f, Return(l));
    } else if LeaveCs(l) in f.core.net {
      assert Possible(f, DeliverLeave(l));
    } else {
      var r :| NewRootCs(r, l) in f.core.net;
      RootIsStale(f.core, r, l);
      var nodes := L.Listing(f.core.stale.Keys - {r});
      assert TellsRoot(Core(DeliverNewRoot(r, l, nodes)), l) && Possible(f, Core(DeliverNewRoot(r, l, nodes)));
    }
  }

  lemma RootIsStale(s: State, r: NodeId, l: NodeId)
    requires Inv(s) && NewRootCs(r, l) in s.net
    ensures r in s.stale
  {
    hide Sound, StaleInv, ResetsDue;
  }

  /** A caller that entered while its node was left behind, and whose request may have gone to the
      leaver, gets a request at the new root when the node is reset. */
  lemma CallerIsAskedAgain(f: Farewell, n: NodeId, root: NodeId)
    requires FarewellReachable(f) && Possible(f, Core(DeliverReset(n, root))) && f.core.stale[n].waiting
    ensures var s := Next(f, Core(DeliverReset(n, root))).core; Pending(s, n) && HasClaim(s, n, Asking(root))
  {
    hide FarewellReachable, Inv, LeaversOk;
    FarewellReachableInv(f);
    AllStale(f.core);
    assert RequestCs(root, n) in OnReset(f.core.stale[n], n, root).sent;
  }
}
