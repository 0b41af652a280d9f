/**
 What the program may do with a page: a fault ends with the access permitted, the permission
 stays while the lock is kept, and whoever has the lock gets to its access.
 */
module Permissions {
  import opened Nodes
  import opened PageLock
  import opened PageCell
  import P = PageMachine
  import opened Coherence
  import opened Dsm
  import opened DsmTheorems

  // --- One page.

  /** The caller of `n` is in the lock, for writing if it wants to write. */
  predicate MayAccess(s: P.State, n: NodeId, write: bool) {
    n in s.cells && s.cells[n].granted && (write ==> s.cells[n].mode == Writing)
  }

  /** The program goes on and its access does not fault. */
  predicate Accesses(s: P.State, n: NodeId, write: bool) {
    n in s.cells && P.Idle(s.cells[n]) && P.Permits(s.cells[n].prot, write)
  }

  /** When the fault handler returns, the access that faulted is permitted, on the latest bytes, and
      after a write fault nobody else has a copy or another opinion about the owner. */
  lemma FaultPermits(s: P.State, flat: Bytes, n: NodeId)
    requires Inv(s, flat) && P.Enabled(s, P.FaultReturns(n))
    ensures var w, s' := s.cells[n].fault.write, P.Step(s, P.FaultReturns(n));
      && Accesses(s', n, w) && MayAccess(s', n, w) && s'.cells[n].bytes == flat
      && (w ==> forall m :: m in s'.cells ==>
        s'.cells[m].owner == n && (m != n ==> s'.cells[m].prot == NoAccess && !s'.cells[m].upToDate))
  {
    hide ApartInv, OwnerInv, MessageInv;
    CellFacts(s, flat, n);
  }

  /** The steps in which a node gives the page up. */
  predicate GivesUp(e: P.Event, n: NodeId) {
    (e.CallLock? || e.CallUnlock? || e.BeginLeave?) && e.n == n
  }

  lemma OwnStepKeeps(s: P.State, flat: Bytes, e: P.Event, n: NodeId, write: bool)
    requires CellsInv(s, flat) && P.Enabled(s, e) && MayAccess(s, n, write) && P.Permits(s.cells[n].prot, write)
    requires (e.Grant? || e.AccessFault? || e.Store? || e.FaultReturns?) && e.n == n
    ensures n in P.Step(s, e).cells && P.Permits(P.Step(s, e).cells[n].prot, write)
  {
    hide P.Compatible;
    CellFacts(s, flat, n);
  }

  /** Nobody claims a page under a node that is in its lock. */
  lemma NoClaimBeside(s: P.State, flat: Bytes, n: NodeId, m: NodeId)
    requires CellsInv(s, flat) && ApartInv(s) && n in s.cells && m in s.cells && m != n && s.cells[n].granted
    ensures !P.Claims(s.cells[m])
  {
    CellFacts(s, flat, m);
    ApartFacts(s, n, m);
  }

  /** The step concerns another node. */
  predicate Elsewhere(e: P.Event, n: NodeId) {
    e.DropAsk? || e.EndLeave? || (if e.DeliverAsk? || e.DeliverPage? then e.at != n else e.n != n)
  }

  lemma OtherStepSame(s: P.State, e: P.Event, n: NodeId)
    requires P.Enabled(s, e) && n in s.cells && Elsewhere(e, n)
    requires e.FaultReturns? ==> e.n in s.cells && !P.Claims(s.cells[e.n])
    ensures n in P.Step(s, e).cells && P.Step(s, e).cells[n] == s.cells[n]
  {
    hide P.Compatible, P.Claims, P.Put, P.DoFault, P.DoReturn, P.DoStore, P.DoAsk, P.DoPage, P.DoNotice, P.AskFor, P.WithMode;
    match e
    case CallLock(k, t) => OtherPut(s, k, n, P.AskFor(s.cells[k], t));
    case Grant(k) => OtherPut(s, k, n, s.cells[k].(granted := true));
    case CallUnlock(k) => OtherPut(s, k, n, P.WithMode(s.cells[k], Unlocked, false));
    case AccessFault(k, w) => OtherFault(s, k, n, w);
    case FaultReturns(k) => QuietReturn(s, k, n);
    case Store(k, i, v) => OtherStore(s, k, n, i, v);
    case DeliverAsk(d, r) => OtherAsk(s, d, n, r);
    case DropAsk(_, _) =>
    case DeliverPage(d, x, b) => OtherPage(s, d, n, x, b);
    case Join(k, c) => OtherPut(s, k, n, Joined(s.cells[c].owner));
    case BeginLeave(k, h) =>
    case Notice(k) => OtherNotice(s, k, n);
    case EndLeave =>
  }

  lemma OtherPut(s: P.State, k: NodeId, n: NodeId, c: Cell)
    requires n in s.cells && n != k
    ensures n in P.Put(s, k, c).cells && P.Put(s, k, c).cells[n] == s.cells[n]
  {}

  lemma OtherFault(s: P.State, k: NodeId, n: NodeId, w: bool)
    requires k in s.cells && n in s.cells && n != k
    ensures n in P.DoFault(s, k, w).cells && P.DoFault(s, k, w).cells[n] == s.cells[n]
  {}

  lemma OtherStore(s: P.State, k: NodeId, n: NodeId, i: nat, v: int)
    requires k in s.cells && n in s.cells && n != k && i < |s.cells[k].bytes|
    ensures n in P.DoStore(s, k, i, v).cells && P.DoStore(s, k, i, v).cells[n] == s.cells[n]
  {}

  lemma OtherAsk(s: P.State, d: NodeId, n: NodeId, r: NodeId)
    requires d in s.cells && n in s.cells && n != d
    ensures n in P.DoAsk(s, d, r).cells && P.DoAsk(s, d, r).cells[n] == s.cells[n]
  {
    hide Copied;
  }

  lemma OtherPage(s: P.State, d: NodeId, n: NodeId, x: NodeId, b: Bytes)
    requires d in s.cells && n in s.cells && n != d
    ensures n in P.DoPage(s, d, x, b).cells && P.DoPage(s, d, x, b).cells[n] == s.cells[n]
  {
    hide Update;
  }

  lemma OtherNotice(s: P.State, k: NodeId, n: NodeId)
    requires k in s.cells && s.leave.Leaving? && n in s.cells && n != k
    ensures n in P.DoNotice(s, k).cells && P.DoNotice(s, k).cells[n] == s.cells[n]
  {
    hide Update, Inherit;
  }

  lemma QuietReturn(s: P.State, m: NodeId, n: NodeId)
    requires m in s.cells && s.cells[m].fault.Handling? && !P.Claims(s.cells[m]) && n in s.cells && n != m
    ensures n in P.DoReturn(s, m).cells && P.DoReturn(s, m).cells[n] == s.cells[n]
  {
    hide EndFault, P.Claims;
  }

  lemma OtherStepKeeps(s: P.State, flat: Bytes, e: P.Event, n: NodeId)
    requires CellsInv(s, flat) && ApartInv(s) && P.Enabled(s, e) && n in s.cells && s.cells[n].granted && Elsewhere(e, n)
    ensures n in P.Step(s, e).cells && P.Step(s, e).cells[n] == s.cells[n]
  {
    hide CellsInv, ApartInv, P.Claims, P.Step;
    if e.FaultReturns? { NoClaimBeside(s, flat, n, e.n); }
    OtherStepSame(s, e, n);
  }

  lemma AskKeeps(s: P.State, flat: Bytes, n: NodeId, r: NodeId, write: bool)
    requires Inv(s, flat) && P.Enabled(s, P.DeliverAsk(n, r)) && MayAccess(s, n, write) && P.Permits(s.cells[n].prot, write)
    ensures var t := P.Step(s, P.DeliverAsk(n, r)); n in t.cells && P.Permits(t.cells[n].prot, write)
  {
    hide CellsInv, ApartInv, OwnerInv, MessageInv;
    CellFacts(s, flat, n);
    WriterIsNotAsked(s, flat, n, r);
  }

  lemma PageKeeps(s: P.State, flat: Bytes, n: NodeId, x: NodeId, b: Bytes, write: bool)
    requires Inv(s, flat) && P.Enabled(s, P.DeliverPage(n, x, b)) && MayAccess(s, n, write) && P.Permits(s.cells[n].prot, write)
    ensures var t := P.Step(s, P.DeliverPage(n, x, b)); n in t.cells && P.Permits(t.cells[n].prot, write)
  {
    hide CellsInv, ApartInv, OwnerInv, MessageInv;
    CellFacts(s, flat, n);
    MailFacts(s, flat, P.PageMail(n, x, b));
  }

  lemma NoticeKeeps(s: P.State, flat: Bytes, n: NodeId, write: bool)
    requires Inv(s, flat) && P.Enabled(s, P.Notice(n)) && MayAccess(s, n, write) && P.Permits(s.cells[n].prot, write)
    ensures var t := P.Step(s, P.Notice(n)); n in t.cells && P.Permits(t.cells[n].prot, write)
  {
    hide CellsInv, ApartInv, OwnerInv, MessageInv;
    CellFacts(s, flat, n);
    if s.cells[n].prot == ReadWrite { WriterIsNoHeir(s, flat, n); }
  }

  /** Who asks for a page is in its lock, so the owner is not in it for writing. */
  lemma WriterIsNotAsked(s: P.State, flat: Bytes, d: NodeId, r: NodeId)
    requires CellsInv(s, flat) && ApartInv(s) && MessageInv(s, flat) && d in s.cells && P.AskPage(d, r) in s.asks
    ensures s.cells[d].granted ==> s.cells[d].mode == Reading
  {
    AskFacts(s, flat, d, r);
    CellFacts(s, flat, r);
    CellFacts(s, flat, d);
    if d != r { ApartFacts(s, d, r); }
  }

  /** A page that its heir may write is not the leaver's. */
  lemma WriterIsNoHeir(s: P.State, flat: Bytes, n: NodeId)
    requires CellsInv(s, flat) && OwnerInv(s, flat) && P.Enabled(s, P.Notice(n)) && s.cells[n].prot == ReadWrite
    ensures s.cells[n].owner == n != s.leave.leaver
  {
    CellFacts(s, flat, n);
  }

  /** A permitted access stays permitted until the node itself asks for a lock again, gives it up
      or leaves: no delivery and no other node takes it away. */
  lemma PermissionIsLostIff(s: P.State, flat: Bytes, e: P.Event, n: NodeId, write: bool)
    requires Inv(s, flat) && P.Enabled(s, e) && MayAccess(s, n, write) && P.Permits(s.cells[n].prot, write)
    ensures !(n in P.Step(s, e).cells && P.Permits(P.Step(s, e).cells[n].prot, write)) <==> GivesUp(e, n)
  {
    hide Inv, P.Step, P.Enabled, P.Permits, MayAccess;
    InvParts(s, flat);
    if GivesUp(e, n) {
      GivingUp(s, e, n, write);
    } else if (e.Grant? || e.AccessFault? || e.Store? || e.FaultReturns?) && e.n == n {
      OwnStepKeeps(s, flat, e, n, write);
    } else if e.DeliverAsk? && e.at == n {
      AskKeeps(s, flat, n, e.requester, write);
    } else if e.DeliverPage? && e.at == n {
      PageKeeps(s, flat, n, e.sender, e.bytes, write);
    } else if e == P.Notice(n) {
      NoticeKeeps(s, flat, n, write);
    } else {
      NobodyJoinsTwice(s, e, n, write);
      OtherStepKeeps(s, flat, e, n);
    }
  }

  lemma InvParts(s: P.State, flat: Bytes)
    requires Inv(s, flat)
    ensures CellsInv(s, flat) && ApartInv(s) && OwnerInv(s, flat) && MessageInv(s, flat)
  {}

  lemma NobodyJoinsTwice(s: P.State, e: P.Event, n: NodeId, write: bool)
    requires P.Enabled(s, e) && MayAccess(s, n, write)
    ensures n in s.cells && s.cells[n].granted && (e.Join? ==> e.n != n)
  {}

  lemma GivingUp(s: P.State, e: P.Event, n: NodeId, write: bool)
    requires P.Enabled(s, e) && GivesUp(e, n)
    ensures !(n in P.Step(s, e).cells && P.Permits(P.Step(s, e).cells[n].prot, write))
  {}

  // --- A page arrives.

  /** The page that a fault waits for: it is the latest, can be read at once, and the handler goes on. */
  lemma PageArrives(s: P.State, flat: Bytes, d: NodeId, x: NodeId, b: Bytes)
    requires Inv(s, flat) && P.Enabled(s, P.DeliverPage(d, x, b))
    ensures var c := P.Step(s, P.DeliverPage(d, x, b)).cells[d];
      && c.bytes == flat && c.upToDate && !c.syncing && c.owner == s.cells[d].owner == x != d && c.prot == ReadOnly
      && P.Enabled(P.Step(s, P.DeliverPage(d, x, b)), P.FaultReturns(d))
  {
    hide CellsInv, ApartInv, OwnerInv, MessageInv;
    MailFacts(s, flat, P.PageMail(d, x, b));
    CellFacts(s, flat, d);
  }

  /** A page that the heir takes over: it owns the latest bytes, which it can read exactly while it has
      asked for the lock; only a fault that waits for the page marks it up to date. */
  lemma HeirTakesOver(s: P.State, flat: Bytes, n: NodeId)
    requires Inv(s, flat) && P.Enabled(s, P.Notice(n)) && n == s.leave.heir && s.leave.cargo.Owned? && HandOver(s)
    ensures var c, c' := s.cells[n], P.Step(s, P.Notice(n)).cells[n];
      && c'.owner == n && c'.bytes == flat && !c'.syncing && (c'.upToDate <==> c.upToDate || c.syncing)
      && c'.prot == if c.mode == Unlocked then NoAccess else ReadOnly
  {
    hide CellsInv, ApartInv, MessageInv;
    CellFacts(s, flat, n);
  }

  // --- Without the lock.

  /** The node that creates the memory can read it, everybody else has to ask for the lock. */
  lemma CreatorReads(first: NodeId, n: NodeId, contact: NodeId)
    ensures P.Permits(P.Init(first).cells[first].prot, false) && P.Init(first).cells[first].bytes == ZeroPage()
    ensures forall w :: !P.Permits(Joined(contact).prot, w)
  {}

  /** The steps that take the page from a node outside the lock. */
  predicate TakesAway(s: P.State, e: P.Event, n: NodeId) {
    || ((e.CallLock? || e.BeginLeave?) && e.n == n) || (e.DeliverAsk? && e.at == n)
    || (e.FaultReturns? && e.n != n && e.n in s.cells && P.Claims(s.cells[e.n]))
  }

  /** A node outside the lock that can read a page keeps that until it asks for the lock or leaves,
      the page is copied for another node, or another node writes. */
  lemma UnlockedReadIsLostIff(s: P.State, flat: Bytes, e: P.Event, n: NodeId)
    requires Inv(s, flat) && P.Enabled(s, e) && n in s.cells && s.cells[n].mode == Unlocked && P.Permits(s.cells[n].prot, false)
    ensures !(n in P.Step(s, e).cells && P.Permits(P.Step(s, e).cells[n].prot, false)) <==> TakesAway(s, e, n)
  {
    hide Inv, P.Step, CellsInv, ApartInv, OwnerInv, MessageInv, P.Claims, P.Permits;
    InvParts(s, flat);
    if e.FaultReturns? && e.n != n && P.Claims(s.cells[e.n]) {
      ClaimTakes(s, e.n, n);
    } else if Elsewhere(e, n) {
      OtherStepSame(s, e, n);
    } else if e.DeliverAsk? || e.DeliverPage? {
      UnlockedMail(s, flat, e, n);
    } else {
      UnlockedOwn(s, flat, e, n);
    }
  }

  lemma ClaimTakes(s: P.State, m: NodeId, n: NodeId)
    requires P.Enabled(s, P.FaultReturns(m)) && P.Claims(s.cells[m]) && n in s.cells && n != m
    ensures n in P.Step(s, P.FaultReturns(m)).cells && !P.Permits(P.Step(s, P.FaultReturns(m)).cells[n].prot, false)
  {}

  lemma UnlockedMail(s: P.State, flat: Bytes, e: P.Event, n: NodeId)
    requires CellsInv(s, flat) && MessageInv(s, flat) && P.Enabled(s, e) && n in s.cells && s.cells[n].mode == Unlocked
    requires (e.DeliverAsk? || e.DeliverPage?) && e.at == n && P.Permits(s.cells[n].prot, false)
    ensures n in P.Step(s, e).cells && e.DeliverAsk? && !P.Permits(P.Step(s, e).cells[n].prot, false)
  {
    hide CellsInv, MessageInv;
    CellFacts(s, flat, n);
    if e.DeliverAsk? { AskFacts(s, flat, n, e.requester); } else { MailFacts(s, flat, P.PageMail(n, e.sender, e.bytes)); }
  }

  lemma UnlockedOwn(s: P.State, flat: Bytes, e: P.Event, n: NodeId)
    requires CellsInv(s, flat) && OwnerInv(s, flat) && P.Enabled(s, e) && n in s.cells && s.cells[n].mode == Unlocked
    requires !(e.DeliverAsk? || e.DeliverPage? || e.DropAsk? || e.EndLeave?) && e.n == n && P.Permits(s.cells[n].prot, false)
    ensures n in P.Step(s, e).cells && P.Permits(P.Step(s, e).cells[n].prot, false) <==> !e.CallLock? && !e.BeginLeave?
  {
    hide CellsInv, OwnerInv, P.Compatible;
    CellFacts(s, flat, n);
    if e.Notice? { NotTheLeaver(s, flat, n); }
  }

  lemma NotTheLeaver(s: P.State, flat: Bytes, n: NodeId)
    requires OwnerInv(s, flat) && P.Enabled(s, P.Notice(n)) && s.cells[n].owner == n
    ensures n != s.leave.leaver
  {}

  // --- All pages: whoever has the lock gets to its access.

  /** What a delivery does not change at a node that is there. */
  predicate SameCaller(c: Cell, d: Cell) {
    d.mode == c.mode && d.granted == c.granted && d.fault == c.fault
  }

  lemma DeliveryIsForOthers(s: P.State, e: P.Event, n: NodeId)
    requires P.Enabled(s, e) && (e.DeliverAsk? || e.DropAsk? || e.DeliverPage? || e.Notice?) && n in s.cells
    ensures n in P.Step(s, e).cells && SameCaller(s.cells[n], P.Step(s, e).cells[n])
  {
    hide Update, Copied, Inherit, SameCaller, P.Put;
    Unchanged(s.cells[n]);
    match e
    case DeliverAsk(d, r) =>
      CopiedCaller(s.cells[d]);
      PutElsewhere(s.(asks := s.asks - multiset{P.AskPage(d, r)}), d, n, Copied(s.cells[d]));
    case DropAsk(d, r) =>
    case DeliverPage(d, o, b) => UpdatedCaller(s.cells[d], o, o, b, false); PutElsewhere(s, d, n, Update(s.cells[d], o, o, b, false));
    case Notice(k) => NoticeCaller(s, k, n);
  }

  lemma PutElsewhere(s: P.State, d: NodeId, n: NodeId, c: Cell)
    requires d in s.cells && n in s.cells && SameCaller(s.cells[d], c)
    ensures n in P.Put(s, d, c).cells && SameCaller(s.cells[n], P.Put(s, d, c).cells[n])
  {}

  lemma CopiedCaller(c: Cell)
    ensures SameCaller(c, Copied(c))
  {}

  lemma UpdatedCaller(c: Cell, o: NodeId, x: NodeId, b: Bytes, leaving: bool)
    ensures SameCaller(c, Update(c, o, x, b, leaving))
  {}

  lemma NoticeCaller(s: P.State, k: NodeId, n: NodeId)
    requires P.Enabled(s, P.Notice(k)) && n in s.cells
    ensures n in P.Step(s, P.Notice(k)).cells && SameCaller(s.cells[n], P.Step(s, P.Notice(k)).cells[n])
  {
    hide Update;
    var l, c := s.leave, s.cells[k];
    if l.cargo.Owned? { UpdatedCaller(c, l.heir, l.leaver, l.cargo.bytes, true); }
  }

  lemma DeliveryStep(s: seq<P.State>, e: Event, i: nat, n: NodeId)
    requires Enabled(s, e) && Delivery(e) && i < |s| && n in s[i].cells
    ensures |Step(s, e)| == |s| && n in Step(s, e)[i].cells && SameCaller(s[i].cells[n], Step(s, e)[i].cells[n])
  {
    hide P.Enabled, P.Step;
    if e.On? && e.page == i { DeliveryIsForOthers(s[i], e.e, n); }
    if e.All? { DeliveryIsForOthers(s[i], e.e, n); }
  }

  lemma OneLessDelivery(s: seq<P.State>, m: Memory, e: Event)
    requires |s| > 0 && Refines(s, m) && Enabled(s, e) && Delivery(e)
    ensures TotalWork(Step(s, e)) < TotalWork(s)
  {
    hide P.Enabled, P.Step, Inv, RosterOf, Work;
    var s' := Step(s, e);
    if e.On? {
      DeliveryWorks(s[e.page], m[e.page], e.e);
      WorkDecreases(s, s', e.page);
    } else {
      forall i | 0 <= i < |s| ensures Work(s'[i]) < Work(s[i]) { DeliveryWorks(s[i], m[i], e.e); }
      WorkDecreases(s, s', 0);
    }
  }

  lemma DeliveryStoresNothing(m: Memory, e: Event)
    requires Delivery(e)
    ensures Written(m, e) == m
  {
    if e.On? && e.page < |m| { assert m[e.page := m[e.page]] == m; }
  }

  /** The callers of `n` on page `i` are as before. */
  ghost predicate SameAt(s: seq<P.State>, t: seq<P.State>, i: nat, n: NodeId) {
    && |t| == |s| && i < |s| && n in s[i].cells && n in t[i].cells && SameCaller(s[i].cells[n], t[i].cells[n])
  }

  lemma Prepend(s: seq<P.State>, e: Event, es: seq<Event>)
    requires Enabled(s, e) && IsRun(Step(s, e), es)
    ensures IsRun(s, [e] + es) && After(s, [e] + es) == After(Step(s, e), es)
  {
    hide Enabled, Step;
    assert ([e] + es)[1..] == es;
  }

  /** Deliveries until none is left. */
  lemma {:induction false} DeliverAll(s: seq<P.State>, m: Memory, i: nat, n: NodeId) returns (es: seq<Event>)
    requires |s| > 0 && Refines(s, m) && i < |s| && n in s[i].cells
    ensures IsRun(s, es) && forall e :: e in es ==> Delivery(e)
    ensures Refines(After(s, es), m) && Quiet(After(s, es)) && SameAt(s, After(s, es), i, n)
    decreases TotalWork(s)
  {
    hide Refines, Enabled, Step, Delivery, TotalWork, SameCaller;
    if Quiet(s) {
      es := [];
      assert SameCaller(s[i].cells[n], s[i].cells[n]) by { Unchanged(s[i].cells[n]); }
    } else {
      var e :| Delivery(e) && Enabled(s, e);
      DeliveryStep(s, e, i, n);
      OneLessDelivery(s, m, e);
      StepRefines(s, m, e);
      DeliveryStoresNothing(m, e);
      var s' := Step(s, e);
      es := DeliverAll(s', m, i, n);
      Prepend(s, e, es);
      StillSame(s[i].cells[n], s'[i].cells[n], After(s', es)[i].cells[n]);
      es := [e] + es;
    }
  }

  lemma Unchanged(c: Cell)
    ensures SameCaller(c, c)
  {}

  lemma StillSame(c: Cell, d: Cell, e: Cell)
    requires SameCaller(c, d) && SameCaller(d, e)
    ensures SameCaller(c, e)
  {}

  /** A step that the access of `n` to page `i` needs: a delivery, its fault, or the end of it. */
  predicate Needed(e: Event, i: nat, n: NodeId) {
    Delivery(e) || (e.On? && e.page == i && (e.e == P.FaultReturns(n) || (e.e.AccessFault? && e.e.n == n)))
  }

  ghost predicate Reaches(s: seq<P.State>, m: Memory, es: seq<Event>, i: nat, n: NodeId, write: bool) {
    && IsRun(s, es) && (forall e :: e in es ==> Needed(e, i, n))
    && Refines(After(s, es), m) && |After(s, es)| == |s| && i < |s|
    && Accesses(After(s, es)[i], n, write) && MayAccess(After(s, es)[i], n, write)
  }

  lemma {:induction false} Appended(s: seq<P.State>, es: seq<Event>, more: seq<Event>)
    requires IsRun(s, es) && IsRun(After(s, es), more)
    ensures IsRun(s, es + more) && After(s, es + more) == After(After(s, es), more)
    decreases |es|
  {
    hide Enabled, Step;
    if es == [] {
      assert es + more == more;
    } else {
      Appended(Step(s, es[0]), es[1..], more);
      Prepend(s, es[0], es[1..] + more);
      assert es + more == [es[0]] + (es[1..] + more);
    }
  }

  /** A fault in progress ends. */
  lemma FaultEnds(s: seq<P.State>, m: Memory, i: nat, n: NodeId) returns (es: seq<Event>)
    requires |s| > 0 && Refines(s, m) && i < |s| && n in s[i].cells && s[i].cells[n].fault.Handling?
    ensures Reaches(s, m, es, i, n, s[i].cells[n].fault.write)
    ensures After(s, es)[i].cells[n].mode == s[i].cells[n].mode
  {
    hide Refines, Quiet, P.Step, IsRun, After, Delivery;
    var first := DeliverAll(s, m, i, n);
    var t := After(s, first);
    NobodyIsStranded(t, m, i, n);
    var e := On(i, P.FaultReturns(n));
    InvAt(t, m, i);
    FaultPermits(t[i], m[i], n);
    assert Enabled(t, e);
    StepRefines(t, m, e);
    assert Written(m, e) == m;
    OneStep(t, e);
    Appended(s, first, [e]);
    es := first + [e];
    ModeStays(t[i], n);
  }

  lemma ModeStays(s: P.State, n: NodeId)
    requires P.Enabled(s, P.FaultReturns(n))
    ensures n in P.Step(s, P.FaultReturns(n)).cells && P.Step(s, P.FaultReturns(n)).cells[n].mode == s.cells[n].mode
  {}

  lemma InvAt(s: seq<P.State>, m: Memory, i: nat)
    requires Refines(s, m) && i < |s|
    ensures i < |m| && Inv(s[i], m[i])
  {}

  lemma OneStep(s: seq<P.State>, e: Event)
    requires Enabled(s, e)
    ensures IsRun(s, [e]) && After(s, [e]) == Step(s, e)
  {
    hide Enabled, Step;
    assert [e][1..] == [];
  }

  lemma Combined(s: seq<P.State>, m: Memory, es: seq<Event>, more: seq<Event>, i: nat, n: NodeId, write: bool)
    requires IsRun(s, es) && (forall e :: e in es ==> Needed(e, i, n)) && |After(s, es)| == |s|
    requires Reaches(After(s, es), m, more, i, n, write)
    ensures Reaches(s, m, es + more, i, n, write)
    ensures IsRun(s, es + more) && After(s, es + more) == After(After(s, es), more)
  {
    hide Needed, Refines, IsRun, After, Accesses, MayAccess;
    Appended(s, es, more);
  }

  /** A node that is idle in the lock faults, unless its access is permitted already. */
  lemma AccessFaults(s: seq<P.State>, m: Memory, i: nat, n: NodeId, write: bool) returns (es: seq<Event>)
    requires |s| > 0 && Refines(s, m) && i < |s| && MayAccess(s[i], n, write) && P.Idle(s[i].cells[n])
    ensures Reaches(s, m, es, i, n, write)
  {
    hide Refines, IsRun, After, Delivery;
    if P.Permits(s[i].cells[n].prot, write) {
      es := [];
      EmptyRun(s);
    } else {
      var e := On(i, P.AccessFault(n, write));
      assert Enabled(s, e);
      OneStep(s, e);
      StepRefines(s, m, e);
      NothingWritten(m, e);
      FaultBegins(s[i], n, write);
      var more := FaultEnds(Step(s, e), m, i, n);
      Combined(s, m, [e], more, i, n, write);
      es := [e] + more;
    }
  }

  lemma EmptyRun(s: seq<P.State>)
    ensures IsRun(s, []) && After(s, []) == s
  {}

  lemma NothingWritten(m: Memory, e: Event)
    requires e.On? && !e.e.Store?
    ensures Written(m, e) == m
  {
    if e.page < |m| { assert m[e.page := m[e.page]] == m; }
  }

  lemma FaultBegins(s: P.State, n: NodeId, write: bool)
    requires P.Enabled(s, P.AccessFault(n, write))
    ensures n in P.Step(s, P.AccessFault(n, write)).cells
    ensures P.Step(s, P.AccessFault(n, write)).cells[n].fault == Handling(write)
  {}

  /** Whoever is in the lock gets to its access, for writing as a writer, by its own faults and
      deliveries alone, whatever state it is in. */
  lemma AccessIsReached(s: seq<P.State>, m: Memory, i: nat, n: NodeId, write: bool) returns (es: seq<Event>)
    requires |s| > 0 && Refines(s, m) && i < |s| && MayAccess(s[i], n, write)
    ensures Reaches(s, m, es, i, n, write)
  {
    hide Refines, IsRun, After, Needed, P.Permits;
    if s[i].cells[n].fault.Handling? {
      var first := FaultEnds(s, m, i, n);
      var t := After(s, first);
      assert MayAccess(t[i], n, write);
      var more := AccessFaults(t, m, i, n, write);
      Combined(s, m, first, more, i, n, write);
      es := first + more;
    } else {
      assert P.Idle(s[i].cells[n]) by { InLock(s, m, i, n); }
      es := AccessFaults(s, m, i, n, write);
    }
  }

  lemma InLock(s: seq<P.State>, m: Memory, i: nat, n: NodeId)
    requires Refines(s, m) && i < |s| && n in s[i].cells && s[i].cells[n].granted && !s[i].cells[n].fault.Handling?
    ensures P.Idle(s[i].cells[n])
  {}

  // --- Stores happen.

  lemma {:induction false} PagesAreWhole(m: Memory, es: seq<Event>)
    requires forall i :: 0 <= i < |m| ==> |m[i]| == PAGE_SIZE
    ensures |Flat(m, es)| == |m| && forall i :: 0 <= i < |m| ==> |Flat(m, es)[i]| == PAGE_SIZE
    decreases |es|
  {
    if es != [] { PagesAreWhole(Written(m, es[0]), es[1..]); }
  }

  /** From every reachable state a node that is in the lock for writing gets, by its own faults and
      deliveries alone, to a state in which it can store any value anywhere in the page. */
  lemma StoreIsReached(s: seq<P.State>, m: Memory, i: nat, n: NodeId) returns (es: seq<Event>)
    requires Reachable(s, m) && i < |s| && MayAccess(s[i], n, true)
    ensures IsRun(s, es) && forall e :: e in es ==> Needed(e, i, n)
    ensures forall k: nat, v :: k < PAGE_SIZE ==> Enabled(After(s, es), On(i, P.Store(n, k, v)))
  {
    hide Refines, Reachable, IsRun, After, Needed, Flat;
    ReachableRefines(s, m);
    WholePages(s, m);
    es := AccessIsReached(s, m, i, n, true);
    var t := After(s, es);
    StoreEnabled(t, m, i, n);
  }

  lemma WholePages(s: seq<P.State>, m: Memory)
    requires Reachable(s, m)
    ensures forall i :: 0 <= i < |m| ==> |m[i]| == PAGE_SIZE
  {
    hide IsRun, After, Flat;
    var first, es :| IsRun(Init(first, |s|), es) && s == After(Init(first, |s|), es) && m == Flat(Zeros(|s|), es);
    PagesAreWhole(Zeros(|s|), es);
  }

  lemma StoreEnabled(t: seq<P.State>, m: Memory, i: nat, n: NodeId)
    requires Refines(t, m) && i < |t| && Accesses(t[i], n, true) && forall j :: 0 <= j < |m| ==> |m[j]| == PAGE_SIZE
    ensures forall k: nat, v :: k < PAGE_SIZE ==> Enabled(t, On(i, P.Store(n, k, v)))
  {
    hide Refines, Inv;
    InvAt(t, m, i);
    BytesAre(t[i], m[i], n);
  }

  lemma BytesAre(s: P.State, flat: Bytes, n: NodeId)
    requires Inv(s, flat) && n in s.cells && s.cells[n].prot == ReadWrite
    ensures s.cells[n].bytes == flat
  {
    hide ApartInv, OwnerInv, MessageInv;
    CellFacts(s, flat, n);
  }

  /** So the memory is written: from the start there is a run after which the node that created the
      memory can store any value anywhere in any page. */
  lemma StoresHappen(first: NodeId, pages: nat, i: nat) returns (es: seq<Event>)
    requires i < pages
    ensures IsRun(Init(first, pages), es)
    ensures forall k: nat, v :: k < PAGE_SIZE ==> Enabled(After(Init(first, pages), es), On(i, P.Store(first, k, v)))
  {
    hide IsRun, After, Reachable;
    var s, lock, grant := Init(first, pages), On(i, P.CallLock(first, Write)), On(i, P.Grant(first));
    var t := Step(s, lock);
    assert Enabled(t, grant);
    var u := Step(t, grant);
    OneStep(s, lock);
    OneStep(t, grant);
    Appended(s, [lock], [grant]);
    assert MayAccess(u[i], first, true);
    assert Reachable(u, Flat(Zeros(pages), [lock] + [grant])) by { IsReached(first, pages, [lock] + [grant], u); }
    var more := StoreIsReached(u, Flat(Zeros(pages), [lock] + [grant]), i, first);
    Appended(s, [lock] + [grant], more);
    es := [lock] + [grant] + more;
  }

  lemma IsReached(first: NodeId, pages: nat, es: seq<Event>, u: seq<P.State>)
    requires IsRun(Init(first, pages), es) && u == After(Init(first, pages), es) && |u| == pages
    ensures Reachable(u, Flat(Zeros(pages), es))
  {}
}
