/**
 The distributed memory refines the flat one, no page is lost, and no fault waits forever.
 */
module DsmTheorems {
  import opened Nodes
  import opened PageLock
  import opened PageCell
  import P = PageMachine
  import DT = DataTransfer
  import opened Coherence
  import opened Dsm

  /** `m` is what the flat memory holds. The pages agree about the members and the departure. */
  ghost predicate Refines(s: seq<P.State>, m: Memory) {
    && |s| == |m| && (forall i :: 0 <= i < |s| ==> Coherence.Inv(s[i], m[i]))
    && (forall i, j :: 0 <= i < |s| && 0 <= j < |s| ==> RosterOf(s[i]) == RosterOf(s[j]))
  }

  /** The members and the departure in progress. */
  datatype Roster = Roster(members: set<NodeId>, leave: P.Leave)

  function RosterOf(s: P.State): Roster {
    Roster(s.cells.Keys, if s.leave.Leaving? then s.leave.(cargo := P.NotOwned) else P.Nobody)
  }

  function NextRoster(r: Roster, e: P.Event): Roster {
    match e
    case Join(n, _) => r.(members := r.members + {n})
    case BeginLeave(n, h) => Roster(r.members - {n}, P.Leaving(n, h, P.NotOwned, r.members - {n}))
    case Notice(n) => if r.leave.Leaving? then r.(leave := r.leave.(due := r.leave.due - {n})) else r
    case EndLeave => r.(leave := P.Nobody)
    case _ => r
  }

  lemma ReturnRoster(s: P.State, n: NodeId)
    requires n in s.cells && s.cells[n].fault.Handling?
    ensures RosterOf(P.DoReturn(s, n)) == RosterOf(s)
  {
    hide Invalidate, EndFault;
    assert P.DoReturn(s, n).cells.Keys == s.cells.Keys;
  }

  lemma PutRoster(s: P.State, n: NodeId, c: Cell)
    requires n in s.cells
    ensures RosterOf(P.Put(s, n, c)) == RosterOf(s)
  {
    assert P.Put(s, n, c).cells.Keys == s.cells.Keys;
  }

  lemma PageStepRoster(s: P.State, e: P.Event)
    requires P.Enabled(s, e) && !Membership(e)
    ensures RosterOf(P.Step(s, e)) == RosterOf(s)
  {
    hide P.DoReturn, P.Put, Update, EndFault, BeginFault, Copied, P.WithMode, P.AskFor, P.Compatible;
    match e
    case CallLock(n, t) => PutRoster(s, n, P.AskFor(s.cells[n], t));
    case Grant(n) => PutRoster(s, n, s.cells[n].(granted := true));
    case CallUnlock(n) => PutRoster(s, n, P.WithMode(s.cells[n], Unlocked, false));
    case AccessFault(n, w) => PutRoster(s, n, BeginFault(s.cells[n], n, w));
    case FaultReturns(n) => ReturnRoster(s, n);
    case Store(n, i, v) => PutRoster(s, n, s.cells[n].(bytes := s.cells[n].bytes[i := v]));
    case DeliverAsk(d, r) => PutRoster(s.(asks := s.asks - multiset{P.AskPage(d, r)}), d, Copied(s.cells[d]));
    case DeliverPage(d, x, b) => PutRoster(s, d, Update(s.cells[d], x, x, b, false));
    case DropAsk(_, _) =>
  }

  lemma NoticeRoster(s: P.State, n: NodeId)
    requires n in s.cells && s.leave.Leaving?
    ensures RosterOf(P.DoNotice(s, n)) == NextRoster(RosterOf(s), P.Notice(n))
  {
    hide Update, Inherit;
    assert P.DoNotice(s, n).cells.Keys == s.cells.Keys;
  }

  lemma StepRoster(s: P.State, e: P.Event)
    requires P.Enabled(s, e)
    ensures RosterOf(P.Step(s, e)) == NextRoster(RosterOf(s), e)
  {
    hide P.DoNotice;
    match e
    case Join(n, c) => assert P.Put(s, n, Joined(s.cells[c].owner)).cells.Keys == s.cells.Keys + {n};
    case BeginLeave(n, h) => assert P.DoLeave(s, n, h).cells.Keys == s.cells.Keys - {n};
    case Notice(n) => NoticeRoster(s, n);
    case EndLeave =>
    case _ => PageStepRoster(s, e);
  }

  lemma StepRefines(s: seq<P.State>, m: Memory, e: Event)
    requires Enabled(s, e) && Refines(s, m)
    ensures Refines(Step(s, e), Written(m, e))
  {
    hide Inv, P.Enabled, P.Step, RosterOf;
    var s', m' := Step(s, e), Written(m, e);
    match e
    case On(k, x) =>
      StepKeepsInv(s[k], m[k], x);
      StepRoster(s[k], x);
    case All(x) =>
      forall i | 0 <= i < |s| ensures Inv(s'[i], m'[i]) && RosterOf(s'[i]) == NextRoster(RosterOf(s[i]), x) {
        StepKeepsInv(s[i], m[i], x);
        NoStore(m[i], x);
        StepRoster(s[i], x);
      }
  }

  lemma NoStore(b: Bytes, e: P.Event)
    requires Membership(e)
    ensures P.Written(b, e) == b
  {}

  /** Every run of faults, stores, page transfers, joins and departures refines the flat memory. */
  lemma {:induction false} RunRefines(s: seq<P.State>, m: Memory, es: seq<Event>)
    requires Refines(s, m) && IsRun(s, es)
    ensures Refines(After(s, es), Flat(m, es))
    decreases |es|
  {
    hide Refines, Enabled, Step;
    if es != [] {
      StepRefines(s, m, es[0]);
      RunRefines(Step(s, es[0]), Written(m, es[0]), es[1..]);
    }
  }

  lemma InitRefines(first: NodeId, pages: nat)
    ensures Refines(Init(first, pages), Zeros(pages))
  {
    InitInv(first);
  }

  // --- What a program sees.

  ghost predicate Reachable(s: seq<P.State>, m: Memory) {
    exists first, es :: IsRun(Init(first, |s|), es) && s == After(Init(first, |s|), es) && m == Flat(Zeros(|s|), es)
  }

  lemma ReachableRefines(s: seq<P.State>, m: Memory)
    requires Reachable(s, m)
    ensures Refines(s, m)
  {
    hide Refines;
    var first, es :| IsRun(Init(first, |s|), es) && s == After(Init(first, |s|), es) && m == Flat(Zeros(|s|), es);
    InitRefines(first, |s|);
    RunRefines(Init(first, |s|), Zeros(|s|), es);
  }

  /** A page that can be read, or that counts as up to date, holds what the flat memory holds,
      that is, the last value stored at every offset. */
  lemma ReadsSeeLastStore(s: seq<P.State>, m: Memory, i: nat, n: NodeId)
    requires Reachable(s, m) && i < |s| && n in s[i].cells
    ensures i < |m|
    ensures s[i].cells[n].prot != NoAccess || s[i].cells[n].upToDate || s[i].cells[n].owner == n ==> s[i].cells[n].bytes == m[i]
  {
    hide IsRun, After, ApartInv, OwnerInv, MessageInv;
    ReachableRefines(s, m);
    CellFacts(s[i], m[i], n);
  }

  /** A page that can be written belongs to this node, which is in the lock for writing, and no
      other node has a valid or readable copy. */
  lemma WritersAreAlone(s: seq<P.State>, m: Memory, i: nat, n: NodeId)
    requires Reachable(s, m) && i < |s| && n in s[i].cells && s[i].cells[n].prot == ReadWrite
    ensures s[i].cells[n].granted && s[i].cells[n].mode == Writing
    ensures forall k {:trigger s[i].cells[k]} :: k in s[i].cells ==> s[i].cells[k].owner == n
    ensures forall k {:trigger s[i].cells[k]} :: k in s[i].cells && k != n ==> s[i].cells[k].prot == NoAccess && !s[i].cells[k].upToDate
  {
    hide IsRun, After, MessageInv, OwnerInv;
    ReachableRefines(s, m);
    CellFacts(s[i], m[i], n);
  }

  /** A page that can be accessed without its lock is the up-to-date copy of its owner, and it
      can only be read. */
  lemma AccessNeedsLock(s: seq<P.State>, m: Memory, i: nat, n: NodeId)
    requires Reachable(s, m) && i < |s| && n in s[i].cells && s[i].cells[n].prot != NoAccess
    ensures s[i].cells[n].mode != Unlocked || (s[i].cells[n].prot == ReadOnly && s[i].cells[n].upToDate && s[i].cells[n].owner == n)
  {
    hide IsRun, After, ApartInv, OwnerInv, MessageInv;
    ReachableRefines(s, m);
    CellFacts(s[i], m[i], n);
  }

  /** Unless a departure is being announced, all members agree on the owner of each page, and
      it is a member that holds the latest bytes. */
  lemma NoPageIsLost(s: seq<P.State>, m: Memory, i: nat)
    requires Reachable(s, m) && i < |s| && s[i].leave == P.Nobody
    ensures i < |m| && exists o :: Agreed(s[i], o) && s[i].cells[o].bytes == m[i]
  {
    hide IsRun, After, ApartInv, MessageInv;
    ReachableRefines(s, m);
    var o :| Agreed(s[i], o);
    CellFacts(s[i], m[i], o);
  }

  /** While a departure is announced, either the same holds, or the leaver owned the page and
      its bytes are at the heir or in the message to it: every member that was not told yet
      believes in the leaver, all others in the heir. */
  lemma NoPageIsLostInDeparture(s: seq<P.State>, m: Memory, i: nat)
    requires Reachable(s, m) && i < |s| && s[i].leave.Leaving?
    ensures i < |m| && s[i].leave.heir in s[i].cells && s[i].leave.leaver !in s[i].cells
    ensures || (exists o :: Agreed(s[i], o) && s[i].cells[o].bytes == m[i])
            || (HandOver(s[i])
                && m[i] == if s[i].leave.heir in s[i].leave.due then s[i].leave.cargo.bytes else s[i].cells[s[i].leave.heir].bytes)
  {
    hide IsRun, After, ApartInv, MessageInv;
    ReachableRefines(s, m);
    if HandOver(s[i]) {
      CellFacts(s[i], m[i], s[i].leave.heir);
    } else {
      var o :| Agreed(s[i], o);
      CellFacts(s[i], m[i], o);
    }
  }

  /** What the last node gets back from `leave_DSM` is the flat memory. */
  lemma LastCopyIsFlat(s: seq<P.State>, m: Memory, n: NodeId)
    requires Reachable(s, m) && |s| > 0 && s[0].cells.Keys == {n} && s[0].leave == P.Nobody
    ensures forall i :: 0 <= i < |s| ==> n in s[i].cells
    ensures Buffer(s, n) == m
  {
    hide IsRun, After, ApartInv, MessageInv, CellsInv;
    ReachableRefines(s, m);
    forall i | 0 <= i < |s| ensures n in s[i].cells && s[i].cells[n].bytes == m[i] {
      assert RosterOf(s[i]) == RosterOf(s[0]);
      var o :| Agreed(s[i], o);
      assert o in s[i].cells.Keys;
      CellFacts(s[i], m[i], n);
    }
  }

  /** The owner that a request reaches always has the page: no ASK_PAGE is ever passed on. */
  lemma AsksAreAnswered(s: seq<P.State>, m: Memory, i: nat, d: NodeId, r: NodeId)
    requires Reachable(s, m) && i < |s| && P.Enabled(s[i], P.DeliverAsk(d, r))
    ensures i < |m| && r in s[i].cells && s[i].cells[r].syncing && P.PageMail(r, d, m[i]) in P.Step(s[i], P.DeliverAsk(d, r)).mail
  {
    hide IsRun, After, ApartInv, OwnerInv;
    ReachableRefines(s, m);
    AskFacts(s[i], m[i], d, r);
    CellFacts(s[i], m[i], d);
  }

  // --- No fault waits forever.

  predicate Delivery(e: Event) {
    if e.On? then e.e.DeliverAsk? || e.e.DropAsk? || e.e.DeliverPage? else e.e.Notice?
  }

  /** A bound on the deliveries still to come: a member that is told about a departure may ask
      again, and a request may be answered. */
  function Work(s: P.State): nat {
    (if s.leave.Leaving? then 3 * |s.leave.due| else 0) + 2 * |s.asks| + |s.mail|
  }

  function TotalWork(s: seq<P.State>): nat {
    if s == [] then 0 else Work(s[0]) + TotalWork(s[1..])
  }

  lemma {:induction false} WorkDecreases(s: seq<P.State>, t: seq<P.State>, k: nat)
    requires |s| == |t| && k < |s| && Work(t[k]) < Work(s[k]) && forall i :: 0 <= i < |s| ==> Work(t[i]) <= Work(s[i])
    ensures TotalWork(t) < TotalWork(s)
  {
    if k > 0 {
      WorkDecreases(s[1..], t[1..], k - 1);
    } else {
      WorkDoesNotGrow(s[1..], t[1..]);
    }
  }

  lemma {:induction false} WorkDoesNotGrow(s: seq<P.State>, t: seq<P.State>)
    requires |s| == |t| && forall i :: 0 <= i < |s| ==> Work(t[i]) <= Work(s[i])
    ensures TotalWork(t) <= TotalWork(s)
  {
    if s != [] {
      WorkDoesNotGrow(s[1..], t[1..]);
    }
  }

  lemma NoticeWorks(s: P.State, n: NodeId)
    requires P.Enabled(s, P.Notice(n))
    ensures Work(P.Step(s, P.Notice(n))) < Work(s)
  {
    hide Update, Inherit;
    var s', l := P.Step(s, P.Notice(n)), s.leave;
    assert s'.leave.due == l.due - {n};
    assert |l.due - {n}| == |l.due| - 1;
    assert |s'.asks| <= |s.asks| + 1 && s'.mail == s.mail;
  }

  lemma AnswerWorks(s: P.State, d: NodeId, r: NodeId)
    requires P.Enabled(s, P.DeliverAsk(d, r)) && s.cells[d].owner == d
    ensures Work(P.DoAsk(s, d, r)) < Work(s)
  {
    hide Copied;
    assert P.DoAsk(s, d, r).asks == s.asks - multiset{P.AskPage(d, r)};
    assert |s.asks - multiset{P.AskPage(d, r)}| == |s.asks| - 1;
  }

  lemma DropWorks(s: P.State, d: NodeId, r: NodeId)
    requires P.Enabled(s, P.DropAsk(d, r))
    ensures Work(P.Step(s, P.DropAsk(d, r))) < Work(s)
  {
    assert |s.asks - multiset{P.AskPage(d, r)}| == |s.asks| - 1;
  }

  lemma PageWorks(s: P.State, d: NodeId, x: NodeId, b: Bytes)
    requires P.Enabled(s, P.DeliverPage(d, x, b))
    ensures Work(P.DoPage(s, d, x, b)) < Work(s)
  {
    hide Update;
    assert P.DoPage(s, d, x, b).mail == s.mail - multiset{P.PageMail(d, x, b)};
    assert |s.mail - multiset{P.PageMail(d, x, b)}| == |s.mail| - 1;
  }

  lemma DeliveryWorks(s: P.State, flat: Bytes, e: P.Event)
    requires Inv(s, flat) && P.Enabled(s, e) && (e.DeliverAsk? || e.DropAsk? || e.DeliverPage? || e.Notice?)
    ensures Work(P.Step(s, e)) < Work(s)
  {
    hide CellsInv, ApartInv, OwnerInv, MessageInv, Work;
    match e
    case DeliverAsk(d, r) => AskFacts(s, flat, d, r); AnswerWorks(s, d, r);
    case DropAsk(d, r) => DropWorks(s, d, r);
    case DeliverPage(d, x, b) => PageWorks(s, d, x, b);
    case Notice(n) => NoticeWorks(s, n);
  }

  /** A run of deliveries alone is never longer than the work it starts with. */
  lemma {:induction false} DeliveriesEnd(s: seq<P.State>, m: Memory, es: seq<Event>)
    requires |s| > 0 && Refines(s, m) && IsRun(s, es) && forall e :: e in es ==> Delivery(e)
    ensures |es| <= TotalWork(s)
    decreases |es|
  {
    hide P.Enabled, P.Step, Inv, RosterOf, Work;
    if es != [] {
      var e, s' := es[0], Step(s, es[0]);
      assert Delivery(e);
      StepRefines(s, m, e);
      if e.On? {
        DeliveryWorks(s[e.page], m[e.page], e.e);
        WorkDecreases(s, s', e.page);
      } else {
        forall i | 0 <= i < |s| ensures Work(s'[i]) < Work(s[i]) { DeliveryWorks(s[i], m[i], e.e); }
        WorkDecreases(s, s', 0);
      }
      DeliveriesEnd(s', Written(m, e), es[1..]);
    }
  }

  ghost predicate Quiet(s: seq<P.State>) {
    forall e :: Delivery(e) ==> !Enabled(s, e)
  }

  lemma QuietMeansNoMail(s: seq<P.State>, m: Memory, i: nat)
    requires Refines(s, m) && i < |s| && Quiet(s)
    ensures s[i].mail == multiset{}
  {
    hide ApartInv, CellsInv, OwnerInv, MessageInv, Quiet;
    forall p ensures p !in s[i].mail {
      NotEnabled(s, On(i, P.DeliverPage(p.dst, p.sender, p.bytes)));
      if p in s[i].mail { MailFacts(s[i], m[i], p); }
    }
  }

  lemma QuietMeansTold(s: seq<P.State>, m: Memory, i: nat)
    requires Refines(s, m) && i < |s| && Quiet(s) && s[i].leave.Leaving?
    ensures s[i].leave.due == {}
  {
    hide ApartInv, CellsInv, MessageInv, Quiet;
    var l := s[i].leave;
    if n :| n in l.due {
      var k := if l.heir in l.due then l.heir else n;
      forall j | 0 <= j < |s| ensures P.Enabled(s[j], P.Notice(k)) {
        QuietMeansNoMail(s, m, j);
        assert RosterOf(s[j]) == RosterOf(s[i]);
      }
      assert Delivery(All(P.Notice(k)));
      NotEnabled(s, All(P.Notice(k)));
    }
  }

  lemma NotEnabled(s: seq<P.State>, e: Event)
    requires Quiet(s) && Delivery(e)
    ensures !Enabled(s, e)
  {}

  lemma AwaitedFacts(s: P.State, flat: Bytes, n: NodeId)
    requires MessageInv(s, flat) && n in s.cells
    ensures s.cells[n].syncing ==> Awaited(s, n, flat)
  {}

  /** When no delivery is left, no fault handler waits for a page, although a leaver drops the
      requests that reach it. */
  lemma NobodyIsStranded(s: seq<P.State>, m: Memory, i: nat, n: NodeId)
    requires Refines(s, m) && i < |s| && n in s[i].cells && Quiet(s)
    ensures !s[i].cells[n].syncing
  {
    hide ApartInv, CellsInv, OwnerInv, MessageInv, Quiet;
    AwaitedFacts(s[i], m[i], n);
    QuietMeansNoMail(s, m, i);
    if s[i].leave.Leaving? { QuietMeansTold(s, m, i); }
    NotEnabled(s, On(i, P.DeliverAsk(s[i].cells[n].owner, n)));
  }

  ghost predicate AllAwake(s: seq<P.State>) {
    forall i, n :: 0 <= i < |s| && n in s[i].cells ==> !s[i].cells[n].syncing
  }

  /** After any run, deliveries alone come to an end, and then every fault has its page. */
  lemma FaultsComplete(s: seq<P.State>, m: Memory, es: seq<Event>)
    requires Reachable(s, m) && |s| > 0 && IsRun(s, es) && forall e :: e in es ==> Delivery(e)
    ensures |es| <= TotalWork(s)
    ensures Quiet(After(s, es)) ==> AllAwake(After(s, es))
  {
    hide Refines, Reachable, Quiet, Enabled, Step, Delivery, TotalWork, IsRun, After;
    ReachableRefines(s, m);
    DeliveriesEnd(s, m, es);
    RunRefines(s, m, es);
    var s', m' := After(s, es), Flat(m, es);
    if Quiet(s') {
      forall i, n | 0 <= i < |s'| && n in s'[i].cells ensures !s'[i].cells[n].syncing {
        NobodyIsStranded(s', m', i, n);
      }
    }
  }

  // --- The loops of a departure do what a notice does to each page.

  /** The pages of node `n`. */
  function Row(s: seq<P.State>, n: NodeId): (r: seq<Cell>)
    requires forall i :: 0 <= i < |s| ==> n in s[i].cells
    ensures |r| == |s| && forall i :: 0 <= i < |s| ==> r[i] == s[i].cells[n]
  {
    seq(|s|, i requires 0 <= i < |s| => s[i].cells[n])
  }

  /** `gone` are the pages of the leaver when it left. */
  ghost predicate Announces(s: seq<P.State>, gone: seq<Cell>, leaver: NodeId, heir: NodeId) {
    |gone| == |s| && forall i :: 0 <= i < |s| ==>
      && s[i].leave.Leaving? && s[i].leave.leaver == leaver && s[i].leave.heir == heir
      && s[i].leave.cargo == if gone[i].owner == leaver then P.Owned(gone[i].bytes) else P.NotOwned
  }

  lemma LeaveAnnounces(s: seq<P.State>, n: NodeId, heir: NodeId)
    requires Enabled(s, All(P.BeginLeave(n, heir)))
    ensures forall i :: 0 <= i < |s| ==> P.Enabled(s[i], P.BeginLeave(n, heir))
    ensures Announces(Step(s, All(P.BeginLeave(n, heir))), Row(s, n), n, heir)
  {}

  function Noticed(c: Cell, l: P.Leave, n: NodeId): Cell
    requires l.Leaving?
  {
    if l.cargo == P.NotOwned then c
    else if n == l.heir then Update(c, l.heir, l.leaver, l.cargo.bytes, true)
    else Inherit(c, l.leaver, l.heir)
  }

  lemma NoticeAt(s: P.State, n: NodeId)
    requires P.Enabled(s, P.Notice(n))
    ensures var t := P.Step(s, P.Notice(n)); n in t.cells && t.cells[n] == Noticed(s.cells[n], s.leave, n)
  {
    hide Update, Inherit;
  }

  lemma NoticedRow(s: seq<P.State>, n: NodeId)
    requires Enabled(s, All(P.Notice(n)))
    ensures |Step(s, All(P.Notice(n)))| == |s| && forall i :: 0 <= i < |s| ==> n in s[i].cells && s[i].leave.Leaving?
    ensures forall i :: 0 <= i < |s| ==> n in Step(s, All(P.Notice(n)))[i].cells
    ensures var r := Row(Step(s, All(P.Notice(n))), n); forall i :: 0 <= i < |s| ==> r[i] == Noticed(s[i].cells[n], s[i].leave, n)
  {
    hide Noticed, P.Step;
    forall i | 0 <= i < |s| ensures n in s[i].cells && s[i].leave.Leaving? && n in Step(s, All(P.Notice(n)))[i].cells
      && Step(s, All(P.Notice(n)))[i].cells[n] == Noticed(s[i].cells[n], s[i].leave, n)
    {
      assert P.Enabled(s[i], P.Notice(n));
      NoticeAt(s[i], n);
    }
  }

  /** The notice at `n` is the loop of RECV_PAGE_LEAVE at the heir, and that of DT_LEAVE elsewhere,
      over the pages `gone` of the leaver. */
  ghost predicate LoopsAt(s: seq<P.State>, gone: seq<Cell>, leaver: NodeId, heir: NodeId, n: NodeId) {
    && Enabled(s, All(P.Notice(n))) && |gone| == |s|
    && var s' := Step(s, All(P.Notice(n)));
    && |s'| == |s| && (forall i :: 0 <= i < |s| ==> n in s[i].cells) && (forall i :: 0 <= i < |s'| ==> n in s'[i].cells)
    && DT.EntriesInRange(DT.Pack(gone, DT.Owned(gone, leaver), heir), |s|)
    && Row(s', n) == if n == heir then DT.TakeOver(Row(s, n), leaver, DT.Pack(gone, DT.Owned(gone, leaver), heir))
                     else DT.Redirect(Row(s, n), leaver, heir, DT.Owned(gone, leaver))
  }

  lemma NoticeRunsTheLoops(s: seq<P.State>, gone: seq<Cell>, leaver: NodeId, heir: NodeId, n: NodeId)
    requires Announces(s, gone, leaver, heir) && Enabled(s, All(P.Notice(n)))
    ensures LoopsAt(s, gone, leaver, heir, n)
  {
    hide Update, Inherit, Enabled, Step;
    NoticedRow(s, n);
    LoopsAreNotices(Row(s, n), Row(Step(s, All(P.Notice(n))), n), gone, leaver, heir, n == heir);
  }

  lemma LoopsAreNotices(cells: seq<Cell>, r: seq<Cell>, gone: seq<Cell>, leaver: NodeId, heir: NodeId, isHeir: bool)
    requires |gone| == |cells| == |r|
    requires forall i :: 0 <= i < |cells| ==>
      (r[i] == if gone[i].owner != leaver then cells[i]
               else if isHeir then Update(cells[i], heir, leaver, gone[i].bytes, true)
               else Inherit(cells[i], leaver, heir))
    ensures DT.EntriesInRange(DT.Pack(gone, DT.Owned(gone, leaver), heir), |cells|)
    ensures r == if isHeir then DT.TakeOver(cells, leaver, DT.Pack(gone, DT.Owned(gone, leaver), heir))
                 else DT.Redirect(cells, leaver, heir, DT.Owned(gone, leaver))
  {
    hide Update, Inherit;
    forall i | 0 <= i < |cells| ensures r[i]
      == if isHeir then DT.TakeOver(cells, leaver, DT.Pack(gone, DT.Owned(gone, leaver), heir))[i]
         else DT.Redirect(cells, leaver, heir, DT.Owned(gone, leaver))[i]
    {
      DT.DepartureByPage(gone, cells, leaver, heir, i);
    }
  }

  /** Only the last notice ends the departure: its leaver, its heir and its cargo stay. */
  lemma LeaveStays(s: P.State, e: P.Event)
    requires P.Enabled(s, e) && s.leave.Leaving? && !e.EndLeave?
    ensures var l, l' := s.leave, P.Step(s, e).leave;
      l'.Leaving? && l'.leaver == l.leaver && l'.heir == l.heir && l'.cargo == l.cargo
  {
    hide Update, EndFault, BeginFault, Copied, Inherit, Invalidate, P.WithMode, P.AskFor, P.Compatible;
    match e
    case Notice(n) =>
    case _ =>
  }

  lemma AnnouncesStep(s: seq<P.State>, gone: seq<Cell>, leaver: NodeId, heir: NodeId, e: Event)
    requires Announces(s, gone, leaver, heir) && Enabled(s, e) && e != All(P.EndLeave)
    ensures Announces(Step(s, e), gone, leaver, heir)
  {
    hide P.Enabled, P.Step;
    match e
    case On(k, x) => LeaveStays(s[k], x);
    case All(x) => forall i | 0 <= i < |s| ensures P.Step(s[i], x).leave.Leaving? && P.Step(s[i], x).leave.leaver == leaver
      && P.Step(s[i], x).leave.heir == heir && P.Step(s[i], x).leave.cargo == s[i].leave.cargo { LeaveStays(s[i], x); }
  }

  /** From the start of a departure to its end, every message of it carries the pages that the
      leaver owned when it left. */
  lemma {:induction false} AnnouncesRun(s: seq<P.State>, gone: seq<Cell>, leaver: NodeId, heir: NodeId, es: seq<Event>)
    requires Announces(s, gone, leaver, heir) && IsRun(s, es) && All(P.EndLeave) !in es
    ensures Announces(After(s, es), gone, leaver, heir)
    decreases |es|
  {
    hide Announces, Enabled, Step;
    if es != [] {
      AnnouncesStep(s, gone, leaver, heir, es[0]);
      AnnouncesRun(Step(s, es[0]), gone, leaver, heir, es[1..]);
    }
  }

  /** In every run: a departure begins, anything happens before it ends, and then the notice at
      `k` does to its pages what the handler loops compute from the pages of the leaver. */
  lemma DepartureRunsTheLoops(s: seq<P.State>, n: NodeId, heir: NodeId, es: seq<Event>, k: NodeId)
    requires Enabled(s, All(P.BeginLeave(n, heir)))
    requires IsRun(Step(s, All(P.BeginLeave(n, heir))), es) && All(P.EndLeave) !in es
    requires Enabled(After(Step(s, All(P.BeginLeave(n, heir))), es), All(P.Notice(k)))
    ensures forall i :: 0 <= i < |s| ==> n in s[i].cells
    ensures LoopsAt(After(Step(s, All(P.BeginLeave(n, heir))), es), Row(s, n), n, heir, k)
  {
    hide Announces, Enabled, Step, LoopsAt;
    LeaveAnnounces(s, n, heir);
    LeaverIsHere(s, n, heir);
    var t := After(Step(s, All(P.BeginLeave(n, heir))), es);
    AnnouncesRun(Step(s, All(P.BeginLeave(n, heir))), Row(s, n), n, heir, es);
    NoticeRunsTheLoops(t, Row(s, n), n, heir, k);
  }

  lemma LeaverIsHere(s: seq<P.State>, n: NodeId, heir: NodeId)
    requires Enabled(s, All(P.BeginLeave(n, heir)))
    ensures forall i :: 0 <= i < |s| ==> n in s[i].cells
  {
    forall i | 0 <= i < |s| ensures n in s[i].cells { assert P.Enabled(s[i], P.BeginLeave(n, heir)); }
  }
}
