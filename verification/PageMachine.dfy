/**
 One page on all nodes. The page lock is an abstract readers-writer lock, INVALIDATION is
 delivered in the step that sends it, links are FIFO, and joins and departures come one at a
 time because they happen inside the critical section.
 */
module PageMachine {
  import opened Nodes
  import opened PageLock
  import opened PageCell

  datatype AskPage = AskPage(dst: NodeId, requester: NodeId)

  /** RECV_PAGE; the sender is the owner it announces. */
  datatype PageMail = PageMail(dst: NodeId, sender: NodeId, bytes: Bytes)

  /** The bytes of the page if the leaver owned it. */
  datatype Cargo = NotOwned | Owned(bytes: Bytes)

  /** `due` are the members that have not yet received RECV_PAGE_LEAVE (`heir`) or DT_LEAVE. */
  datatype Leave = Nobody | Leaving(leaver: NodeId, heir: NodeId, cargo: Cargo, due: set<NodeId>)

  datatype State = State(cells: map<NodeId, Cell>, asks: multiset<AskPage>, mail: multiset<PageMail>, leave: Leave)

  datatype Event =
    | CallLock(n: NodeId, t: LockType)
    | Grant(n: NodeId)
    | CallUnlock(n: NodeId)
    | AccessFault(n: NodeId, write: bool)
    | FaultReturns(n: NodeId)
    | Store(n: NodeId, offset: nat, value: int)
    | DeliverAsk(at: NodeId, requester: NodeId)
    | DropAsk(at: NodeId, requester: NodeId)
    | DeliverPage(at: NodeId, sender: NodeId, bytes: Bytes)
    | Join(n: NodeId, contact: NodeId)
    | BeginLeave(n: NodeId, heir: NodeId)
    | Notice(n: NodeId)
    | EndLeave

  function Put(s: State, n: NodeId, c: Cell): State {
    s.(cells := s.cells[n := c])
  }

  /** The readers-writer lock lets `n` in. */
  predicate Compatible(s: State, n: NodeId)
    requires n in s.cells
  {
    forall m {:trigger s.cells[m]} :: m in s.cells && m != n && s.cells[m].granted
      ==> s.cells[n].mode == Reading && s.cells[m].mode == Reading
  }

  predicate Permits(p: Prot, write: bool) {
    p == ReadWrite || (p == ReadOnly && !write)
  }

  /** The caller of each node is either in the program, in `ask_lock` or in the fault handler. */
  predicate Idle(c: Cell) {
    c.fault == NoFault && (c.mode == Unlocked || c.granted)
  }

  predicate Enabled(s: State, e: Event) {
    match e
    case CallLock(n, t) => n in s.cells && Idle(s.cells[n])
    case Grant(n) => n in s.cells && s.cells[n].mode != Unlocked && !s.cells[n].granted && Compatible(s, n)
    case CallUnlock(n) => n in s.cells && Idle(s.cells[n]) && s.cells[n].granted
    case AccessFault(n, w) =>
      && n in s.cells && Idle(s.cells[n]) && !Permits(s.cells[n].prot, w)
      && s.cells[n].granted && (w ==> s.cells[n].mode == Writing)
    case FaultReturns(n) => n in s.cells && s.cells[n].fault.Handling? && !s.cells[n].syncing
    case Store(n, i, _) => n in s.cells && Idle(s.cells[n]) && s.cells[n].prot == ReadWrite && i < |s.cells[n].bytes|
    case DeliverAsk(d, r) => d in s.cells && AskPage(d, r) in s.asks
    case DropAsk(d, r) => d !in s.cells && AskPage(d, r) in s.asks
    case DeliverPage(d, x, b) => d in s.cells && PageMail(d, x, b) in s.mail
    case Join(n, c) => n !in s.cells && c in s.cells && s.leave == Nobody && forall a :: a in s.asks ==> a.dst != n
    case BeginLeave(n, h) => n in s.cells && h in s.cells && n != h && Idle(s.cells[n]) && s.leave == Nobody
    case Notice(n) =>
      && s.leave.Leaving? && n in s.leave.due && n in s.cells
      && (n == s.leave.heir || s.leave.heir !in s.leave.due)
      && forall m :: m in s.mail ==> m.dst != n || m.sender != s.leave.leaver
    case EndLeave => s.leave.Leaving? && s.leave.due == {}
  }

  /** `lock_read` and `lock_write` protect the page first; `ask_lock` does nothing for a page that
      is locked already. */
  function AskFor(c: Cell, t: LockType): Cell {
    if c.mode == Unlocked then WithMode(c, Status(t), false) else c.(prot := NoAccess)
  }

  function WithMode(c: Cell, mode: Mode, granted: bool): Cell {
    c.(mode := mode, granted := granted, prot := NoAccess)
  }

  function DoFault(s: State, n: NodeId, write: bool): State
    requires n in s.cells
  {
    var c := BeginFault(s.cells[n], n, write);
    Put(s, n, c).(asks := s.asks + if c.syncing then multiset{AskPage(c.owner, n)} else multiset{})
  }

  predicate Claims(c: Cell) {
    c.fault.Handling? && c.fault.write && c.mode == Writing
  }

  function DoReturn(s: State, n: NodeId): State
    requires n in s.cells && s.cells[n].fault.Handling?
  {
    var done := Put(s, n, EndFault(s.cells[n], n));
    if Claims(s.cells[n]) then
      done.(cells := map m | m in s.cells :: if m == n then done.cells[n] else Invalidate(s.cells[m], m, n))
    else done
  }

  function DoStore(s: State, n: NodeId, i: nat, v: int): State
    requires n in s.cells && i < |s.cells[n].bytes|
  {
    Put(s, n, s.cells[n].(bytes := s.cells[n].bytes[i := v]))
  }

  /** The owner answers, any other node passes the request on. */
  function DoAsk(s: State, d: NodeId, r: NodeId): State
    requires d in s.cells
  {
    var left := s.(asks := s.asks - multiset{AskPage(d, r)});
    if s.cells[d].owner == d then
      Put(left, d, Copied(s.cells[d])).(mail := s.mail + multiset{PageMail(r, d, s.cells[d].bytes)})
    else
      left.(asks := left.asks + multiset{AskPage(s.cells[d].owner, r)})
  }

  function DoPage(s: State, d: NodeId, x: NodeId, b: Bytes): State
    requires d in s.cells
  {
    Put(s, d, Update(s.cells[d], x, x, b, false)).(mail := s.mail - multiset{PageMail(d, x, b)})
  }

  function DoLeave(s: State, n: NodeId, heir: NodeId): State
    requires n in s.cells
  {
    var cargo := if s.cells[n].owner == n then Owned(s.cells[n].bytes) else NotOwned;
    s.(cells := s.cells - {n}, leave := Leaving(n, heir, cargo, s.cells.Keys - {n}))
  }

  /** RECV_PAGE_LEAVE at the heir, DT_LEAVE elsewhere. A waiting fault asks the heir. */
  function DoNotice(s: State, n: NodeId): State
    requires n in s.cells && s.leave.Leaving?
  {
    var l, c := s.leave, s.cells[n];
    var told := s.(leave := l.(due := l.due - {n}));
    if l.cargo == NotOwned then told
    else if n == l.heir then Put(told, n, Update(c, l.heir, l.leaver, l.cargo.bytes, true))
    else
      Put(told, n, Inherit(c, l.leaver, l.heir)).(
        asks := s.asks + if c.owner == l.leaver && c.syncing then multiset{AskPage(l.heir, n)} else multiset{})
  }

  function Step(s: State, e: Event): State
    requires Enabled(s, e)
  {
    match e
    case CallLock(n, t) => Put(s, n, AskFor(s.cells[n], t))
    case Grant(n) => Put(s, n, s.cells[n].(granted := true))
    case CallUnlock(n) => Put(s, n, WithMode(s.cells[n], Unlocked, false))
    case AccessFault(n, w) => DoFault(s, n, w)
    case FaultReturns(n) => DoReturn(s, n)
    case Store(n, i, v) => DoStore(s, n, i, v)
    case DeliverAsk(d, r) => DoAsk(s, d, r)
    case DropAsk(d, r) => s.(asks := s.asks - multiset{AskPage(d, r)})
    case DeliverPage(d, x, b) => DoPage(s, d, x, b)
    case Join(n, c) => Put(s, n, Joined(s.cells[c].owner))
    case BeginLeave(n, h) => DoLeave(s, n, h)
    case Notice(n) => DoNotice(s, n)
    case EndLeave => s.(leave := Nobody)
  }

  function Init(first: NodeId): State {
    State(map[first := Created(first)], multiset{}, multiset{}, Nobody)
  }

  predicate IsRun(s: State, es: seq<Event>)
    decreases |es|
  {
    es == [] || (Enabled(s, es[0]) && IsRun(Step(s, es[0]), es[1..]))
  }

  function After(s: State, es: seq<Event>): State
    requires IsRun(s, es)
    decreases |es|
  {
    if es == [] then s else After(Step(s, es[0]), es[1..])
  }

  // --- The specification: one copy of the page, which only stores change.

  function Written(flat: Bytes, e: Event): Bytes {
    if e.Store? && e.offset < |flat| then flat[e.offset := e.value] else flat
  }

  function Flat(flat: Bytes, es: seq<Event>): Bytes
    decreases |es|
  {
    if es == [] then flat else Flat(Written(flat, es[0]), es[1..])
  }
}
