/**
 Every copy that a program can read equals the one flat page.
 */
module Coherence {
  import opened Nodes
  import opened PageLock
  import opened PageCell
  import opened PageMachine

  /** A copy that the node may use. */
  predicate Usable(n: NodeId, c: Cell) {
    c.prot != NoAccess || c.upToDate || c.owner == n
  }

  predicate CellOk(n: NodeId, c: Cell, flat: Bytes) {
    && (Usable(n, c) ==> c.bytes == flat)
    && (c.prot == ReadWrite ==> c.granted && c.mode == Writing && c.owner == n && c.fault == NoFault)
    && (c.prot != NoAccess && c.mode == Unlocked ==> c.prot == ReadOnly && c.upToDate && c.owner == n)
    && (c.granted ==> c.mode != Unlocked)
    && (c.fault.Handling? ==> c.granted && (c.fault.write ==> c.mode == Writing))
    && (c.fault.Handling? && !c.syncing ==> c.upToDate || c.owner == n)
    && (c.syncing ==> c.fault.Handling? && !c.upToDate && c.owner != n)
  }

  ghost predicate CellsInv(s: State, flat: Bytes) {
    forall n {:trigger s.cells[n]} :: n in s.cells ==> CellOk(n, s.cells[n], flat)
  }

  /** Two nodes that are in the lock together are readers; beside a writable copy
      there is no other, and nobody believes in another owner. */
  predicate Apart(c: Cell, d: Cell) {
    && (c.granted && d.granted ==> c.mode == Reading && d.mode == Reading)
    && (c.prot == ReadWrite ==> d.prot == NoAccess && !d.upToDate && d.owner == c.owner)
    && (d.prot == ReadWrite ==> c.prot == NoAccess && !c.upToDate && c.owner == d.owner)
  }

  ghost predicate ApartInv(s: State) {
    forall n, m {:trigger s.cells[n], s.cells[m]} :: n in s.cells && m in s.cells && n != m ==> Apart(s.cells[n], s.cells[m])
  }

  ghost predicate Agreed(s: State, o: NodeId) {
    o in s.cells && forall n {:trigger s.cells[n]} :: n in s.cells ==> s.cells[n].owner == o
  }

  /** The members are being told that the heir takes the page over. */
  ghost predicate HandOver(s: State) {
    && s.leave.Leaving? && s.leave.cargo.Owned?
    && forall n {:trigger s.cells[n]} :: n in s.cells ==>
      s.cells[n].owner == if n in s.leave.due then s.leave.leaver else s.leave.heir
  }

  ghost predicate LeaveOk(s: State, flat: Bytes) {
    s.leave.Leaving? ==>
      && s.leave.leaver !in s.cells && s.leave.heir in s.cells && s.leave.due <= s.cells.Keys
      && (s.leave.heir in s.leave.due ==> s.leave.due == s.cells.Keys)
      && (HandOver(s) && s.leave.heir in s.leave.due ==> s.leave.cargo.bytes == flat)
  }

  ghost predicate OwnerInv(s: State, flat: Bytes) {
    LeaveOk(s, flat) && (HandOver(s) || exists o :: Agreed(s, o))
  }

  /** A request that will be answered. */
  predicate AskOk(s: State, a: AskPage) {
    && a.requester in s.cells && s.cells[a.requester].syncing && s.cells[a.requester].owner == a.dst
    && a.dst in s.cells && s.cells[a.dst].owner == a.dst && s.asks[a] == 1
    && forall m :: m in s.mail ==> m.dst != a.requester
  }

  predicate MailOk(s: State, m: PageMail, flat: Bytes) {
    && m.dst in s.cells && s.cells[m.dst].syncing && s.cells[m.dst].owner == m.sender
    && m.bytes == flat && s.mail[m] == 1
  }

  /** What will wake the fault handler of `n`. */
  predicate Awaited(s: State, n: NodeId, flat: Bytes)
    requires n in s.cells
  {
    || (s.cells[n].owner in s.cells && AskPage(s.cells[n].owner, n) in s.asks)
    || PageMail(n, s.cells[n].owner, flat) in s.mail
    || (s.leave.Leaving? && n in s.leave.due && s.cells[n].owner == s.leave.leaver && s.leave.cargo.Owned?)
  }

  ghost predicate MessageInv(s: State, flat: Bytes) {
    && (forall a :: a in s.asks && a.dst in s.cells ==> AskOk(s, a))
    && (forall m :: m in s.mail ==> MailOk(s, m, flat))
    && (forall n {:trigger s.cells[n]} :: n in s.cells && s.cells[n].syncing ==> Awaited(s, n, flat))
  }

  ghost predicate Inv(s: State, flat: Bytes) {
    CellsInv(s, flat) && ApartInv(s) && OwnerInv(s, flat) && MessageInv(s, flat)
  }

  lemma InitInv(first: NodeId)
    ensures Inv(Init(first), ZeroPage())
  {
    assert Agreed(Init(first), first);
  }

  lemma CellFacts(s: State, flat: Bytes, n: NodeId)
    requires CellsInv(s, flat) && n in s.cells
    ensures CellOk(n, s.cells[n], flat)
  {}

  lemma ApartFacts(s: State, n: NodeId, m: NodeId)
    requires ApartInv(s) && n in s.cells && m in s.cells && n != m
    ensures Apart(s.cells[n], s.cells[m])
  {}

  lemma OneOwner(s: State, flat: Bytes, n: NodeId, m: NodeId)
    requires OwnerInv(s, flat) && n in s.cells && m in s.cells && s.cells[n].owner == n && s.cells[m].owner == m
    ensures n == m
  {}

  // --- Changes of one cell.

  lemma CellsChanged(s: State, flat: Bytes, n: NodeId, c: Cell)
    requires CellsInv(s, flat) && n in s.cells && CellOk(n, c, flat)
    ensures CellsInv(Put(s, n, c), flat)
  {}

  lemma ApartChanged(s: State, n: NodeId, c: Cell)
    requires ApartInv(s) && n in s.cells
    requires forall m {:trigger s.cells[m]} :: m in s.cells && m != n ==> Apart(c, s.cells[m])
    ensures ApartInv(Put(s, n, c))
  {}

  lemma OwnersKept(s: State, flat: Bytes, n: NodeId, c: Cell)
    requires OwnerInv(s, flat) && n in s.cells && c.owner == s.cells[n].owner
    ensures OwnerInv(Put(s, n, c), flat)
  {
    var s' := Put(s, n, c);
    assert forall k {:trigger s'.cells[k]} {:trigger s.cells[k]} :: k in s.cells ==> k in s'.cells && s'.cells[k].owner == s.cells[k].owner;
    assert HandOver(s') <==> HandOver(s);
    if o :| Agreed(s, o) { assert Agreed(s', o); }
  }

  lemma MessagesKept(s: State, flat: Bytes, n: NodeId, c: Cell)
    requires MessageInv(s, flat) && n in s.cells && c.owner == s.cells[n].owner && c.syncing == s.cells[n].syncing
    ensures MessageInv(Put(s, n, c), flat)
  {
    var s' := Put(s, n, c);
    forall a | a in s'.asks && a.dst in s'.cells ensures AskOk(s', a) { assert AskOk(s, a); }
    forall m | m in s'.mail ensures MailOk(s', m, flat) { assert MailOk(s, m, flat); }
    forall k {:trigger s'.cells[k]} | k in s'.cells && s'.cells[k].syncing ensures Awaited(s', k, flat) { assert Awaited(s, k, flat); }
  }

  lemma LocalChange(s: State, flat: Bytes, n: NodeId, c: Cell)
    requires Inv(s, flat) && n in s.cells && c.owner == s.cells[n].owner && c.syncing == s.cells[n].syncing
    requires CellOk(n, c, flat)
    requires forall m {:trigger s.cells[m]} :: m in s.cells && m != n ==> Apart(c, s.cells[m])
    ensures Inv(Put(s, n, c), flat)
  {
    hide CellsInv, ApartInv, OwnerInv, MessageInv, CellOk;
    CellsChanged(s, flat, n, c);
    ApartChanged(s, n, c);
    OwnersKept(s, flat, n, c);
    MessagesKept(s, flat, n, c);
  }

  /** A cell that gives up permissions stays apart from the others. */
  lemma StaysApart(s: State, n: NodeId, c: Cell)
    requires ApartInv(s) && n in s.cells
    requires c.granted ==> s.cells[n].granted && c.mode == s.cells[n].mode
    requires c.prot == NoAccess || c.prot == s.cells[n].prot
    requires c.upToDate == s.cells[n].upToDate && c.owner == s.cells[n].owner
    ensures forall m {:trigger s.cells[m]} :: m in s.cells && m != n ==> Apart(c, s.cells[m])
  {
    forall m {:trigger s.cells[m]} | m in s.cells && m != n ensures Apart(c, s.cells[m]) { ApartFacts(s, n, m); }
  }

  lemma LockKeepsInv(s: State, flat: Bytes, n: NodeId, t: LockType)
    requires Inv(s, flat) && Enabled(s, CallLock(n, t))
    ensures Inv(Step(s, CallLock(n, t)), flat)
  {
    hide CellsInv, ApartInv, OwnerInv, MessageInv;
    var c := AskFor(s.cells[n], t);
    CellFacts(s, flat, n);
    StaysApart(s, n, c);
    LocalChange(s, flat, n, c);
  }

  lemma UnlockKeepsInv(s: State, flat: Bytes, n: NodeId)
    requires Inv(s, flat) && Enabled(s, CallUnlock(n))
    ensures Inv(Step(s, CallUnlock(n)), flat)
  {
    hide CellsInv, ApartInv, OwnerInv, MessageInv;
    var c := WithMode(s.cells[n], Unlocked, false);
    CellFacts(s, flat, n);
    StaysApart(s, n, c);
    LocalChange(s, flat, n, c);
  }

  lemma GrantKeepsInv(s: State, flat: Bytes, n: NodeId)
    requires Inv(s, flat) && Enabled(s, Grant(n))
    ensures Inv(Step(s, Grant(n)), flat)
  {
    hide CellsInv, ApartInv, OwnerInv, MessageInv;
    var c := s.cells[n].(granted := true);
    CellFacts(s, flat, n);
    forall m {:trigger s.cells[m]} | m in s.cells && m != n ensures Apart(c, s.cells[m]) { ApartFacts(s, n, m); }
    LocalChange(s, flat, n, c);
  }

  // --- Faults.

  lemma AskSent(s: State, flat: Bytes, n: NodeId, c: Cell)
    requires n in s.cells && !s.cells[n].syncing && c.syncing && c.owner == s.cells[n].owner && c.owner != n
    requires MessageInv(s, flat)
    requires c.owner in s.cells ==> s.cells[c.owner].owner == c.owner
    requires c.owner !in s.cells ==> s.leave.Leaving? && n in s.leave.due && c.owner == s.leave.leaver && s.leave.cargo.Owned?
    ensures MessageInv(Put(s, n, c).(asks := s.asks + multiset{AskPage(c.owner, n)}), flat)
  {
    var s' := Put(s, n, c).(asks := s.asks + multiset{AskPage(c.owner, n)});
    forall a | a in s'.asks && a.dst in s'.cells ensures AskOk(s', a) {
      if a in s.asks { assert AskOk(s, a); }
      forall m | m in s'.mail ensures m.dst != a.requester { assert MailOk(s, m, flat); }
    }
    forall m | m in s'.mail ensures MailOk(s', m, flat) { assert MailOk(s, m, flat); }
    forall k {:trigger s'.cells[k]} | k in s'.cells && s'.cells[k].syncing ensures Awaited(s', k, flat) {
      if k != n { assert Awaited(s, k, flat); }
    }
  }

  lemma OwnerOfMember(s: State, flat: Bytes, n: NodeId)
    requires OwnerInv(s, flat) && n in s.cells
    ensures var o := s.cells[n].owner;
      if o in s.cells then s.cells[o].owner == o
      else HandOver(s) && n in s.leave.due && o == s.leave.leaver
  {}

  lemma FaultKeepsInv(s: State, flat: Bytes, n: NodeId, w: bool)
    requires Inv(s, flat) && Enabled(s, AccessFault(n, w))
    ensures Inv(Step(s, AccessFault(n, w)), flat)
  {
    hide CellsInv, ApartInv, OwnerInv, MessageInv, HandOver;
    var c := BeginFault(s.cells[n], n, w);
    CellFacts(s, flat, n);
    StaysApart(s, n, c);
    if c.syncing {
      OwnerOfMember(s, flat, n);
      assert HandOver(s) ==> s.leave.Leaving? && s.leave.cargo.Owned? by { HandOverFacts(s); }
      CellsChanged(s, flat, n, c);
      ApartChanged(s, n, c);
      OwnersKept(s, flat, n, c);
      AskSent(s, flat, n, c);
      SameBut(Put(s, n, c), DoFault(s, n, w), flat);
    } else {
      assert Step(s, AccessFault(n, w)) == Put(s, n, c);
      LocalChange(s, flat, n, c);
    }
  }

  lemma HandOverFacts(s: State)
    ensures HandOver(s) ==> s.leave.Leaving? && s.leave.cargo.Owned?
  {}

  /** Only the messages differ. */
  lemma SameBut(s: State, t: State, flat: Bytes)
    requires s.cells == t.cells && s.leave == t.leave && CellsInv(s, flat) && ApartInv(s) && OwnerInv(s, flat)
    ensures CellsInv(t, flat) && ApartInv(t) && OwnerInv(t, flat)
  {
    assert HandOver(s) <==> HandOver(t);
    if o :| Agreed(s, o) { assert Agreed(t, o); }
  }

  /** While `n` is in the lock for writing nobody waits for a page. */
  lemma WriterAlone(s: State, flat: Bytes, n: NodeId)
    requires CellsInv(s, flat) && ApartInv(s) && MessageInv(s, flat)
    requires n in s.cells && s.cells[n].granted && s.cells[n].mode == Writing && !s.cells[n].syncing
    ensures forall m {:trigger s.cells[m]} :: m in s.cells && m != n ==> !s.cells[m].granted && !s.cells[m].syncing && s.cells[m].fault == NoFault
    ensures s.mail == multiset{} && forall a :: a in s.asks ==> a.dst !in s.cells
  {
    forall m {:trigger s.cells[m]} | m in s.cells && m != n ensures !s.cells[m].granted && !s.cells[m].syncing && s.cells[m].fault == NoFault {
      ApartFacts(s, n, m);
      CellFacts(s, flat, m);
    }
    forall m ensures m !in s.mail { assert m in s.mail ==> MailOk(s, m, flat); }
    forall a | a in s.asks ensures a.dst !in s.cells { assert a.dst in s.cells ==> AskOk(s, a); }
  }

  lemma ClaimKeepsInv(s: State, flat: Bytes, n: NodeId, s': State)
    requires n in s.cells && s.cells[n].fault.Handling? && !s.cells[n].syncing && s' == DoReturn(s, n) && Claims(s.cells[n])
    requires Inv(s, flat)
    ensures Inv(s', flat)
  {
    hide OwnerInv, ApartInv, CellsInv, MessageInv;
    CellFacts(s, flat, n);
    WriterAlone(s, flat, n);
    assert s'.cells[n] == EndFault(s.cells[n], n);
    assert forall m {:trigger s'.cells[m]} :: m in s'.cells && m != n ==> s'.cells[m] == Invalidate(s.cells[m], m, n);
    ClaimedCells(s, flat, n, s');
    ClaimedOwners(s, flat, n, s');
    ClaimedMessages(s, flat, n, s');
  }

  lemma ClaimedCells(s: State, flat: Bytes, n: NodeId, s': State)
    requires CellsInv(s, flat) && n in s.cells && s'.cells.Keys == s.cells.Keys
    requires s'.cells[n].prot == ReadWrite && CellOk(n, s'.cells[n], flat)
    requires forall m {:trigger s'.cells[m]} :: m in s'.cells && m != n ==>
      s'.cells[m] == Invalidate(s.cells[m], m, n) && !s.cells[m].granted && !s.cells[m].syncing && s.cells[m].fault == NoFault
    ensures CellsInv(s', flat) && ApartInv(s')
  {
    forall m {:trigger s'.cells[m]} | m in s'.cells ensures CellOk(m, s'.cells[m], flat) {
      if m != n { CellFacts(s, flat, m); }
    }
  }

  lemma ClaimedOwners(s: State, flat: Bytes, n: NodeId, s': State)
    requires OwnerInv(s, flat) && n in s.cells && s'.cells.Keys == s.cells.Keys && s'.leave == s.leave
    requires forall m {:trigger s'.cells[m]} :: m in s'.cells ==> s'.cells[m].owner == n
    ensures OwnerInv(s', flat)
  {
    assert Agreed(s', n);
    if HandOver(s') { assert s'.cells[s'.leave.heir].owner == n; }
  }

  lemma ClaimedMessages(s: State, flat: Bytes, n: NodeId, s': State)
    requires s'.cells.Keys == s.cells.Keys && s'.mail == multiset{} && s'.asks == s.asks
    requires forall a :: a in s.asks ==> a.dst !in s.cells
    requires forall m {:trigger s'.cells[m]} :: m in s'.cells ==> !s'.cells[m].syncing
    ensures MessageInv(s', flat)
  {}

  lemma ReturnKeepsInv(s: State, flat: Bytes, n: NodeId)
    requires Inv(s, flat) && Enabled(s, FaultReturns(n))
    ensures Inv(Step(s, FaultReturns(n)), flat)
  {
    hide CellsInv, ApartInv, OwnerInv, MessageInv;
    if Claims(s.cells[n]) {
      ClaimKeepsInv(s, flat, n, Step(s, FaultReturns(n)));
    } else {
      var c := EndFault(s.cells[n], n);
      CellFacts(s, flat, n);
      ReaderIsApart(s, flat, n, c);
      LocalChange(s, flat, n, c);
    }
  }

  /** A node in the lock may get its copy back for reading. */
  lemma ReaderIsApart(s: State, flat: Bytes, n: NodeId, c: Cell)
    requires ApartInv(s) && CellsInv(s, flat) && n in s.cells && s.cells[n].granted
    requires c.granted && c.mode == s.cells[n].mode && c.prot != ReadWrite && c.owner == s.cells[n].owner
    ensures forall m {:trigger s.cells[m]} :: m in s.cells && m != n ==> Apart(c, s.cells[m])
  {
    forall m {:trigger s.cells[m]} | m in s.cells && m != n ensures Apart(c, s.cells[m]) {
      ApartFacts(s, n, m);
      CellFacts(s, flat, m);
    }
  }

  // --- Stores change the flat page as they change the writable copy.

  lemma StoreKeepsInv(s: State, flat: Bytes, n: NodeId, i: nat, v: int)
    requires Inv(s, flat) && Enabled(s, Store(n, i, v))
    ensures Inv(Step(s, Store(n, i, v)), Written(flat, Store(n, i, v)))
  {
    hide OwnerInv, ApartInv, CellsInv, MessageInv;
    CellFacts(s, flat, n);
    var s', flat' := DoStore(s, n, i, v), flat[i := v];
    var c := s'.cells[n];
    WriterAlone(s, flat, n);
    StaysApart(s, n, c);
    ApartChanged(s, n, c);
    StoredCells(s, flat, n, c, flat');
    StoredOwners(s, flat, n, c, flat');
    ClaimedMessages(s, flat', n, s');
  }

  lemma StoredCells(s: State, flat: Bytes, n: NodeId, c: Cell, flat': Bytes)
    requires CellsInv(s, flat) && ApartInv(s) && OwnerInv(s, flat) && n in s.cells && s.cells[n].prot == ReadWrite
    requires c == s.cells[n].(bytes := flat')
    ensures CellsInv(Put(s, n, c), flat')
  {
    hide OwnerInv, ApartInv;
    var s' := Put(s, n, c);
    forall m {:trigger s'.cells[m]} | m in s'.cells ensures CellOk(m, s'.cells[m], flat') {
      CellFacts(s, flat, m);
      if m != n {
        ApartFacts(s, n, m);
        if s.cells[m].owner == m { OneOwner(s, flat, n, m); }
      }
    }
  }

  lemma StoredOwners(s: State, flat: Bytes, n: NodeId, c: Cell, flat': Bytes)
    requires OwnerInv(s, flat) && n in s.cells && s.cells[n].owner == n && c.owner == n
    ensures OwnerInv(Put(s, n, c), flat')
  {
    var s' := Put(s, n, c);
    assert forall k {:trigger s'.cells[k]} {:trigger s.cells[k]} :: k in s.cells ==> k in s'.cells && s'.cells[k].owner == s.cells[k].owner;
    assert HandOver(s') <==> HandOver(s);
    if o :| Agreed(s, o) { assert Agreed(s', o); }
  }

  // --- Messages.

  lemma AskFacts(s: State, flat: Bytes, d: NodeId, r: NodeId)
    requires MessageInv(s, flat) && d in s.cells && AskPage(d, r) in s.asks
    ensures AskOk(s, AskPage(d, r))
  {}

  lemma DeliverAskKeepsInv(s: State, flat: Bytes, d: NodeId, r: NodeId)
    requires Inv(s, flat) && Enabled(s, DeliverAsk(d, r))
    ensures Inv(Step(s, DeliverAsk(d, r)), flat)
  {
    hide OwnerInv, ApartInv, CellsInv, MessageInv;
    AskFacts(s, flat, d, r);
    CellFacts(s, flat, d);
    CellFacts(s, flat, r);
    ApartFacts(s, r, d);
    var c := Copied(s.cells[d]);
    var s' := DoAsk(s, d, r);
    forall m {:trigger s.cells[m]} | m in s.cells && m != d ensures Apart(c, s.cells[m]) {
      ApartFacts(s, d, m);
      CellFacts(s, flat, m);
      if m != r { ApartFacts(s, r, m); }
    }
    CellsChanged(s, flat, d, c);
    ApartChanged(s, d, c);
    OwnersKept(s, flat, d, c);
    MessagesKept(s, flat, d, c);
    SameBut(Put(s, d, c), s', flat);
    Answered(Put(s, d, c), flat, d, r, s');
  }

  lemma Answered(s: State, flat: Bytes, d: NodeId, r: NodeId, s': State)
    requires AskPage(d, r) in s.asks && AskOk(s, AskPage(d, r)) && MessageInv(s, flat)
    requires s' == s.(asks := s.asks - multiset{AskPage(d, r)}, mail := s.mail + multiset{PageMail(r, d, flat)})
    ensures MessageInv(s', flat)
  {
    forall a | a in s'.asks && a.dst in s'.cells ensures AskOk(s', a) {
      assert AskOk(s, a) && s.asks[AskPage(d, r)] == 1;
    }
    forall m | m in s'.mail ensures MailOk(s', m, flat) {
      if m in s.mail { assert MailOk(s, m, flat); }
    }
    forall k {:trigger s'.cells[k]} | k in s'.cells && s'.cells[k].syncing ensures Awaited(s', k, flat) {
      assert Awaited(s, k, flat);
    }
  }

  lemma DropKeepsInv(s: State, flat: Bytes, d: NodeId, r: NodeId)
    requires Inv(s, flat) && Enabled(s, DropAsk(d, r))
    ensures Inv(Step(s, DropAsk(d, r)), flat)
  {
    hide OwnerInv, ApartInv, CellsInv, MessageInv;
    var s' := Step(s, DropAsk(d, r));
    SameBut(s, s', flat);
    Dropped(s, flat, d, r, s');
  }

  lemma Dropped(s: State, flat: Bytes, d: NodeId, r: NodeId, s': State)
    requires MessageInv(s, flat) && d !in s.cells && s' == s.(asks := s.asks - multiset{AskPage(d, r)})
    ensures MessageInv(s', flat)
  {
    forall a | a in s'.asks && a.dst in s'.cells ensures AskOk(s', a) { assert AskOk(s, a); }
    forall m | m in s'.mail ensures MailOk(s', m, flat) { assert MailOk(s, m, flat); }
    forall k {:trigger s'.cells[k]} | k in s'.cells && s'.cells[k].syncing ensures Awaited(s', k, flat) {
      assert Awaited(s, k, flat);
    }
  }

  lemma DeliverPageKeepsInv(s: State, flat: Bytes, d: NodeId, x: NodeId, b: Bytes)
    requires Inv(s, flat) && Enabled(s, DeliverPage(d, x, b))
    ensures Inv(Step(s, DeliverPage(d, x, b)), flat)
  {
    hide OwnerInv, ApartInv, CellsInv, MessageInv;
    var s', c := DoPage(s, d, x, b), Update(s.cells[d], x, x, b, false);
    MailFacts(s, flat, PageMail(d, x, b));
    CellFacts(s, flat, d);
    ReaderIsApart(s, flat, d, c);
    CellsChanged(s, flat, d, c);
    ApartChanged(s, d, c);
    OwnersKept(s, flat, d, c);
    SameBut(Put(s, d, c), s', flat);
    Received(s, flat, d, x, c, s');
  }

  lemma MailFacts(s: State, flat: Bytes, m: PageMail)
    requires MessageInv(s, flat) && m in s.mail
    ensures MailOk(s, m, flat)
  {}

  lemma Received(s: State, flat: Bytes, d: NodeId, x: NodeId, c: Cell, s': State)
    requires PageMail(d, x, flat) in s.mail && d in s.cells && c.owner == s.cells[d].owner == x && !c.syncing
    requires s' == Put(s, d, c).(mail := s.mail - multiset{PageMail(d, x, flat)})
    requires MessageInv(s, flat)
    ensures MessageInv(s', flat)
  {
    forall a | a in s'.asks && a.dst in s'.cells ensures AskOk(s', a) { assert AskOk(s, a); }
    forall m | m in s'.mail ensures MailOk(s', m, flat) {
      assert MailOk(s, m, flat) && MailOk(s, PageMail(d, x, flat), flat);
    }
    forall k {:trigger s'.cells[k]} | k in s'.cells && s'.cells[k].syncing ensures Awaited(s', k, flat) {
      assert Awaited(s, k, flat);
    }
  }

  // --- Membership.

  lemma JoinKeepsInv(s: State, flat: Bytes, n: NodeId, k: NodeId)
    requires Inv(s, flat) && Enabled(s, Join(n, k))
    ensures Inv(Step(s, Join(n, k)), flat)
  {
    var s' := Step(s, Join(n, k));
    hide OwnerInv, ApartInv, CellsInv, MessageInv;
    JoinedOwners(s, flat, n, k, s');
    JoinedMessages(s, flat, n, s.cells[k].owner, s');
    JoinedCells(s, flat, n, s.cells[k].owner, s');
  }

  lemma JoinedOwners(s: State, flat: Bytes, n: NodeId, k: NodeId, s': State)
    requires OwnerInv(s, flat) && n !in s.cells && k in s.cells && s.leave == Nobody
    requires s' == Put(s, n, Joined(s.cells[k].owner))
    ensures OwnerInv(s', flat) && Agreed(s, s.cells[k].owner)
  {
    var o :| Agreed(s, o);
    assert Agreed(s', o);
  }

  lemma JoinedCells(s: State, flat: Bytes, n: NodeId, o: NodeId, s': State)
    requires CellsInv(s, flat) && ApartInv(s) && Agreed(s, o) && n !in s.cells && s' == Put(s, n, Joined(o))
    ensures CellsInv(s', flat) && ApartInv(s')
  {}

  lemma JoinedMessages(s: State, flat: Bytes, n: NodeId, o: NodeId, s': State)
    requires MessageInv(s, flat) && n !in s.cells && s' == Put(s, n, Joined(o)) && forall a :: a in s.asks ==> a.dst != n
    ensures MessageInv(s', flat)
  {
    forall a | a in s'.asks && a.dst in s'.cells ensures AskOk(s', a) { assert AskOk(s, a); }
    forall m | m in s'.mail ensures MailOk(s', m, flat) { assert MailOk(s, m, flat); }
    forall k {:trigger s'.cells[k]} | k in s'.cells && s'.cells[k].syncing ensures Awaited(s', k, flat) {
      assert Awaited(s, k, flat);
    }
  }

  lemma LeaveKeepsInv(s: State, flat: Bytes, n: NodeId, h: NodeId)
    requires Inv(s, flat) && Enabled(s, BeginLeave(n, h))
    ensures Inv(Step(s, BeginLeave(n, h)), flat)
  {
    var s' := Step(s, BeginLeave(n, h));
    hide OwnerInv, ApartInv, CellsInv, MessageInv;
    LeftCells(s, flat, n, s');
    CellFacts(s, flat, n);
    LeftOwners(s, flat, n, h, s');
    LeftMessages(s, flat, n, h, s');
  }

  lemma LeftCells(s: State, flat: Bytes, n: NodeId, s': State)
    requires CellsInv(s, flat) && ApartInv(s) && s'.cells == s.cells - {n}
    ensures CellsInv(s', flat) && ApartInv(s')
  {}

  lemma LeftOwners(s: State, flat: Bytes, n: NodeId, h: NodeId, s': State)
    requires n in s.cells && h in s.cells && n != h && s.leave == Nobody && s' == DoLeave(s, n, h)
    requires OwnerInv(s, flat) && CellOk(n, s.cells[n], flat)
    ensures OwnerInv(s', flat)
  {
    var o :| Agreed(s, o);
    if o == n { assert HandOver(s'); } else { assert Agreed(s', o); }
  }

  lemma LeftMessages(s: State, flat: Bytes, n: NodeId, h: NodeId, s': State)
    requires n in s.cells && s' == DoLeave(s, n, h) && s.leave == Nobody && !s.cells[n].syncing
    requires MessageInv(s, flat) && OwnerInv(s, flat)
    ensures MessageInv(s', flat)
  {
    var o :| Agreed(s, o);
    forall a | a in s'.asks && a.dst in s'.cells ensures AskOk(s', a) { assert AskOk(s, a); }
    forall m | m in s'.mail ensures MailOk(s', m, flat) { assert MailOk(s, m, flat); }
    forall k {:trigger s'.cells[k]} | k in s'.cells && s'.cells[k].syncing ensures Awaited(s', k, flat) {
      assert Awaited(s, k, flat) && s.cells[n].owner == o == s.cells[k].owner;
    }
  }

  lemma NoticeKeepsInv(s: State, flat: Bytes, n: NodeId)
    requires Inv(s, flat) && Enabled(s, Notice(n))
    ensures Inv(Step(s, Notice(n)), flat)
  {
    hide OwnerInv, ApartInv, CellsInv, MessageInv, HandOver, DoNotice;
    var s', l := DoNotice(s, n), s.leave;
    LeaveFacts(s, flat, n);
    NoticeForms(s, n);
    if s.cells[n].owner != l.leaver || l.cargo == NotOwned {
      Ignored(s, flat, n, s');
    } else if n == l.heir {
      HeirTold(s, flat, n, Update(s.cells[n], n, l.leaver, l.cargo.bytes, true), s');
    } else {
      OtherTold(s, flat, n, s.cells[n].(owner := l.heir), s');
    }
  }

  lemma NoticeForms(s: State, n: NodeId)
    requires n in s.cells && s.leave.Leaving?
    ensures var s', l, c := DoNotice(s, n), s.leave, s.cells[n];
      var told := s.(leave := l.(due := l.due - {n}));
      if c.owner != l.leaver || l.cargo == NotOwned then s' == told
      else if n == l.heir then s' == Put(s, n, Update(c, n, l.leaver, l.cargo.bytes, true)).(leave := told.leave)
      else s' == Put(s, n, c.(owner := l.heir)).(leave := told.leave,
        asks := s.asks + if c.syncing then multiset{AskPage(l.heir, n)} else multiset{})
  {
    assert s.cells[n := s.cells[n]] == s.cells;
  }

  lemma LeaveFacts(s: State, flat: Bytes, n: NodeId)
    requires OwnerInv(s, flat) && n in s.cells && s.leave.Leaving? && n in s.leave.due
    ensures s.cells[n].owner == s.leave.leaver <==> HandOver(s)
    ensures s.leave.cargo == NotOwned ==> !HandOver(s)
  {}

  /** The message of the departure does not concern this page any more. */
  lemma Ignored(s: State, flat: Bytes, n: NodeId, s': State)
    requires Inv(s, flat) && s.leave.Leaving? && !HandOver(s)
    requires n == s.leave.heir || s.leave.heir !in s.leave.due
    requires s' == s.(leave := s.leave.(due := s.leave.due - {n}))
    ensures Inv(s', flat)
  {
    hide ApartInv, CellsInv, MessageInv;
    assert CellsInv(s', flat) && ApartInv(s') by { SameCells(s, s', flat); }
    var o :| Agreed(s, o);
    assert Agreed(s', o);
    assert OwnerInv(s', flat);
    IgnoredMessages(s, flat, o, s');
  }

  lemma SameCells(s: State, s': State, flat: Bytes)
    requires s.cells == s'.cells && CellsInv(s, flat) && ApartInv(s)
    ensures CellsInv(s', flat) && ApartInv(s')
  {}

  lemma IgnoredMessages(s: State, flat: Bytes, o: NodeId, s': State)
    requires MessageInv(s, flat) && s'.cells == s.cells && s'.asks == s.asks && s'.mail == s.mail
    requires Agreed(s, o) && (s.leave.Leaving? ==> s.leave.leaver !in s.cells)
    ensures MessageInv(s', flat)
  {
    forall a | a in s'.asks && a.dst in s'.cells ensures AskOk(s', a) { assert AskOk(s, a); }
    forall m | m in s'.mail ensures MailOk(s', m, flat) { assert MailOk(s, m, flat); }
    forall k {:trigger s'.cells[k]} | k in s'.cells && s'.cells[k].syncing ensures Awaited(s', k, flat) {
      assert Awaited(s, k, flat);
    }
  }

  lemma HeirTold(s: State, flat: Bytes, n: NodeId, c: Cell, s': State)
    requires n in s.cells && s.leave.Leaving? && n == s.leave.heir && n in s.leave.due && HandOver(s)
    requires c == Update(s.cells[n], n, s.leave.leaver, s.leave.cargo.bytes, true)
    requires s' == Put(s, n, c).(leave := s.leave.(due := s.leave.due - {n}))
    requires forall m :: m in s.mail ==> m.dst != n || m.sender != s.leave.leaver
    requires Inv(s, flat)
    ensures Inv(s', flat)
  {
    hide ApartInv, CellsInv, MessageInv;
    CellFacts(s, flat, n);
    assert HandOver(s');
    assert OwnerInv(s', flat);
    HeirCells(s, flat, n, c);
    SameCells(Put(s, n, c), s', flat);
    HeirMessages(s, flat, n, c, s');
  }

  lemma HeirCells(s: State, flat: Bytes, n: NodeId, c: Cell)
    requires n in s.cells && s.leave.Leaving? && HandOver(s) && n in s.leave.due && n == s.leave.heir
    requires c == Update(s.cells[n], n, s.leave.leaver, flat, true)
    requires CellsInv(s, flat) && ApartInv(s) && OwnerInv(s, flat)
    ensures CellsInv(Put(s, n, c), flat) && ApartInv(Put(s, n, c))
  {
    hide ApartInv, CellsInv;
    CellFacts(s, flat, n);
    forall m {:trigger s.cells[m]} | m in s.cells && m != n ensures Apart(c, s.cells[m]) {
      ApartFacts(s, n, m);
      CellFacts(s, flat, m);
      assert s.cells[m].owner != m;
    }
    CellsChanged(s, flat, n, c);
    ApartChanged(s, n, c);
  }

  lemma HeirMessages(s: State, flat: Bytes, n: NodeId, c: Cell, s': State)
    requires n in s.cells && s.leave.Leaving? && s.leave.leaver !in s.cells && s.cells[n].owner == s.leave.leaver && !c.syncing
    requires s' == Put(s, n, c).(leave := s.leave.(due := s.leave.due - {n}))
    requires forall m :: m in s.mail ==> m.dst != n || m.sender != s.leave.leaver
    requires MessageInv(s, flat)
    ensures MessageInv(s', flat)
  {
    forall a | a in s'.asks && a.dst in s'.cells ensures AskOk(s', a) { assert AskOk(s, a); }
    forall m | m in s'.mail ensures MailOk(s', m, flat) { assert MailOk(s, m, flat); }
    forall k {:trigger s'.cells[k]} | k in s'.cells && s'.cells[k].syncing ensures Awaited(s', k, flat) {
      assert Awaited(s, k, flat);
    }
  }

  lemma OtherTold(s: State, flat: Bytes, n: NodeId, c: Cell, s': State)
    requires n in s.cells && s.leave.Leaving? && n != s.leave.heir && n in s.leave.due && s.leave.heir !in s.leave.due && HandOver(s)
    requires c == s.cells[n].(owner := s.leave.heir)
    requires s' == Put(s, n, c).(leave := s.leave.(due := s.leave.due - {n}),
      asks := s.asks + if c.syncing then multiset{AskPage(c.owner, n)} else multiset{})
    requires forall m :: m in s.mail ==> m.dst != n || m.sender != s.leave.leaver
    requires Inv(s, flat)
    ensures Inv(s', flat)
  {
    hide ApartInv, CellsInv, MessageInv;
    CellFacts(s, flat, n);
    assert s.cells[s.leave.heir].owner == s.leave.heir;
    assert HandOver(s');
    assert OwnerInv(s', flat);
    forall m {:trigger s.cells[m]} | m in s.cells && m != n ensures Apart(c, s.cells[m]) {
      ApartFacts(s, n, m);
      CellFacts(s, flat, m);
    }
    CellsChanged(s, flat, n, c);
    ApartChanged(s, n, c);
    SameCells(Put(s, n, c), s', flat);
    OtherMessages(s, flat, n, c, s');
  }

  lemma OtherMessages(s: State, flat: Bytes, n: NodeId, c: Cell, s': State)
    requires n in s.cells && s.leave.Leaving? && s.leave.leaver !in s.cells && s.cells[n].owner == s.leave.leaver
    requires c.syncing == s.cells[n].syncing && c.owner in s.cells && c.owner != n && s.cells[c.owner].owner == c.owner
    requires s' == Put(s, n, c).(leave := s.leave.(due := s.leave.due - {n}),
      asks := s.asks + if c.syncing then multiset{AskPage(c.owner, n)} else multiset{})
    requires forall m :: m in s.mail ==> m.dst != n || m.sender != s.leave.leaver
    requires MessageInv(s, flat)
    ensures MessageInv(s', flat)
  {
    forall a | a in s'.asks && a.dst in s'.cells ensures AskOk(s', a) {
      if a in s.asks { assert AskOk(s, a); }
      forall m | m in s'.mail ensures m.dst != a.requester { assert MailOk(s, m, flat); }
    }
    forall m | m in s'.mail ensures MailOk(s', m, flat) { assert MailOk(s, m, flat); }
    forall k {:trigger s'.cells[k]} | k in s'.cells && s'.cells[k].syncing ensures Awaited(s', k, flat) {
      if k != n { assert Awaited(s, k, flat); }
    }
  }

  lemma AgreedKept(s: State, o: NodeId, s': State)
    requires Agreed(s, o) && s'.cells == s.cells
    ensures Agreed(s', o)
  {}

  lemma EndLeaveKeepsInv(s: State, flat: Bytes)
    requires Inv(s, flat) && Enabled(s, EndLeave)
    ensures Inv(Step(s, EndLeave), flat)
  {
    hide ApartInv, CellsInv, MessageInv;
    var s' := Step(s, EndLeave);
    SameCells(s, s', flat);
    assert s'.cells == s.cells;
    if HandOver(s) { assert Agreed(s, s.leave.heir); }
    var o :| Agreed(s, o);
    AgreedKept(s, o, s');
    assert OwnerInv(s', flat);
    IgnoredMessages(s, flat, o, s');
  }

  // --- Runs.

  lemma StepKeepsInv(s: State, flat: Bytes, e: Event)
    requires Inv(s, flat) && Enabled(s, e)
    ensures Inv(Step(s, e), Written(flat, e))
  {
    hide Inv, Step;
    match e
    case CallLock(n, t) => LockKeepsInv(s, flat, n, t);
    case Grant(n) => GrantKeepsInv(s, flat, n);
    case CallUnlock(n) => UnlockKeepsInv(s, flat, n);
    case AccessFault(n, w) => FaultKeepsInv(s, flat, n, w);
    case FaultReturns(n) => ReturnKeepsInv(s, flat, n);
    case Store(n, i, v) => StoreKeepsInv(s, flat, n, i, v);
    case DeliverAsk(d, r) => DeliverAskKeepsInv(s, flat, d, r);
    case DropAsk(d, r) => DropKeepsInv(s, flat, d, r);
    case DeliverPage(d, x, b) => DeliverPageKeepsInv(s, flat, d, x, b);
    case Join(n, c) => JoinKeepsInv(s, flat, n, c);
    case BeginLeave(n, h) => LeaveKeepsInv(s, flat, n, h);
    case Notice(n) => NoticeKeepsInv(s, flat, n);
    case EndLeave => EndLeaveKeepsInv(s, flat);
  }

  lemma {:induction false} RunKeepsInv(s: State, flat: Bytes, es: seq<Event>)
    requires Inv(s, flat) && IsRun(s, es)
    ensures Inv(After(s, es), Flat(flat, es))
    decreases |es|
  {
    hide Inv;
    if es != [] {
      StepKeepsInv(s, flat, es[0]);
      RunKeepsInv(Step(s, es[0]), Written(flat, es[0]), es[1..]);
    }
  }
}
