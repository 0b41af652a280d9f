/**
 The lock of one page on one node: its variables, the effect of every handler, and the node as
 an object whose methods compute exactly these effects.
 */
module PageLock {
  import opened Nodes

  datatype LockType = Read | Write

  /** The local status of the lock: READING, WRITING or NONE. */
  datatype Mode = Reading | Writing | Unlocked

  datatype Request = Request(who: NodeId, mode: LockType)

  /** One `core_info`. `requests` is the request list from its head. `predicate` is the flag of
      its condition variable. `waiting` and `stuck` say that the local caller of `ask_lock` is
      blocked on that condition or on the semaphore `write_auto_lock`. */
  datatype Page = Page(
    mode: Mode,
    requests: seq<Request>,
    haveToken: NodeId,
    signalled: bool,
    waiting: bool,
    stuck: bool)

  datatype Message =
    | AskLock(dst: NodeId, initiator: NodeId, mode: LockType)
    | GetLock(dst: NodeId, sender: NodeId, mode: LockType)
    | UnlockPage(dst: NodeId, sender: NodeId)

  datatype Effect = Effect(page: Page, sent: seq<Message>)

  function Fresh(haveToken: NodeId): Page {
    Page(Unlocked, [], haveToken, false, false, false)
  }

  function Status(t: LockType): Mode {
    if t == Read then Reading else Writing
  }

  // --- The request list.

  /** `add_request` puts the newest request at the head. */
  function Add(rs: seq<Request>, who: NodeId, mode: LockType): seq<Request> {
    [Request(who, mode)] + rs
  }

  /** `remove_request` removes the first request of `who`. */
  function Remove(rs: seq<Request>, who: NodeId): seq<Request> {
    if rs == [] then []
    else if rs[0].who == who then rs[1..]
    else [rs[0]] + Remove(rs[1..], who)
  }

  /** The writer nearest to the tail of the list, or EmptyNode. */
  function LastWriter(rs: seq<Request>): NodeId {
    if rs == [] then EmptyNode
    else if rs[|rs| - 1].mode == Write then rs[|rs| - 1].who
    else LastWriter(rs[..|rs| - 1])
  }

  /** How many requests come before the first writer. */
  function ReaderCount(rs: seq<Request>): (k: nat)
    ensures k <= |rs|
  {
    if rs == [] || rs[0].mode == Write then 0 else 1 + ReaderCount(rs[1..])
  }

  /** The count is the position of the first writer, or the length. */
  lemma {:induction false} ReaderCountIs(rs: seq<Request>, k: nat)
    requires k <= |rs| && (forall i :: 0 <= i < k ==> rs[i].mode == Read) && (k < |rs| ==> rs[k].mode == Write)
    ensures ReaderCount(rs) == k
  {
    if k > 0 {
      ReaderCountIs(rs[1..], k - 1);
    }
  }

  /** `remove_request` passes over the requests of other nodes. */
  lemma {:induction false} RemoveSkips(rs: seq<Request>, who: NodeId, k: nat)
    requires k <= |rs| && forall i :: 0 <= i < k ==> rs[i].who != who
    ensures Remove(rs, who) == rs[..k] + Remove(rs[k..], who)
  {
    if k > 0 {
      RemoveSkips(rs[1..], who, k - 1);
      assert rs[..k] == [rs[0]] + rs[1..][..k - 1];
      assert rs[1..][k - 1..] == rs[k..];
    } else {
      assert rs[0..] == rs;
    }
  }

  /** The requests before the first writer. */
  function LeadingReaders(rs: seq<Request>): seq<Request> {
    rs[..ReaderCount(rs)]
  }

  function Grants(rs: seq<Request>, me: NodeId): (r: seq<Message>)
    ensures |r| == |rs| && forall i :: 0 <= i < |rs| ==> r[i] == GetLock(rs[i].who, me, Read)
  {
    if rs == [] then [] else [GetLock(rs[0].who, me, Read)] + Grants(rs[1..], me)
  }

  // --- The operations.

  /** `ask_lock` up to the point where it returns or blocks. */
  function Ask(p: Page, me: NodeId, t: LockType): Effect {
    if p.mode != Unlocked then
      Effect(p, [])
    else if p.haveToken != me then
      Effect(p.(mode := Status(t), waiting := true), [AskLock(p.haveToken, me, t)])
    else if p.requests == [] && t == Write then
      Effect(p.(mode := Writing), [])
    else
      Effect(p.(mode := Status(t), requests := Add(p.requests, me, t), stuck := p.stuck || t == Write), [])
  }

  /** The caller blocked on the condition variable goes on. */
  function Resume(p: Page): Page {
    p.(waiting := false, signalled := false)
  }

  /** The end of a reader's turn at the node that has the token. */
  function LocalUnlock(p: Page, me: NodeId, from: NodeId): Effect {
    var rs := Remove(p.requests, from);
    if rs == [] || rs[0].mode == Read then
      Effect(p.(requests := rs), [])
    else if rs[0].who != me then
      Effect(p.(requests := rs[1..], haveToken := rs[0].who), [GetLock(rs[0].who, me, Write)])
    else
      Effect(p.(requests := rs[1..]), [])
  }

  function Unlock(p: Page, me: NodeId): Effect
    requires p.mode != Unlocked
  {
    if p.mode == Reading then
      if p.haveToken == me then
        var e := LocalUnlock(p, me, me);
        Effect(e.page.(mode := Unlocked), e.sent)
      else
        Effect(p.(mode := Unlocked), [UnlockPage(p.haveToken, me)])
    else if p.requests == [] then
      Effect(p.(mode := Unlocked), [])
    else if p.requests[0].mode == Read then
      Effect(p.(mode := Unlocked), Grants(LeadingReaders(p.requests), me))
    else
      Effect(p.(mode := Unlocked, haveToken := p.requests[0].who, requests := p.requests[1..]),
             [GetLock(p.requests[0].who, me, Write)])
  }

  /** The handler of ASK_LOCK. */
  function OnAsk(p: Page, me: NodeId, initiator: NodeId, t: LockType): Effect {
    var last := LastWriter(p.requests);
    if last == me then
      Effect(p.(requests := Add(p.requests, initiator, t)), [])
    else if last != EmptyNode then
      Effect(p, [AskLock(last, initiator, t)])
    else if p.haveToken != me then
      Effect(if t == Write then p.(haveToken := initiator) else p, [AskLock(p.haveToken, initiator, t)])
    else if p.mode == Unlocked && t == Write && p.requests == [] then
      Effect(p.(haveToken := initiator), [GetLock(initiator, me, Write)])
    else
      Effect(p.(requests := Add(p.requests, initiator, t)),
             if t == Read && p.mode != Writing then [GetLock(initiator, me, Read)] else [])
  }

  /** The handler of GET_LOCK. */
  function OnGet(p: Page, me: NodeId, sender: NodeId, t: LockType): Page {
    if p.mode == Unlocked then p.(signalled := true)
    else p.(haveToken := if t == Write then me else sender, signalled := true)
  }

  /** The handler of UNLOCK. */
  function OnUnlock(p: Page, me: NodeId, sender: NodeId): Effect {
    if p.haveToken != me then Effect(p, [UnlockPage(p.haveToken, me)]) else LocalUnlock(p, me, sender)
  }

  // --- What the handlers keep, for readers and writers.

  function Count(sent: seq<Message>, m: Message): nat {
    multiset(sent)[m]
  }

  /** The first request of `who`, if there is one. */
  function FirstOf(rs: seq<Request>, who: NodeId): multiset<Request> {
    if rs == [] then multiset{}
    else if rs[0].who == who then multiset{rs[0]}
    else FirstOf(rs[1..], who)
  }

  lemma {:induction false} RemoveConserves(rs: seq<Request>, who: NodeId)
    ensures multiset(rs) == multiset(Remove(rs, who)) + FirstOf(rs, who)
  {
    if rs != [] {
      assert rs == [rs[0]] + rs[1..];
      if rs[0].who != who {
        RemoveConserves(rs[1..], who);
      }
    }
  }

  /** How many ASK_LOCK messages for `i` are sent. */
  function Forwards(sent: seq<Message>, i: NodeId, t: LockType): nat {
    if sent == [] then 0
    else (if sent[0].AskLock? && sent[0].initiator == i && sent[0].mode == t then 1 else 0) + Forwards(sent[1..], i, t)
  }

  /** A request that arrives is listed, forwarded, or answered by the token: exactly one of the
      three, whatever the node's state and the kind of request. */
  lemma AskIsNeverLost(p: Page, me: NodeId, i: NodeId, t: LockType)
    ensures var e := OnAsk(p, me, i, t);
      && (e.page.requests == p.requests || e.page.requests == [Request(i, t)] + p.requests)
      && |e.page.requests| - |p.requests| + Forwards(e.sent, i, t) + Count(e.sent, GetLock(i, me, Write)) == 1
  {
    hide LastWriter;
    var e := OnAsk(p, me, i, t);
    assert |e.sent| <= 1;
    if e.sent != [] {
      assert e.sent == [e.sent[0]] && e.sent[1..] == [];
    }
  }

  /** A node that has the token stops naming itself exactly when it sends the write grant to the
      node it then names. */
  ghost predicate TokenFollowsGrant(me: NodeId, e: Effect) {
    && (forall x :: GetLock(x, me, Write) in e.sent ==> e.page.haveToken == x)
    && (e.page.haveToken != me ==> GetLock(e.page.haveToken, me, Write) in e.sent)
  }

  lemma AskMovesToken(p: Page, me: NodeId, i: NodeId, t: LockType)
    requires p.haveToken == me
    ensures TokenFollowsGrant(me, OnAsk(p, me, i, t))
  {
    hide LastWriter;
  }

  lemma LocalUnlockMovesToken(p: Page, me: NodeId, from: NodeId)
    requires p.haveToken == me
    ensures TokenFollowsGrant(me, LocalUnlock(p, me, from))
  {
    hide Remove;
  }

  lemma UnlockMovesToken(p: Page, me: NodeId)
    requires p.haveToken == me && p.mode != Unlocked
    ensures TokenFollowsGrant(me, Unlock(p, me))
  {
    hide LocalUnlock, Grants, LeadingReaders;
    if p.mode == Reading {
      LocalUnlockMovesToken(p, me, me);
    } else {
      GrantsAreForReaders(LeadingReaders(p.requests), me);
    }
  }

  lemma GrantsAreForReaders(rs: seq<Request>, me: NodeId)
    ensures forall x :: GetLock(x, me, Write) !in Grants(rs, me)
  {
    var r := Grants(rs, me);
    forall x ensures GetLock(x, me, Write) !in r {
      assert forall k :: 0 <= k < |r| ==> r[k] != GetLock(x, me, Write);
    }
  }

  /** The writer at the head of the list, if it is one. */
  function LeadingWriter(rs: seq<Request>): multiset<Request> {
    if rs != [] && rs[0].mode == Write then multiset{rs[0]} else multiset{}
  }

  /** The end of a reader's turn takes its request off the list and that of the writer who comes
      next; every other request stays. */
  lemma LocalUnlockConserves(p: Page, me: NodeId, from: NodeId)
    ensures multiset(p.requests)
      == multiset(LocalUnlock(p, me, from).page.requests) + FirstOf(p.requests, from) + LeadingWriter(Remove(p.requests, from))
  {
    hide Remove, FirstOf;
    var rs := Remove(p.requests, from);
    RemoveConserves(p.requests, from);
    if rs != [] { assert rs == [rs[0]] + rs[1..]; }
    assert multiset(rs) == multiset(LocalUnlock(p, me, from).page.requests) + LeadingWriter(rs);
  }

  /** The end of a writer's turn takes off only the writer who comes next. */
  lemma WriterUnlockConserves(p: Page, me: NodeId)
    requires p.mode == Writing
    ensures multiset(p.requests) == multiset(Unlock(p, me).page.requests) + LeadingWriter(p.requests)
  {
    hide Grants, LeadingReaders;
    if p.requests != [] { assert p.requests == [p.requests[0]] + p.requests[1..]; }
  }

  // --- The node as the program has it.

  class PageNode {
    const me: NodeId
    var mode: Mode
    var requests: seq<Request>
    var haveToken: NodeId
    var signalled: bool
    var waiting: bool
    var stuck: bool

    ghost function View(): Page
      reads this
    {
      Page(mode, requests, haveToken, signalled, waiting, stuck)
    }

    constructor (me: NodeId, haveToken: NodeId)
      ensures this.me == me && View() == Fresh(haveToken)
    {
      this.me := me;
      mode, requests, this.haveToken := Unlocked, [], haveToken;
      signalled, waiting, stuck := false, false, false;
    }

    method AddRequest(who: NodeId, t: LockType)
      modifies this`requests
      ensures requests == Add(old(requests), who, t)
    {
      requests := [Request(who, t)] + requests;
    }

    method RemoveRequest(who: NodeId)
      modifies this`requests
      ensures requests == Remove(old(requests), who)
    {
      var i := 0;
      while i < |requests|
        invariant 0 <= i <= |requests| && requests == old(requests)
        invariant forall k :: 0 <= k < i ==> requests[k].who != who
        decreases |requests| - i
      {
        if requests[i].who == who {
          RemoveSkips(requests, who, i);
          requests := requests[..i] + requests[i + 1..];
          return;
        }
        i := i + 1;
      }
      RemoveSkips(requests, who, i);
    }

    method FindLastWriter() returns (who: NodeId)
      ensures who == LastWriter(requests)
    {
      var i := |requests|;
      assert requests[..i] == requests;
      while i > 0
        invariant 0 <= i <= |requests|
        invariant LastWriter(requests) == LastWriter(requests[..i])
      {
        assert requests[..i][..i - 1] == requests[..i - 1];
        i := i - 1;
        if requests[i].mode == Write {
          return requests[i].who;
        }
      }
      return EmptyNode;
    }

    method AskFor(t: LockType) returns (sent: seq<Message>)
      modifies this
      ensures Effect(View(), sent) == Ask(old(View()), me, t)
    {
      sent := [];
      if mode == Unlocked {
        mode := Status(t);
        if haveToken == me {
          if requests != [] || t == Read {
            AddRequest(me, t);
            if t == Write {
              stuck := true;
            }
          }
        } else {
          sent := [AskLock(haveToken, me, t)];
          waiting := true;
        }
      }
    }

    method LeaveWait()
      requires waiting && signalled
      modifies this
      ensures View() == Resume(old(View()))
    {
      signalled := false;
      waiting := false;
    }

    method HandleLocalUnlock(from: NodeId) returns (sent: seq<Message>)
      modifies this
      ensures Effect(View(), sent) == LocalUnlock(old(View()), me, from)
    {
      sent := [];
      RemoveRequest(from);
      if requests != [] {
        var first := requests[0];
        if first.mode == Write {
          if first.who != me {
            sent := [GetLock(first.who, me, Write)];
            haveToken := first.who;
          }
          RemoveRequest(first.who);
        }
      }
    }

    /** Grants every request up to the first writer. */
    method GrantReaders() returns (sent: seq<Message>)
      ensures sent == Grants(LeadingReaders(requests), me)
    {
      sent := [];
      var i := 0;
      while i < |requests| && requests[i].mode != Write
        invariant 0 <= i <= |requests| && |sent| == i
        invariant forall k :: 0 <= k < i ==> requests[k].mode == Read && sent[k] == GetLock(requests[k].who, me, Read)
      {
        sent := sent + [GetLock(requests[i].who, me, Read)];
        i := i + 1;
      }
      ReaderCountIs(requests, i);
    }

    method Release() returns (sent: seq<Message>)
      requires mode != Unlocked
      modifies this
      ensures Effect(View(), sent) == Unlock(old(View()), me)
    {
      sent := [];
      if mode == Writing {
        if requests != [] {
          var first := requests[0];
          if first.mode == Read {
            sent := GrantReaders();
          } else {
            sent := [GetLock(first.who, me, Write)];
            haveToken := first.who;
            RemoveRequest(first.who);
          }
        }
      } else {
        if haveToken == me {
          sent := HandleLocalUnlock(me);
        } else {
          sent := [UnlockPage(haveToken, me)];
        }
      }
      mode := Unlocked;
    }

    method HandleAskLock(initiator: NodeId, t: LockType) returns (sent: seq<Message>)
      requires me != EmptyNode && forall r :: r in requests ==> r.who != EmptyNode
      modifies this
      ensures Effect(View(), sent) == OnAsk(old(View()), me, initiator, t)
    {
      sent := [];
      var last := FindLastWriter();
      if last != EmptyNode && last == me {
        AddRequest(initiator, t);
      } else if last != EmptyNode {
        sent := [AskLock(last, initiator, t)];
      } else if haveToken == me {
        if mode == Unlocked {
          if t == Write {
            if requests == [] {
              sent := [GetLock(initiator, me, Write)];
              haveToken := initiator;
            } else {
              AddRequest(initiator, t);
            }
          } else {
            sent := [GetLock(initiator, me, t)];
            AddRequest(initiator, t);
          }
        } else {
          AddRequest(initiator, t);
          if mode == Reading && t == Read {
            sent := [GetLock(initiator, me, t)];
          }
        }
      } else {
        sent := [AskLock(haveToken, initiator, t)];
        if t == Write {
          haveToken := initiator;
        }
      }
    }

    method HandleGetLock(sender: NodeId, t: LockType)
      modifies this
      ensures View() == OnGet(old(View()), me, sender, t)
    {
      if mode != Unlocked {
        match t
        case Write => haveToken := me;
        case Read => haveToken := sender;
      }
      signalled := true;
    }

    method HandleUnlock(sender: NodeId) returns (sent: seq<Message>)
      modifies this
      ensures Effect(View(), sent) == OnUnlock(old(View()), me, sender)
    {
      if haveToken != me {
        sent := [UnlockPage(haveToken, me)];
      } else {
        sent := HandleLocalUnlock(sender);
      }
    }
  }
}
