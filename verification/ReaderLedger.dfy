/**
 Which listed readers have been granted. A node keeps its list with a mark at each request to which
 it has sent a read grant, and the question is whether a reader that no writer precedes can stay
 without a mark at a node that has the token and is not writing.
 */
module ReaderLedger {
  import opened Nodes
  import opened PageLock
  import M = LockMachine
  import opened MixedLock

  datatype Entry = Entry(request: Request, told: bool)

  type Ledger = seq<Entry>

  function Plain(l: Ledger): (rs: seq<Request>)
    ensures |rs| == |l| && forall k :: 0 <= k < |l| ==> rs[k] == l[k].request
  {
    seq(|l|, k requires 0 <= k < |l| => l[k].request)
  }

  function Without(l: Ledger, who: NodeId): Ledger {
    if l == [] then [] else if l[0].request.who == who then l[1..] else [l[0]] + Without(l[1..], who)
  }

  /** The grants that are sent mark the readers they are for. */
  function Mark(l: Ledger, me: NodeId, sent: seq<Message>): (r: Ledger)
    ensures |r| == |l| && forall k :: 0 <= k < |l| ==>
      r[k] == Entry(l[k].request, l[k].told || (l[k].request.mode == Read && GetLock(l[k].request.who, me, Read) in sent))
  {
    seq(|l|, k requires 0 <= k < |l| =>
      Entry(l[k].request, l[k].told || (l[k].request.mode == Read && GetLock(l[k].request.who, me, Read) in sent)))
  }

  /** The list as the step leaves it: a new request comes first, an ended one and the next writer go. */
  function Moved(l: Ledger, s: State, e: Event): Ledger
    requires Enabled(s, e)
  {
    var p, rs, me := s.pages[Actor(e)], EffectOf(s, e).page.requests, Actor(e);
    match e
    case CallAsk(_, _) => if |rs| > |l| then [Entry(rs[0], false)] + l else l
    case DeliverAsk(_, _, _) => if |rs| > |l| then [Entry(rs[0], false)] + l else l
    case CallUnlock(_) => if p.mode == Reading && p.haveToken == me then Ended(l, me, |rs|) else Dropped(l, |rs|)
    case DeliverUnlock(_, x) => if p.haveToken == me then Ended(l, x, |rs|) else l
    case _ => l
  }

  function Dropped(l: Ledger, size: nat): Ledger {
    if |l| > size then l[1..] else l
  }

  function Ended(l: Ledger, who: NodeId, size: nat): Ledger {
    Dropped(Without(l, who), size)
  }

  function NextLedger(l: Ledger, s: State, e: Event): Ledger
    requires Enabled(s, e)
  {
    Mark(Moved(l, s, e), Actor(e), EffectOf(s, e).sent)
  }

  lemma {:induction false} PlainWithout(l: Ledger, who: NodeId)
    ensures Plain(Without(l, who)) == Remove(Plain(l), who)
  {
    if l != [] {
      assert Plain(l)[1..] == Plain(l[1..]);
      PlainWithout(l[1..], who);
      assert Plain([l[0]] + Without(l[1..], who)) == [l[0].request] + Plain(Without(l[1..], who));
    }
  }

  lemma PlainMark(l: Ledger, me: NodeId, sent: seq<Message>)
    ensures Plain(Mark(l, me, sent)) == Plain(l)
  {}

  lemma PlainDropped(l: Ledger, rs: seq<Request>)
    requires rs == Plain(l) || (|l| > 0 && rs == Plain(l)[1..])
    ensures Plain(Dropped(l, |rs|)) == rs
  {}

  /** The ledger follows the list. */
  lemma LedgerFollows(l: Ledger, s: State, e: Event)
    requires Enabled(s, e) && Plain(l) == s.pages[Actor(e)].requests
    ensures Plain(NextLedger(l, s, e)) == EffectOf(s, e).page.requests
  {
    hide LastWriter, Grants, LeadingReaders, Remove, Without, Plain, OnAsk, Mark;
    var p, rs := s.pages[Actor(e)], EffectOf(s, e).page.requests;
    PlainMark(Moved(l, s, e), Actor(e), EffectOf(s, e).sent);
    match e
    case CallAsk(_, _) => PlainAdded(l, rs);
    case DeliverAsk(_, i, t) => AskIsNeverLost(p, Actor(e), i, t); PlainAdded(l, rs);
    case CallUnlock(n) =>
      PlainWithout(l, n);
      if p.mode == Reading && p.haveToken == n { PlainDropped(Without(l, n), rs); } else { PlainDropped(l, rs); }
    case DeliverUnlock(_, x) =>
      PlainWithout(l, x);
      if p.haveToken == Actor(e) { PlainDropped(Without(l, x), rs); }
    case _ =>
  }

  lemma PlainAdded(l: Ledger, rs: seq<Request>)
    requires rs == Plain(l) || (|rs| > 0 && rs == [rs[0]] + Plain(l))
    ensures Plain(if |rs| > |l| then [Entry(rs[0], false)] + l else l) == rs
  {
    if |rs| > |l| { PlainFirst(l, Entry(rs[0], false)); }
  }

  lemma PlainFirst(l: Ledger, x: Entry)
    ensures Plain([x] + l) == [x.request] + Plain(l)
  {
    var m := [x] + l;
    assert forall k :: 0 < k < |m| ==> m[k] == l[k - 1];
  }

  // --- Readers without a grant.

  /** A listed reader, not the node's own, that no writer precedes and that was not granted. */
  ghost predicate Uncovered(l: Ledger, me: NodeId) {
    exists k :: Leads(Plain(l), k) && !l[k].told && l[k].request.who != me
  }

  ghost predicate Unanswered(p: Page, l: Ledger, me: NodeId) {
    p.haveToken == me && p.mode != Writing && Uncovered(l, me)
  }

  /** The list after the turn of `who` has ended, if the node keeps the token: the next writer, who
      would get it, is the node itself. */
  ghost predicate EndUncovers(l: Ledger, who: NodeId, me: NodeId) {
    var r := Without(l, who);
    if r != [] && r[0].request.mode == Write then r[0].request.who == me && Uncovered(r[1..], me) else Uncovered(r, me)
  }

  /** The steps that leave such a reader without a grant at a node that has the token and is not
      writing. */
  ghost predicate Uncovers(l: Ledger, s: State, e: Event)
    requires Enabled(s, e)
  {
    var p, me := s.pages[Actor(e)], Actor(e);
    match e
    case CallUnlock(_) =>
      if p.mode == Writing then p.requests != [] && p.requests[0] == Request(me, Write) && l != [] && Uncovered(l[1..], me)
      else p.haveToken == me && EndUncovers(l, me, me)
    case DeliverUnlock(_, x) => p.haveToken == me && p.mode != Writing && EndUncovers(l, x, me)
    case DeliverGet(_, x, t) => p.mode == Reading && p.haveToken != me && (t == Write || x == me) && Uncovered(l, me)
    case DeliverAsk(_, i, t) =>
      p.mode != Writing &&
      if p.haveToken == me then t == Read && i != me && LastWriter(p.requests) == me
      else t == Write && i == me && LastWriter(p.requests) == EmptyNode && Uncovered(l, me)
    case _ => false
  }

  // --- What marking and adding do.

  lemma UncoveredKept(l: Ledger, me: NodeId, sent: seq<Message>)
    requires forall x :: GetLock(x, me, Read) !in sent
    ensures Mark(l, me, sent) == l
  {}

  lemma AddedFirst(l: Ledger, r: Request, me: NodeId, sent: seq<Message>)
    requires forall x :: x != r.who ==> GetLock(x, me, Read) !in sent
    requires r.mode == Read ==> GetLock(r.who, me, Read) in sent || r.who == me
    requires !Uncovered(l, me)
    ensures !Uncovered(Mark([Entry(r, false)] + l, me, sent), me)
  {
    var m := Mark([Entry(r, false)] + l, me, sent);
    forall k | Leads(Plain(m), k) ensures m[k].told || m[k].request.who == me {
      if k == 0 {
        assert Plain(m)[..1][0] == r;
      } else {
        assert Plain(m)[..k + 1][1..] == Plain(l)[..k];
        assert forall j :: 0 <= j < k ==> Plain(l)[..k][j] == Plain(m)[..k + 1][j + 1];
        assert Leads(Plain(l), k - 1);
      }
    }
  }

  lemma AddedUngranted(l: Ledger, i: NodeId, me: NodeId)
    requires i != me
    ensures Uncovered([Entry(Request(i, Read), false)] + l, me)
  {
    var m := [Entry(Request(i, Read), false)] + l;
    assert Leads(Plain(m), 0);
  }

  /** All readers that lead are granted at the end of a writer's turn. */
  lemma LeadersMarked(l: Ledger, p: Page, me: NodeId)
    requires Plain(l) == p.requests && p.mode == Writing && Leads(p.requests, 0)
    ensures !Uncovered(Mark(l, me, Unlock(p, me).sent), me)
  {
    hide Unlock, Plain;
    var sent := Unlock(p, me).sent;
    var m := Mark(l, me, sent);
    PlainMark(l, me, sent);
    UnlockGrantsIff(p, me, me);
    forall k | Leads(Plain(m), k) ensures m[k].told {
      assert sent[k] == GetLock(p.requests[k].who, me, Read);
      assert p.requests[..k + 1][k] == p.requests[k];
    }
  }

  // --- The steps, one kind at a time.

  lemma CallUncovers(l: Ledger, s: State, e: Event)
    requires Enabled(s, e) && (e.CallAsk? || e.CallResume?) && Plain(l) == s.pages[Actor(e)].requests
    requires !Unanswered(s.pages[Actor(e)], l, Actor(e))
    ensures !Unanswered(EffectOf(s, e).page, NextLedger(l, s, e), Actor(e))
  {
    hide Uncovered, Plain, Mark;
    var me, sent := Actor(e), EffectOf(s, e).sent;
    UncoveredKept(l, me, sent);
    if e.CallAsk? && !Uncovered(l, me) { AddedFirst(l, Request(me, e.t), me, sent); }
  }

  lemma GetUncovers(l: Ledger, s: State, e: Event)
    requires Enabled(s, e) && e.DeliverGet? && !Unanswered(s.pages[Actor(e)], l, Actor(e))
    ensures Unanswered(EffectOf(s, e).page, NextLedger(l, s, e), Actor(e)) <==> Uncovers(l, s, e)
  {
    hide Uncovered, Mark;
    UncoveredKept(l, Actor(e), []);
  }

  lemma EndIs(l: Ledger, p: Page, who: NodeId, me: NodeId)
    requires Plain(l) == p.requests
    ensures var q := LocalUnlock(p, me, who);
      && (p.haveToken == me && Uncovered(Mark(Ended(l, who, |q.page.requests|), me, q.sent), me) && q.page.haveToken == me
          <==> p.haveToken == me && EndUncovers(l, who, me))
  {
    hide Uncovered, Plain, Mark, Remove, Without;
    PlainWithout(l, who);
    var q, r := LocalUnlock(p, me, who), Without(l, who);
    LocalUnlockGrantsNobody(p, me, who);
    UncoveredKept(Ended(l, who, |q.page.requests|), me, q.sent);
  }

  lemma LocalUnlockGrantsNobody(p: Page, me: NodeId, who: NodeId)
    ensures forall x :: GetLock(x, me, Read) !in LocalUnlock(p, me, who).sent
  {
    hide LocalUnlock;
    forall x ensures GetLock(x, me, Read) !in LocalUnlock(p, me, who).sent { LocalUnlockGrants(p, me, who, x); }
  }

  lemma UnlockUncovers(l: Ledger, s: State, e: Event)
    requires Enabled(s, e) && e.CallUnlock? && Plain(l) == s.pages[Actor(e)].requests
    requires !Unanswered(s.pages[Actor(e)], l, Actor(e))
    ensures Unanswered(EffectOf(s, e).page, NextLedger(l, s, e), Actor(e)) <==> Uncovers(l, s, e)
  {
    hide Uncovered, Plain, Mark, LocalUnlock, EndUncovers, Ended, Unlock;
    var p, me := s.pages[Actor(e)], Actor(e);
    if p.mode == Reading {
      ReadingUnlock(l, p, me);
      EndIs(l, p, me, me);
    } else {
      WritingUnlock(l, p, me);
    }
  }

  /** The forms of an unlock. */
  lemma ReadingUnlock(l: Ledger, p: Page, me: NodeId)
    requires p.mode == Reading
    ensures var e := Unlock(p, me);
      if p.haveToken == me then
        e.sent == LocalUnlock(p, me, me).sent && e.page == LocalUnlock(p, me, me).page.(mode := Unlocked)
      else e.page.haveToken != me
  {
    hide LocalUnlock;
  }

  lemma WritingUnlock(l: Ledger, p: Page, me: NodeId)
    requires p.mode == Writing && Plain(l) == p.requests
    ensures var e := Unlock(p, me);
      && e.page.mode != Writing
      && (e.page.haveToken == me && Uncovered(Mark(Dropped(l, |e.page.requests|), me, e.sent), me) <==>
          p.requests != [] && p.requests[0] == Request(me, Write) && l != [] && Uncovered(l[1..], me))
  {
    hide Uncovered, Plain, Mark, Grants, LeadingReaders;
    var e := Unlock(p, me);
    if p.requests == [] {
      UncoveredKept(l, me, e.sent);
      NobodyListed(l, me);
    } else if p.requests[0].mode == Read {
      assert p.requests[..1][0] == p.requests[0];
      LeadersMarked(l, p, me);
    } else {
      UncoveredKept(l[1..], me, e.sent);
    }
  }

  lemma NobodyListed(l: Ledger, me: NodeId)
    requires l == []
    ensures !Uncovered(l, me)
  {}

  lemma EndUncoversAt(l: Ledger, s: State, e: Event)
    requires Enabled(s, e) && e.DeliverUnlock? && Plain(l) == s.pages[Actor(e)].requests
    requires !Unanswered(s.pages[Actor(e)], l, Actor(e))
    ensures Unanswered(EffectOf(s, e).page, NextLedger(l, s, e), Actor(e)) <==> Uncovers(l, s, e)
  {
    hide Uncovered, Plain, Mark, LocalUnlock, EndUncovers, Ended;
    EndIs(l, s.pages[Actor(e)], e.sender, Actor(e));
    SameMode(s.pages[Actor(e)], Actor(e), e.sender);
  }

  lemma SameMode(p: Page, me: NodeId, who: NodeId)
    ensures LocalUnlock(p, me, who).page.mode == p.mode
  {
    hide Remove;
  }

  lemma AskUncovers(l: Ledger, s: State, e: Event)
    requires Enabled(s, e) && e.DeliverAsk? && Plain(l) == s.pages[Actor(e)].requests && Actor(e) != EmptyNode
    requires !Unanswered(s.pages[Actor(e)], l, Actor(e))
    ensures Unanswered(EffectOf(s, e).page, NextLedger(l, s, e), Actor(e)) <==> Uncovers(l, s, e)
  {
    hide Uncovered, Plain, Mark, LastWriter;
    var p, me, i, t, sent := s.pages[Actor(e)], Actor(e), e.initiator, e.t, EffectOf(s, e).sent;
    if |EffectOf(s, e).page.requests| == |p.requests| {
      UncoveredKept(l, me, sent);
      if p.requests == [] { NobodyListed(l, me); }
    } else if p.haveToken == me && p.mode != Writing {
      if LastWriter(p.requests) == me && t == Read && i != me {
        UncoveredKept([Entry(Request(i, Read), false)] + l, me, sent);
        AddedUngranted(l, i, me);
      } else {
        AddedFirst(l, Request(i, t), me, sent);
      }
    }
  }

  /** Exactly these steps leave a reader that no writer precedes without a grant at a node that has
      the token and is not writing: a writer's request is taken off its list by the end of a reader's
      turn, or by its own unlock if it is itself the next writer; a reader is listed behind its own
      write request; or it comes to name itself when it did not name itself before. */
  lemma UnansweredIff(l: Ledger, s: State, e: Event)
    requires Enabled(s, e) && EmptyNode !in s.pages && Plain(l) == s.pages[Actor(e)].requests
    requires !Unanswered(s.pages[Actor(e)], l, Actor(e))
    ensures Unanswered(EffectOf(s, e).page, NextLedger(l, s, e), Actor(e)) <==> Uncovers(l, s, e)
  {
    hide Unanswered, NextLedger, Plain, EffectOf;
    match e
    case CallAsk(_, _) => CallUncovers(l, s, e);
    case CallResume(_) => CallUncovers(l, s, e);
    case CallUnlock(_) => UnlockUncovers(l, s, e);
    case DeliverAsk(_, _, _) => AskUncovers(l, s, e);
    case DeliverGet(_, _, _) => GetUncovers(l, s, e);
    case DeliverUnlock(_, _) => EndUncoversAt(l, s, e);
  }

  // --- Runs.

  /** The ledgers of all nodes. */
  type Books = map<NodeId, Ledger>

  ghost predicate BooksFit(s: State, b: Books) {
    && EmptyNode !in s.pages && b.Keys == s.pages.Keys
    && forall n {:trigger s.pages[n]} :: n in s.pages ==> Plain(b[n]) == s.pages[n].requests
  }

  function NextBooks(b: Books, s: State, e: Event): Books
    requires Enabled(s, e) && b.Keys == s.pages.Keys
  {
    b[Actor(e) := NextLedger(b[Actor(e)], s, e)]
  }

  lemma NextFits(b: Books, s: State, e: Event)
    requires BooksFit(s, b) && Enabled(s, e)
    ensures BooksFit(Step(s, e), NextBooks(b, s, e))
  {
    hide Plain, NextLedger, EffectOf;
    LedgerFollows(b[Actor(e)], s, e);
  }

  /** No step of the run is one of these. */
  ghost predicate Covered(b: Books, s: State, es: seq<Event>)
    requires BooksFit(s, b) && IsRun(s, es)
    decreases |es|
  {
    es == [] || (
      NextFits(b, s, es[0]);
      !Uncovers(b[Actor(es[0])], s, es[0]) && Covered(NextBooks(b, s, es[0]), Step(s, es[0]), es[1..]))
  }

  ghost function BooksAfter(b: Books, s: State, es: seq<Event>): Books
    requires BooksFit(s, b) && IsRun(s, es)
    decreases |es|
  {
    if es == [] then b else NextFits(b, s, es[0]); BooksAfter(NextBooks(b, s, es[0]), Step(s, es[0]), es[1..])
  }

  ghost predicate AllAnswered(s: State, b: Books) {
    BooksFit(s, b) && forall n {:trigger s.pages[n]} :: n in s.pages ==> !Unanswered(s.pages[n], b[n], n)
  }

  lemma StepAnswers(b: Books, s: State, e: Event)
    requires AllAnswered(s, b) && Enabled(s, e) && !Uncovers(b[Actor(e)], s, e)
    ensures AllAnswered(Step(s, e), NextBooks(b, s, e))
  {
    hide Plain, NextLedger, EffectOf, Unanswered, Uncovers;
    NextFits(b, s, e);
    UnansweredIff(b[Actor(e)], s, e);
  }

  /** Over any run with readers and writers: as long as no such step happens, every reader that no
      writer precedes in the list of a node that has the token and is not writing has been granted. */
  lemma {:induction false} ReadersAreGranted(b: Books, s: State, es: seq<Event>)
    requires AllAnswered(s, b) && IsRun(s, es) && Covered(b, s, es)
    ensures AllAnswered(After(s, es), BooksAfter(b, s, es))
    decreases |es|
  {
    hide Step, Enabled, NextBooks, Uncovers;
    if es != [] {
      StepAnswers(b, s, es[0]);
      ReadersAreGranted(NextBooks(b, s, es[0]), Step(s, es[0]), es[1..]);
    }
  }

  function NoEntries(s: State): Books {
    map n | n in s.pages :: []
  }

  lemma InitAnswered(nodes: set<NodeId>, first: NodeId)
    requires EmptyNode !in nodes
    ensures AllAnswered(M.Init(nodes, first), NoEntries(M.Init(nodes, first)))
  {
    hide Uncovered;
    forall n ensures !Uncovered([], n) { NobodyListed([], n); }
  }
}
