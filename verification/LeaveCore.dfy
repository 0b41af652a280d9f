/**
 A node leaves the page locks: it ends its own turns, sends the lists of the tokens it still has
 to its delegate, and tells everybody to put the delegate in its place.
 */
module LeaveCore {
  import opened Nodes
  import opened PageLock
  import opened Wire
  import opened StateMessage

  // --- Before the hand-over: every turn of the leaver ends.

  /** A page after the leaver's turn, if there was one, has ended. */
  function Released(p: Page, me: NodeId): Page {
    if p.mode != Unlocked then Unlock(p, me).page else p
  }

  /** The identifiers of the nodes as they travel. */
  type Directory = map<NodeId, Peer>

  predicate Known(rs: seq<Request>, dir: Directory) {
    |rs| < INT_LIMIT && forall r :: r in rs ==> r.who in dir && dir[r.who].Valid()
  }

  function Packed(rs: seq<Request>, dir: Directory): (ws: seq<Waiting>)
    requires Known(rs, dir)
    ensures |ws| == |rs| && forall k :: 0 <= k < |rs| ==> ws[k] == Waiting(rs[k].mode, dir[rs[k].who])
  {
    seq(|rs|, k requires 0 <= k < |rs| => Waiting(rs[k].mode, dir[rs[k].who]))
  }

  lemma {:induction false} RemoveTakesAway(rs: seq<Request>, who: NodeId)
    ensures |Remove(rs, who)| <= |rs| && forall r :: r in Remove(rs, who) ==> r in rs
  {
    if rs != [] {
      RemoveTakesAway(rs[1..], who);
    }
  }

  lemma ReleasedIsKnown(p: Page, me: NodeId, dir: Directory)
    requires Known(p.requests, dir)
    ensures Known(Released(p, me).requests, dir)
  {
    hide Remove, Grants, LeadingReaders;
    RemoveTakesAway(p.requests, me);
  }

  /** A released page is free, and a token that moved did so with a write grant. */
  lemma ReleasedIsFree(p: Page, me: NodeId)
    ensures Released(p, me).mode == Unlocked
    ensures p.haveToken == me && Released(p, me).haveToken != me ==>
      p.mode != Unlocked && GetLock(Released(p, me).haveToken, me, Write) in Unlock(p, me).sent
  {
    hide Grants, LeadingReaders, Remove;
    if p.mode != Unlocked && p.haveToken == me { UnlockMovesToken(p, me); }
  }

  method UnlockAll(pages: array<Page>, me: NodeId) returns (sent: seq<seq<Message>>)
    modifies pages
    ensures |sent| == pages.Length
    ensures forall i :: 0 <= i < pages.Length ==> pages[i] == Released(old(pages[i]), me)
    ensures forall i :: 0 <= i < pages.Length ==>
      sent[i] == if old(pages[i]).mode != Unlocked then Unlock(old(pages[i]), me).sent else []
  {
    hide Unlock;
    sent := [];
    for i := 0 to pages.Length
      invariant |sent| == i
      invariant forall k :: i <= k < pages.Length ==> pages[k] == old(pages[k])
      invariant forall k :: 0 <= k < i ==> pages[k] == Released(old(pages[k]), me)
      invariant forall k :: 0 <= k < i ==> sent[k] == if old(pages[k]).mode != Unlocked then Unlock(old(pages[k]), me).sent else []
    {
      if pages[i].mode != Unlocked {
        var e := Unlock(pages[i], me);
        pages[i] := e.page;
        sent := sent + [e.sent];
      } else {
        sent := sent + [[]];
      }
    }
  }

  /** The leaver's lists and tokens as they are once its turns have ended. */
  method ReadPages(pages: array<Page>, dir: Directory) returns (from: array<seq<Waiting>>, tokens: array<NodeId>)
    requires forall i :: 0 <= i < pages.Length ==> Known(pages[i].requests, dir)
    ensures fresh(from) && fresh(tokens) && from.Length == tokens.Length == pages.Length
    ensures forall i :: 0 <= i < pages.Length ==> from[i] == Packed(pages[i].requests, dir) && tokens[i] == pages[i].haveToken
  {
    from, tokens := new seq<Waiting>[pages.Length](_ => []), new NodeId[pages.Length](_ => EmptyNode);
    for i := 0 to pages.Length
      invariant forall k :: 0 <= k < i ==> from[k] == Packed(pages[k].requests, dir) && tokens[k] == pages[k].haveToken
    {
      from[i] := Packed(pages[i].requests, dir);
      tokens[i] := pages[i].haveToken;
    }
  }

  /** `leave_core` up to SEND_STATE, and its handler at the delegate: every page whose token the
      leaver has once its turns ended gets the leaver's list, reversed, before the delegate's.
      The list of any other page goes nowhere. */
  method Leave(pages: array<Page>, me: NodeId, dir: Directory, lists: array<seq<Waiting>>) returns (sent: seq<seq<Message>>)
    requires pages.Length == lists.Length < INT_LIMIT
    requires forall i :: 0 <= i < pages.Length ==> Known(pages[i].requests, dir)
    modifies pages, lists
    ensures forall i :: 0 <= i < pages.Length ==> pages[i] == Released(old(pages[i]), me)
    ensures |sent| == pages.Length && forall i :: 0 <= i < pages.Length ==>
      sent[i] == if old(pages[i]).mode != Unlocked then Unlock(old(pages[i]), me).sent else []
    ensures forall i :: 0 <= i < pages.Length ==> Known(pages[i].requests, dir)
    ensures forall i :: 0 <= i < lists.Length ==>
      lists[i] == if pages[i].haveToken == me then Reversed(Packed(pages[i].requests, dir)) + old(lists[i]) else old(lists[i])
  {
    hide Released, Reversed, Unlock;
    forall i | 0 <= i < pages.Length ensures Known(Released(pages[i], me).requests, dir) { ReleasedIsKnown(pages[i], me, dir); }
    sent := UnlockAll(pages, me);
    var from, tokens := ReadPages(pages, dir);
    HandOver(from, tokens, me, lists);
  }

  // --- What becomes of the requests that the leaver keeps.

  /** The part of a page's list that SEND_STATE carries to the delegate. */
  function HandedOver(p: Page, me: NodeId): seq<Request> {
    if Released(p, me).haveToken == me then Released(p, me).requests else []
  }

  /** The requests that the end of the leaver's turn ends or answers: its own as a reader, and that
      of the writer who comes next. */
  function Answered(p: Page, me: NodeId): multiset<Request> {
    if p.mode == Reading && p.haveToken == me then FirstOf(p.requests, me) + LeadingWriter(Remove(p.requests, me))
    else if p.mode == Writing then LeadingWriter(p.requests)
    else multiset{}
  }

  /** The writer who gets the token when the leaver's turn ends, or else the node that has it now. */
  function TokenAfter(p: Page, me: NodeId): NodeId {
    var rs := if p.mode == Reading then Remove(p.requests, me) else p.requests;
    var toWriter := p.mode == Writing || (p.mode == Reading && p.haveToken == me);
    if toWriter && rs != [] && rs[0].mode == Write then rs[0].who else p.haveToken
  }

  lemma TokenAfterIs(p: Page, me: NodeId)
    ensures Released(p, me).haveToken == TokenAfter(p, me)
  {
    hide Grants, LeadingReaders, Remove;
  }

  lemma ReleaseConserves(p: Page, me: NodeId)
    ensures multiset(p.requests) == multiset(Released(p, me).requests) + Answered(p, me)
  {
    hide Grants, LeadingReaders, LocalUnlock, Remove, FirstOf, LeadingWriter;
    if p.mode == Reading && p.haveToken == me { LocalUnlockConserves(p, me, me); }
    if p.mode == Writing { WriterUnlockConserves(p, me); }
  }

  /** The requests of a page that the departure loses: neither ended nor answered, nor handed over. */
  function LostRequests(p: Page, me: NodeId): multiset<Request> {
    multiset(p.requests) - Answered(p, me) - multiset(HandedOver(p, me))
  }

  /** If the token stays with the leaver, every request not answered goes to the delegate; if it is
      elsewhere or leaves for the next writer, every such request is lost. */
  lemma RequestIsLostIff(p: Page, me: NodeId, r: Request)
    ensures r in LostRequests(p, me) <==> TokenAfter(p, me) != me && multiset(p.requests)[r] > Answered(p, me)[r]
    ensures TokenAfter(p, me) == me ==> multiset(p.requests) == Answered(p, me) + multiset(HandedOver(p, me))
    ensures TokenAfter(p, me) != me ==> multiset(p.requests) == Answered(p, me) + LostRequests(p, me)
  {
    hide Answered, Released, TokenAfter;
    TokenAfterIs(p, me);
    ReleaseConserves(p, me);
  }

  /** A leaver that is writing passes the token to the first waiting writer and loses the second. */
  lemma SecondWriterIsLost(me: NodeId, b: NodeId, c: NodeId)
    requires me != b
    ensures var p := Page(Writing, [Request(b, Write), Request(c, Write)], me, false, false, false);
      HandedOver(p, me) == [] && LostRequests(p, me) == multiset{Request(c, Write)}
  {
    var p := Page(Writing, [Request(b, Write), Request(c, Write)], me, false, false, false);
    TokenAfterIs(p, me);
    assert Answered(p, me) == multiset{Request(b, Write)};
  }

  // --- After it: the delegate takes the leaver's place.

  /** The requests of other nodes. */
  function Others(rs: seq<Request>, who: NodeId): seq<Request> {
    if rs == [] then [] else (if rs[0].who == who then [] else [rs[0]]) + Others(rs[1..], who)
  }

  /** The handler of DELEGATE, for one page. */
  function OnDelegate(p: Page, sender: NodeId, delegate: NodeId): Page {
    p.(haveToken := if p.haveToken == sender then delegate else p.haveToken, requests := Others(p.requests, sender))
  }

  lemma {:induction false} OthersKeepsRest(rs: seq<Request>, who: NodeId, r: Request)
    ensures multiset(Others(rs, who))[r] == if r.who == who then 0 else multiset(rs)[r]
  {
    if rs != [] {
      OthersKeepsRest(rs[1..], who, r);
      assert rs == [rs[0]] + rs[1..];
    }
  }

  /** Afterwards no page names the leaver, neither as the token's owner nor in its list, and the
      requests of the other nodes are all still there. */
  lemma DelegateReplacesLeaver(p: Page, sender: NodeId, delegate: NodeId)
    requires sender != delegate
    ensures var q := OnDelegate(p, sender, delegate);
      && q.haveToken != sender && (forall r :: r in q.requests ==> r.who != sender)
      && (forall r: Request :: r.who != sender ==> multiset(q.requests)[r] == multiset(p.requests)[r])
  {
    var q := OnDelegate(p, sender, delegate);
    forall r: Request ensures multiset(q.requests)[r] == if r.who == sender then 0 else multiset(p.requests)[r] {
      OthersKeepsRest(p.requests, sender, r);
    }
    forall r | r in q.requests ensures r.who != sender { assert r in multiset(q.requests); }
  }

  lemma {:induction false} OthersSplit(rs: seq<Request>, who: NodeId, k: nat)
    requires k < |rs|
    ensures Others(rs[..k + 1], who) == Others(rs[..k], who) + if rs[k].who == who then [] else [rs[k]]
    decreases k
  {
    if k > 0 {
      OthersSplit(rs[1..], who, k - 1);
      assert rs[..k + 1][1..] == rs[1..][..k] && rs[..k][1..] == rs[1..][..k - 1];
    } else {
      assert rs[..1] == [rs[0]] && rs[..1][1..] == [];
    }
  }

  method HandleDelegate(pages: array<Page>, sender: NodeId, delegate: NodeId)
    modifies pages
    ensures forall i :: 0 <= i < pages.Length ==> pages[i] == OnDelegate(old(pages[i]), sender, delegate)
  {
    for i := 0 to pages.Length
      invariant forall k :: i <= k < pages.Length ==> pages[k] == old(pages[k])
      invariant forall k :: 0 <= k < i ==> pages[k] == OnDelegate(old(pages[k]), sender, delegate)
    {
      var p := pages[i];
      if p.haveToken == sender {
        pages[i] := pages[i].(haveToken := delegate);
      }
      var left := RemoveAll(p.requests, sender);
      pages[i] := pages[i].(requests := left);
    }
  }

  method RemoveAll(rs: seq<Request>, who: NodeId) returns (left: seq<Request>)
    ensures left == Others(rs, who)
  {
    left := [];
    for k := 0 to |rs|
      invariant left == Others(rs[..k], who)
    {
      OthersSplit(rs, who, k);
      if rs[k].who != who {
        left := left + [rs[k]];
      }
    }
    assert rs[..|rs|] == rs;
  }
}
