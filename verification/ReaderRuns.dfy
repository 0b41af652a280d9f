/**
 A reader's way into the lock and out of it, and runs in which everybody reads.
 */
module ReaderRuns {
  import opened Nodes
  import opened PageLock
  import M = LockMachine
  import opened MixedLock

  lemma {:induction false} Joined(s: State, es: seq<Event>, more: seq<Event>)
    requires IsRun(s, es) && IsRun(After(s, es), more)
    ensures IsRun(s, es + more) && After(s, es + more) == After(After(s, es), more)
    decreases |es|
  {
    hide Enabled, Step;
    if es == [] {
      assert es + more == more;
    } else {
      Joined(Step(s, es[0]), es[1..], more);
      assert (es + more)[1..] == es[1..] + more;
    }
  }

  lemma Single(s: State, e: Event)
    requires Enabled(s, e)
    ensures IsRun(s, [e]) && After(s, [e]) == Step(s, e)
  {
    hide Enabled, Step;
    assert [e][1..] == [];
  }

  // --- The way of a reader's request.

  /** The request of a reader that starts at `path[0]` is passed on along the path to its last node
      `h`, which has the token. No writer is listed on the way. */
  ghost predicate Path(s: State, path: seq<NodeId>, h: NodeId) {
    && path != [] && path[|path| - 1] == h
    && (forall j :: 0 <= j < |path| ==>
      path[j] in s.pages && path[j] != EmptyNode && NodesNamed(s.pages[path[j]].requests) && NoWriter(s.pages[path[j]].requests))
    && (forall j :: 0 <= j < |path| - 1 ==> s.pages[path[j]].haveToken == path[j + 1] != path[j])
    && s.pages[h].haveToken == h
  }

  /** The reader `r` is outside the lock, with nothing pending, and its request takes this path. */
  ghost predicate CanAsk(s: State, r: NodeId, path: seq<NodeId>, h: NodeId) {
    && r in s.pages && s.pages[r].mode == Unlocked && !M.Blocked(s.pages[r]) && !s.pages[r].signalled
    && Path(s, path, h) && r !in path && s.pages[r].haveToken == path[0]
  }

  function Asks(path: seq<NodeId>, r: NodeId): seq<Event> {
    if path == [] then [] else [DeliverAsk(path[0], r, Read)] + Asks(path[1..], r)
  }

  function Listed(p: Page, r: NodeId): Page {
    p.(requests := [Request(r, Read)] + p.requests)
  }

  lemma Forwarded(s: State, d: NodeId, r: NodeId, net: multiset<Message>)
    requires d in s.pages && d != EmptyNode && NodesNamed(s.pages[d].requests) && NoWriter(s.pages[d].requests)
    requires s.pages[d].haveToken != d && s.net == net + multiset{AskLock(d, r, Read)}
    ensures Enabled(s, DeliverAsk(d, r, Read))
    ensures Step(s, DeliverAsk(d, r, Read)) == M.State(s.pages, net + multiset{AskLock(s.pages[d].haveToken, r, Read)})
  {
    hide LastWriter, NodesNamed, NoWriter;
    LastWriterIff(s.pages[d].requests);
    assert s.pages[d := s.pages[d]] == s.pages;
  }

  lemma Arrived(s: State, h: NodeId, r: NodeId, net: multiset<Message>)
    requires h in s.pages && h != EmptyNode && NodesNamed(s.pages[h].requests) && NoWriter(s.pages[h].requests)
    requires s.pages[h].haveToken == h && s.net == net + multiset{AskLock(h, r, Read)}
    ensures Enabled(s, DeliverAsk(h, r, Read))
    ensures Step(s, DeliverAsk(h, r, Read)) == M.State(
      s.pages[h := Listed(s.pages[h], r)],
      net + if s.pages[h].mode == Writing then multiset{} else multiset{GetLock(r, h, Read)})
  {
    hide LastWriter, NodesNamed, NoWriter;
    LastWriterIff(s.pages[h].requests);
    assert Step(s, DeliverAsk(h, r, Read)).net == net + if s.pages[h].mode == Writing then multiset{} else multiset{GetLock(r, h, Read)};
  }

  lemma PathGoesOn(s: State, path: seq<NodeId>, h: NodeId)
    requires Path(s, path, h) && |path| > 1
    ensures Path(s, path[1..], h)
  {
    hide NodesNamed, NoWriter;
    var rest := path[1..];
    assert forall j :: 0 <= j < |rest| ==> rest[j] == path[j + 1];
  }

  lemma PathEnds(s: State, path: seq<NodeId>, h: NodeId)
    requires Path(s, path, h)
    ensures path != [] && path[0] in s.pages && path[0] in path && h in path
    ensures h in s.pages && s.pages[h].haveToken == h && NoWriter(s.pages[h].requests)
  {
    assert path[|path| - 1] in path;
  }

  /** The request gets to the node that has the token, which lists it, and grants it unless it is
      writing. */
  lemma {:induction false} RequestArrives(s: State, path: seq<NodeId>, h: NodeId, r: NodeId, net: multiset<Message>)
    requires Path(s, path, h) && h in s.pages && path != [] && s.net == net + multiset{AskLock(path[0], r, Read)}
    ensures IsRun(s, Asks(path, r))
    ensures After(s, Asks(path, r)) == M.State(
      s.pages[h := Listed(s.pages[h], r)],
      net + if s.pages[h].mode == Writing then multiset{} else multiset{GetLock(r, h, Read)})
    decreases |path|
  {
    hide NodesNamed, NoWriter, Enabled, Step, Listed;
    var d, e := path[0], DeliverAsk(path[0], r, Read);
    if |path| == 1 {
      Arrived(s, d, r, net);
      assert Asks(path, r) == [e];
      Single(s, e);
    } else {
      Forwarded(s, d, r, net);
      PathGoesOn(s, path, h);
      var t := Step(s, e);
      SamePath(s, t, path[1..], h);
      RequestArrives(t, path[1..], h, r, net);
      assert Asks(path, r)[1..] == Asks(path[1..], r);
    }
  }

  lemma SamePath(s: State, t: State, path: seq<NodeId>, h: NodeId)
    requires Path(s, path, h) && t.pages == s.pages
    ensures Path(t, path, h)
  {}

  lemma PathBeside(s: State, t: State, path: seq<NodeId>, h: NodeId, r: NodeId)
    requires Path(s, path, h) && r !in path && t.pages.Keys == s.pages.Keys
    requires forall n {:trigger t.pages[n]} :: n in t.pages && n != r ==> t.pages[n] == s.pages[n]
    ensures Path(t, path, h)
  {
    hide NodesNamed, NoWriter;
    forall j | 0 <= j < |path| ensures path[j] != r { assert path[j] in path; }
  }

  // --- In and out.

  function Inside(p: Page, h: NodeId): Page {
    p.(mode := Reading, haveToken := h)
  }

  function Waits(p: Page): Page {
    p.(mode := Reading, waiting := true)
  }

  lemma AskStep(s: State, r: NodeId)
    requires r in s.pages && s.pages[r].mode == Unlocked && !M.Blocked(s.pages[r]) && s.pages[r].haveToken != r
    ensures Enabled(s, CallAsk(r, Read))
    ensures Step(s, CallAsk(r, Read)) == M.State(s.pages[r := Waits(s.pages[r])], s.net + multiset{AskLock(s.pages[r].haveToken, r, Read)})
  {
    assert Step(s, CallAsk(r, Read)).net == s.net + multiset{AskLock(s.pages[r].haveToken, r, Read)};
  }

  lemma GetStep(s: State, r: NodeId, h: NodeId, net: multiset<Message>)
    requires r in s.pages && s.pages[r].mode == Reading && s.net == net + multiset{GetLock(r, h, Read)}
    ensures Enabled(s, DeliverGet(r, h, Read))
    ensures Step(s, DeliverGet(r, h, Read)) == M.State(s.pages[r := s.pages[r].(haveToken := h, signalled := true)], net)
  {
    assert Step(s, DeliverGet(r, h, Read)).net == net;
  }

  lemma ResumeStep(s: State, r: NodeId)
    requires r in s.pages && s.pages[r].waiting && s.pages[r].signalled
    ensures Enabled(s, CallResume(r)) && Step(s, CallResume(r)) == M.State(s.pages[r := Resume(s.pages[r])], s.net)
  {
    assert Step(s, CallResume(r)).net == s.net;
  }

  lemma UnlockStep(s: State, r: NodeId)
    requires r in s.pages && s.pages[r].mode == Reading && !M.Blocked(s.pages[r]) && s.pages[r].haveToken != r
    ensures Enabled(s, CallUnlock(r))
    ensures Step(s, CallUnlock(r)) ==
      M.State(s.pages[r := s.pages[r].(mode := Unlocked)], s.net + multiset{UnlockPage(s.pages[r].haveToken, r)})
  {
    assert Step(s, CallUnlock(r)).net == s.net + multiset{UnlockPage(s.pages[r].haveToken, r)};
  }

  lemma EndStep(s: State, h: NodeId, r: NodeId, rs: seq<Request>, net: multiset<Message>)
    requires h in s.pages && s.pages[h].haveToken == h && s.pages[h].requests == [Request(r, Read)] + rs && NoWriter(rs)
    requires s.net == net + multiset{UnlockPage(h, r)}
    ensures Enabled(s, DeliverUnlock(h, r))
    ensures Step(s, DeliverUnlock(h, r)) == M.State(s.pages[h := s.pages[h].(requests := rs)], net)
  {
    assert Remove([Request(r, Read)] + rs, r) == rs;
    assert Step(s, DeliverUnlock(h, r)).net == net;
  }

  lemma Pair(s: State, e: Event, f: Event)
    requires Enabled(s, e) && Enabled(Step(s, e), f)
    ensures IsRun(s, [e, f]) && After(s, [e, f]) == Step(Step(s, e), f)
  {
    hide Enabled, Step;
    Single(Step(s, e), f);
    assert [e, f][1..] == [f];
  }

  function WayIn(r: NodeId, path: seq<NodeId>): seq<Event> {
    [CallAsk(r, Read)] + Asks(path, r)
  }

  function Entering(r: NodeId, h: NodeId): seq<Event> {
    [DeliverGet(r, h, Read), CallResume(r)]
  }

  function Leaving(r: NodeId, h: NodeId): seq<Event> {
    [CallUnlock(r), DeliverUnlock(h, r)]
  }

  /** After the call and the deliveries of the request along the path. */
  lemma ReaderIsListed(s: State, r: NodeId, path: seq<NodeId>, h: NodeId)
    requires CanAsk(s, r, path, h)
    ensures h in s.pages && h != r && IsRun(s, WayIn(r, path))
    ensures After(s, WayIn(r, path)) == M.State(
      s.pages[r := Waits(s.pages[r])][h := Listed(s.pages[h], r)],
      s.net + if s.pages[h].mode == Writing then multiset{} else multiset{GetLock(r, h, Read)})
  {
    hide Enabled, Step, Listed, Path;
    PathEnds(s, path, h);
    AskStep(s, r);
    var t := Step(s, CallAsk(r, Read));
    PathBeside(s, t, path, h, r);
    RequestArrives(t, path, h, r, s.net);
    Single(s, CallAsk(r, Read));
    Joined(s, [CallAsk(r, Read)], Asks(path, r));
  }

  /** The grant arrives and the caller goes on. */
  lemma GrantLetsIn(s: State, r: NodeId, h: NodeId, net: multiset<Message>)
    requires r in s.pages && s.pages[r].mode == Reading && s.pages[r].waiting && s.net == net + multiset{GetLock(r, h, Read)}
    ensures IsRun(s, Entering(r, h))
    ensures After(s, Entering(r, h)) == M.State(s.pages[r := Resume(s.pages[r].(haveToken := h))], net)
  {
    hide Enabled, Step;
    GetStep(s, r, h, net);
    var t := Step(s, DeliverGet(r, h, Read));
    ResumeStep(t, r);
    Pair(s, DeliverGet(r, h, Read), CallResume(r));
    assert t.pages[r := Resume(t.pages[r])] == s.pages[r := Resume(s.pages[r].(haveToken := h))];
  }

  /** A reader whose request leads to a token holder that is not writing and has no writer listed
      gets in: it reads, names that node, is listed there first, and nothing else has changed. */
  lemma ReaderGetsIn(s: State, r: NodeId, path: seq<NodeId>, h: NodeId)
    requires CanAsk(s, r, path, h) && h in s.pages && s.pages[h].mode != Writing
    ensures IsRun(s, WayIn(r, path) + Entering(r, h))
    ensures After(s, WayIn(r, path) + Entering(r, h)) ==
      M.State(s.pages[h := Listed(s.pages[h], r)][r := Inside(s.pages[r], h)], s.net)
  {
    hide IsRun, After, Listed, Path, WayIn, Entering;
    ReaderIsListed(s, r, path, h);
    var t := After(s, WayIn(r, path));
    GrantLetsIn(t, r, h, s.net);
    Joined(s, WayIn(r, path), Entering(r, h));
    assert t.pages[r := Resume(t.pages[r].(haveToken := h))] == s.pages[h := Listed(s.pages[h], r)][r := Inside(s.pages[r], h)];
  }

  /** It goes out again: its UNLOCK takes exactly its own request off the list. */
  lemma ReaderGoesOut(s: State, r: NodeId, h: NodeId, rs: seq<Request>)
    requires r in s.pages && h in s.pages && r != h && s.pages[r].mode == Reading && !M.Blocked(s.pages[r])
    requires s.pages[r].haveToken == h && s.pages[h].haveToken == h
    requires s.pages[h].requests == [Request(r, Read)] + rs && NoWriter(rs)
    ensures IsRun(s, Leaving(r, h))
    ensures After(s, Leaving(r, h)) ==
      M.State(s.pages[r := s.pages[r].(mode := Unlocked)][h := s.pages[h].(requests := rs)], s.net)
  {
    hide Enabled, Step, NoWriter;
    UnlockStep(s, r);
    EndStep(Step(s, CallUnlock(r)), h, r, rs, s.net);
    Pair(s, CallUnlock(r), DeliverUnlock(h, r));
  }

  /** In and out: all is as it was, but that the reader knows the token's owner now. */
  lemma ReaderRoundTrip(s: State, r: NodeId, path: seq<NodeId>, h: NodeId)
    requires CanAsk(s, r, path, h) && h in s.pages && s.pages[h].mode != Writing
    ensures var es := WayIn(r, path) + Entering(r, h) + Leaving(r, h);
      IsRun(s, es) && After(s, es) == M.State(s.pages[r := s.pages[r].(haveToken := h)], s.net)
  {
    hide IsRun, After, Path, WayIn, Entering, Leaving, NoWriter;
    PathEnds(s, path, h);
    assert h != r;
    ReaderGetsIn(s, r, path, h);
    var es := WayIn(r, path) + Entering(r, h);
    var t := After(s, es);
    ReaderGoesOut(t, r, h, s.pages[h].requests);
    Joined(s, es, Leaving(r, h));
    assert t.pages[r := t.pages[r].(mode := Unlocked)][h := t.pages[h].(requests := s.pages[h].requests)]
      == s.pages[r := s.pages[r].(haveToken := h)];
  }

  /** If that node is writing, the reader is listed and waits, without a grant. */
  lemma ReaderWaits(s: State, r: NodeId, path: seq<NodeId>, h: NodeId)
    requires CanAsk(s, r, path, h) && h in s.pages && s.pages[h].mode == Writing
    ensures IsRun(s, WayIn(r, path))
    ensures After(s, WayIn(r, path)) == M.State(s.pages[r := Waits(s.pages[r])][h := Listed(s.pages[h], r)], s.net)
  {
    hide IsRun, After, Path, WayIn, Listed, CanAsk;
    ReaderIsListed(s, r, path, h);
    assert s.net + multiset{} == s.net;
  }

  lemma AllGranted(p: Page, h: NodeId)
    requires p.mode == Writing && p.requests != [] && NoWriter(p.requests)
    ensures Unlock(p, h) == Effect(p.(mode := Unlocked), Grants(p.requests, h))
  {
    hide Grants;
    ReaderCountIs(p.requests, |p.requests|);
    assert LeadingReaders(p.requests) == p.requests;
  }

  lemma WriterUnlocks(s: State, h: NodeId, r: NodeId, rs: seq<Request>)
    requires h in s.pages && s.pages[h].mode == Writing && !M.Blocked(s.pages[h])
    requires s.pages[h].requests == [Request(r, Read)] + rs && NoWriter(rs)
    ensures Enabled(s, CallUnlock(h))
    ensures Step(s, CallUnlock(h)) == M.State(
      s.pages[h := s.pages[h].(mode := Unlocked)], s.net + multiset{GetLock(r, h, Read)} + multiset(Grants(rs, h)))
  {
    hide Unlock, Grants;
    AllRead(r, rs);
    AllGranted(s.pages[h], h);
    GrantsOfAll(r, rs, h);
    assert Step(s, CallUnlock(h)).net == s.net + multiset{GetLock(r, h, Read)} + multiset(Grants(rs, h));
  }

  lemma AllRead(r: NodeId, rs: seq<Request>)
    requires NoWriter(rs)
    ensures NoWriter([Request(r, Read)] + rs)
  {}

  lemma GrantsOfAll(r: NodeId, rs: seq<Request>, h: NodeId)
    ensures multiset(Grants([Request(r, Read)] + rs, h)) == multiset{GetLock(r, h, Read)} + multiset(Grants(rs, h))
  {
    assert ([Request(r, Read)] + rs)[1..] == rs;
    assert Grants([Request(r, Read)] + rs, h) == [GetLock(r, h, Read)] + Grants(rs, h);
  }

  /** The end of the writer's turn grants it, and every other reader listed, and it gets in. */
  lemma WriterLetsReaderIn(s: State, r: NodeId, path: seq<NodeId>, h: NodeId)
    requires CanAsk(s, r, path, h) && h in s.pages && s.pages[h].mode == Writing && !M.Blocked(s.pages[h])
    ensures var es := WayIn(r, path) + [CallUnlock(h)] + Entering(r, h);
      && IsRun(s, es)
      && After(s, es).net == s.net + multiset(Grants(s.pages[h].requests, h))
      && After(s, es).pages == s.pages[h := Listed(s.pages[h], r).(mode := Unlocked)][r := Inside(s.pages[r], h)]
  {
    hide IsRun, After, Path, WayIn, Entering, NoWriter, Step, Enabled, Grants;
    PathEnds(s, path, h);
    assert h != r;
    ReaderWaits(s, r, path, h);
    var t := After(s, WayIn(r, path));
    WriterUnlocks(t, h, r, s.pages[h].requests);
    Single(t, CallUnlock(h));
    Joined(s, WayIn(r, path), [CallUnlock(h)]);
    var u := Step(t, CallUnlock(h));
    var net := s.net + multiset(Grants(s.pages[h].requests, h));
    assert u.net == net + multiset{GetLock(r, h, Read)};
    GrantLetsIn(u, r, h, net);
    Joined(s, WayIn(r, path) + [CallUnlock(h)], Entering(r, h));
  }
}
