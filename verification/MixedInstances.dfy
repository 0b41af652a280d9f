/**
 Runs of readers and writers in which the page lock does not do what it is for.
 */
module MixedInstances {
  import opened Nodes
  import opened PageLock
  import M = LockMachine
  import opened MixedLock
  import R = ReaderRuns

  lemma ReachableStep(s: State, e: Event)
    requires Reachable(s) && Enabled(s, e)
    ensures Reachable(Step(s, e))
  {
    hide Step, Enabled, IsRun, After;
    var nodes, first, es :| EmptyNode !in nodes && first in nodes
      && IsRun(M.Init(nodes, first), es) && s == After(M.Init(nodes, first), es);
    R.Single(s, e);
    R.Joined(M.Init(nodes, first), es, [e]);
  }

  lemma ReachableInit(nodes: set<NodeId>, first: NodeId)
    requires EmptyNode !in nodes && first in nodes
    ensures Reachable(M.Init(nodes, first))
  {
    var s := M.Init(nodes, first);
    assert IsRun(s, []) && After(s, []) == s;
  }

  /** The step leads to this state. */
  lemma Changes(s: State, e: Event, t: State)
    requires Reachable(s) && Enabled(s, e)
    requires t.pages == s.pages[Actor(e) := EffectOf(s, e).page] && t.net == s.net - Taken(e) + multiset(EffectOf(s, e).sent)
    ensures Reachable(t) && t == Step(s, e)
  {
    hide Reachable, EffectOf, Enabled, Taken;
    ReachableStep(s, e);
  }

  const A := NodeId.Node("a", 1)
  const B := NodeId.Node("b", 2)
  const C := NodeId.Node("c", 3)

  function Node(mode: Mode, requests: seq<Request>, haveToken: NodeId, signalled: bool, waiting: bool): Page {
    Page(mode, requests, haveToken, signalled, waiting, false)
  }

  function Two(a: Page, b: Page, net: multiset<Message>): State {
    M.State(map[A := a, B := b], net)
  }

  function Three(a: Page, b: Page, c: Page, net: multiset<Message>): State {
    M.State(map[A := a, B := b, C := c], net)
  }

  // --- A reader and a writer are in the lock together: the node that has the token ends its turn as a
  // --- reader and passes the token to the writer while the other reader is still in.

  const In0: State := Three(Node(Unlocked, [], A, false, false), Node(Unlocked, [], A, false, false), Node(Unlocked, [], A, false, false), multiset{})
  const In1: State := Three(Node(Reading, [Request(A, Read)], A, false, false), Node(Unlocked, [], A, false, false), Node(Unlocked, [], A, false, false), multiset{})
  const In2: State := Three(Node(Reading, [Request(A, Read)], A, false, false), Node(Reading, [], A, false, true), Node(Unlocked, [], A, false, false), multiset{AskLock(A, B, Read)})
  const In3: State := Three(Node(Reading, [Request(A, Read)], A, false, false), Node(Reading, [], A, false, true), Node(Writing, [], A, false, true), multiset{AskLock(A, B, Read), AskLock(A, C, Write)})
  const In4: State := Three(Node(Reading, [Request(B, Read), Request(A, Read)], A, false, false), Node(Reading, [], A, false, true), Node(Writing, [], A, false, true), multiset{AskLock(A, C, Write), GetLock(B, A, Read)})
  const In5: State := Three(Node(Reading, [Request(C, Write), Request(B, Read), Request(A, Read)], A, false, false), Node(Reading, [], A, false, true), Node(Writing, [], A, false, true), multiset{GetLock(B, A, Read)})
  const In6: State := Three(Node(Unlocked, [Request(B, Read)], C, false, false), Node(Reading, [], A, false, true), Node(Writing, [], A, false, true), multiset{GetLock(B, A, Read), GetLock(C, A, Write)})
  const In7: State := Three(Node(Unlocked, [Request(B, Read)], C, false, false), Node(Reading, [], A, true, true), Node(Writing, [], A, false, true), multiset{GetLock(C, A, Write)})
  const In8: State := Three(Node(Unlocked, [Request(B, Read)], C, false, false), Node(Reading, [], A, false, false), Node(Writing, [], A, false, true), multiset{GetLock(C, A, Write)})
  const In9: State := Three(Node(Unlocked, [Request(B, Read)], C, false, false), Node(Reading, [], A, false, false), Node(Writing, [], C, true, true), multiset{})
  const In10: State := Three(Node(Unlocked, [Request(B, Read)], C, false, false), Node(Reading, [], A, false, false), Node(Writing, [], C, false, false), multiset{})

  lemma InBegins()
    ensures Reachable(In0)
  {
    hide Reachable;
    ReachableInit({A, B, C}, A);
    assert M.Init({A, B, C}, A) == In0;
  }

  lemma InTo2()
    ensures Reachable(In2)
  {
    hide Reachable;
    InBegins();
    assert EffectOf(In0, CallAsk(A, Read)).page.requests == In1.pages[A].requests;
    Changes(In0, CallAsk(A, Read), In1);
    Changes(In1, CallAsk(B, Read), In2);
  }

  lemma InTo4()
    ensures Reachable(In4)
  {
    hide Reachable;
    InTo2();
    Changes(In2, CallAsk(C, Write), In3);
    LastWriterIff(In3.pages[A].requests);
    assert EffectOf(In3, DeliverAsk(A, B, Read)).page.requests == In4.pages[A].requests;
    Changes(In3, DeliverAsk(A, B, Read), In4);
  }

  lemma InTo6()
    ensures Reachable(In6)
  {
    hide Reachable;
    InTo4();
    LastWriterIff(In4.pages[A].requests);
    assert EffectOf(In4, DeliverAsk(A, C, Write)).page.requests == In5.pages[A].requests;
    Changes(In4, DeliverAsk(A, C, Write), In5);
    RemoveSkips(In5.pages[A].requests, A, 2);
    assert EffectOf(In5, CallUnlock(A)).page.requests == In6.pages[A].requests;
    Changes(In5, CallUnlock(A), In6);
  }

  lemma InTo8()
    ensures Reachable(In8)
  {
    hide Reachable;
    InTo6();
    Changes(In6, DeliverGet(B, A, Read), In7);
    Changes(In7, CallResume(B), In8);
  }

  lemma InTo10()
    ensures Reachable(In10)
  {
    hide Reachable;
    InTo8();
    Changes(In8, DeliverGet(C, A, Write), In9);
    Changes(In9, CallResume(C), In10);
  }
  lemma ReaderBesideWriter()
    ensures exists s, r, w ::
      && Reachable(s) && r in s.pages && w in s.pages
      && s.pages[r].mode == Reading && !M.Blocked(s.pages[r]) && s.pages[w].mode == Writing && !M.Blocked(s.pages[w])
  {
    hide Reachable;
    InTo10();
    assert In10.pages[B].mode == Reading && In10.pages[C].mode == Writing;
  }

  // --- A reader is never granted: the node that has the token lists it, has nobody before it, and is
  // --- outside the lock. Its own request had come back to it and stood before the reader's.

  const Lost0: State := Two(Node(Unlocked, [], A, false, false), Node(Unlocked, [], A, false, false), multiset{})
  const Lost1: State := Two(Node(Reading, [Request(A, Read)], A, false, false), Node(Unlocked, [], A, false, false), multiset{})
  const Lost2: State := Two(Node(Reading, [Request(A, Read)], A, false, false), Node(Reading, [], A, false, true), multiset{AskLock(A, B, Read)})
  const Lost3: State := Two(Node(Reading, [Request(B, Read), Request(A, Read)], A, false, false), Node(Reading, [], A, false, true), multiset{GetLock(B, A, Read)})
  const Lost4: State := Two(Node(Reading, [Request(B, Read), Request(A, Read)], A, false, false), Node(Reading, [], A, true, true), multiset{})
  const Lost5: State := Two(Node(Reading, [Request(B, Read), Request(A, Read)], A, false, false), Node(Reading, [], A, false, false), multiset{})
  const Lost6: State := Two(Node(Reading, [Request(B, Read), Request(A, Read)], A, false, false), Node(Unlocked, [], A, false, false), multiset{UnlockPage(A, B)})
  const Lost7: State := Two(Node(Reading, [Request(B, Read), Request(A, Read)], A, false, false), Node(Writing, [], A, false, true), multiset{AskLock(A, B, Write), UnlockPage(A, B)})
  const Lost8: State := Two(Node(Reading, [Request(B, Write), Request(B, Read), Request(A, Read)], A, false, false), Node(Writing, [], A, false, true), multiset{UnlockPage(A, B)})
  const Lost9: State := Two(Node(Unlocked, [Request(B, Read)], B, false, false), Node(Writing, [], A, false, true), multiset{GetLock(B, A, Write), UnlockPage(A, B)})
  const Lost10: State := Two(Node(Writing, [Request(B, Read)], B, false, true), Node(Writing, [], A, false, true), multiset{AskLock(B, A, Write), GetLock(B, A, Write), UnlockPage(A, B)})
  const Lost11: State := Two(Node(Writing, [Request(B, Read)], B, false, true), Node(Writing, [], B, true, true), multiset{AskLock(B, A, Write), UnlockPage(A, B)})
  const Lost12: State := Two(Node(Writing, [Request(B, Read)], B, false, true), Node(Writing, [], B, false, false), multiset{AskLock(B, A, Write), UnlockPage(A, B)})
  const Lost13: State := Two(Node(Writing, [Request(B, Read)], B, false, true), Node(Unlocked, [], B, false, false), multiset{AskLock(B, A, Write), UnlockPage(A, B)})
  const Lost14: State := Two(Node(Writing, [Request(B, Read)], B, false, true), Node(Unlocked, [], A, false, false), multiset{GetLock(A, B, Write), UnlockPage(A, B)})
  const Lost15: State := Two(Node(Writing, [Request(B, Read)], B, false, true), Node(Writing, [], A, false, true), multiset{AskLock(A, B, Write), GetLock(A, B, Write), UnlockPage(A, B)})
  const Lost16: State := Two(Node(Writing, [Request(B, Read)], B, false, true), Node(Writing, [], A, false, true), multiset{AskLock(B, B, Write), GetLock(A, B, Write), UnlockPage(A, B)})
  const Lost17: State := Two(Node(Writing, [Request(B, Read)], A, true, true), Node(Writing, [], A, false, true), multiset{AskLock(B, B, Write), UnlockPage(A, B)})
  const Lost18: State := Two(Node(Writing, [Request(B, Read)], A, false, false), Node(Writing, [], A, false, true), multiset{AskLock(B, B, Write), UnlockPage(A, B)})
  const Lost19: State := Two(Node(Unlocked, [Request(B, Read)], A, false, false), Node(Writing, [], A, false, true), multiset{AskLock(B, B, Write), GetLock(B, A, Read), UnlockPage(A, B)})
  const Lost20: State := Two(Node(Unlocked, [Request(B, Read)], A, false, false), Node(Writing, [], A, true, true), multiset{AskLock(B, B, Write), UnlockPage(A, B)})
  const Lost21: State := Two(Node(Unlocked, [Request(B, Read)], A, false, false), Node(Writing, [], A, false, false), multiset{AskLock(B, B, Write), UnlockPage(A, B)})
  const Lost22: State := Two(Node(Unlocked, [Request(B, Read)], A, false, false), Node(Unlocked, [], A, false, false), multiset{AskLock(B, B, Write), UnlockPage(A, B)})
  const Lost23: State := Two(Node(Unlocked, [Request(B, Read)], A, false, false), Node(Writing, [], A, false, true), multiset{AskLock(A, B, Write), AskLock(B, B, Write), UnlockPage(A, B)})
  const Lost24: State := Two(Node(Unlocked, [], A, false, false), Node(Writing, [], A, false, true), multiset{AskLock(A, B, Write), AskLock(B, B, Write)})
  const Lost25: State := Two(Node(Unlocked, [], B, false, false), Node(Writing, [], A, false, true), multiset{AskLock(B, B, Write), GetLock(B, A, Write)})
  const Lost26: State := Two(Node(Reading, [], B, false, true), Node(Writing, [], A, false, true), multiset{AskLock(B, A, Read), AskLock(B, B, Write), GetLock(B, A, Write)})
  const Lost27: State := Two(Node(Reading, [], B, false, true), Node(Writing, [], B, true, true), multiset{AskLock(B, A, Read), AskLock(B, B, Write)})
  const Lost28: State := Two(Node(Reading, [], B, false, true), Node(Writing, [], B, false, false), multiset{AskLock(B, A, Read), AskLock(B, B, Write)})
  const Lost29: State := Two(Node(Reading, [], B, false, true), Node(Writing, [Request(A, Read)], B, false, false), multiset{AskLock(B, B, Write)})
  const Lost30: State := Two(Node(Reading, [], B, false, true), Node(Writing, [Request(B, Write), Request(A, Read)], B, false, false), multiset{})
  const Lost31: State := Two(Node(Reading, [], B, false, true), Node(Unlocked, [Request(A, Read)], B, false, false), multiset{GetLock(B, B, Write)})

  lemma LostBegins()
    ensures Reachable(Lost0)
  {
    hide Reachable;
    ReachableInit({A, B}, A);
    assert M.Init({A, B}, A) == Lost0;
  }

  lemma LostTo2()
    ensures Reachable(Lost2)
  {
    hide Reachable;
    LostBegins();
    assert EffectOf(Lost0, CallAsk(A, Read)).page.requests == Lost1.pages[A].requests;
    Changes(Lost0, CallAsk(A, Read), Lost1);
    Changes(Lost1, CallAsk(B, Read), Lost2);
  }

  lemma LostTo4()
    ensures Reachable(Lost4)
  {
    hide Reachable;
    LostTo2();
    LastWriterIff(Lost2.pages[A].requests);
    assert EffectOf(Lost2, DeliverAsk(A, B, Read)).page.requests == Lost3.pages[A].requests;
    Changes(Lost2, DeliverAsk(A, B, Read), Lost3);
    Changes(Lost3, DeliverGet(B, A, Read), Lost4);
  }

  lemma LostTo6()
    ensures Reachable(Lost6)
  {
    hide Reachable;
    LostTo4();
    Changes(Lost4, CallResume(B), Lost5);
    Changes(Lost5, CallUnlock(B), Lost6);
  }

  lemma LostTo8()
    ensures Reachable(Lost8)
  {
    hide Reachable;
    LostTo6();
    Changes(Lost6, CallAsk(B, Write), Lost7);
    LastWriterIff(Lost7.pages[A].requests);
    assert EffectOf(Lost7, DeliverAsk(A, B, Write)).page.requests == Lost8.pages[A].requests;
    Changes(Lost7, DeliverAsk(A, B, Write), Lost8);
  }

  lemma LostTo10()
    ensures Reachable(Lost10)
  {
    hide Reachable;
    LostTo8();
    RemoveSkips(Lost8.pages[A].requests, A, 2);
    assert EffectOf(Lost8, CallUnlock(A)).page.requests == Lost9.pages[A].requests;
    Changes(Lost8, CallUnlock(A), Lost9);
    Changes(Lost9, CallAsk(A, Write), Lost10);
  }

  lemma LostTo12()
    ensures Reachable(Lost12)
  {
    hide Reachable;
    LostTo10();
    Changes(Lost10, DeliverGet(B, A, Write), Lost11);
    Changes(Lost11, CallResume(B), Lost12);
  }

  lemma LostTo14()
    ensures Reachable(Lost14)
  {
    hide Reachable;
    LostTo12();
    Changes(Lost12, CallUnlock(B), Lost13);
    LastWriterIff(Lost13.pages[B].requests);
    Changes(Lost13, DeliverAsk(B, A, Write), Lost14);
  }

  lemma LostTo16()
    ensures Reachable(Lost16)
  {
    hide Reachable;
    LostTo14();
    Changes(Lost14, CallAsk(B, Write), Lost15);
    LastWriterIff(Lost15.pages[A].requests);
    Changes(Lost15, DeliverAsk(A, B, Write), Lost16);
  }

  lemma LostTo18()
    ensures Reachable(Lost18)
  {
    hide Reachable;
    LostTo16();
    Changes(Lost16, DeliverGet(A, B, Write), Lost17);
    Changes(Lost17, CallResume(A), Lost18);
  }

  lemma LostTo20()
    ensures Reachable(Lost20)
  {
    hide Reachable;
    LostTo18();
    Changes(Lost18, CallUnlock(A), Lost19);
    Changes(Lost19, DeliverGet(B, A, Read), Lost20);
  }

  lemma LostTo22()
    ensures Reachable(Lost22)
  {
    hide Reachable;
    LostTo20();
    Changes(Lost20, CallResume(B), Lost21);
    Changes(Lost21, CallUnlock(B), Lost22);
  }

  lemma LostTo24()
    ensures Reachable(Lost24)
  {
    hide Reachable;
    LostTo22();
    Changes(Lost22, CallAsk(B, Write), Lost23);
    assert EffectOf(Lost23, DeliverUnlock(A, B)).page.requests == Lost24.pages[A].requests;
    Changes(Lost23, DeliverUnlock(A, B), Lost24);
  }

  lemma LostTo26()
    ensures Reachable(Lost26)
  {
    hide Reachable;
    LostTo24();
    LastWriterIff(Lost24.pages[A].requests);
    Changes(Lost24, DeliverAsk(A, B, Write), Lost25);
    Changes(Lost25, CallAsk(A, Read), Lost26);
  }

  lemma LostTo28()
    ensures Reachable(Lost28)
  {
    hide Reachable;
    LostTo26();
    Changes(Lost26, DeliverGet(B, A, Write), Lost27);
    Changes(Lost27, CallResume(B), Lost28);
  }

  lemma LostTo30()
    ensures Reachable(Lost30)
  {
    hide Reachable;
    LostTo28();
    LastWriterIff(Lost28.pages[B].requests);
    assert EffectOf(Lost28, DeliverAsk(B, A, Read)).page.requests == Lost29.pages[B].requests;
    Changes(Lost28, DeliverAsk(B, A, Read), Lost29);
    LastWriterIff(Lost29.pages[B].requests);
    assert EffectOf(Lost29, DeliverAsk(B, B, Write)).page.requests == Lost30.pages[B].requests;
    Changes(Lost29, DeliverAsk(B, B, Write), Lost30);
  }

  lemma LostTo31()
    ensures Reachable(Lost31)
  {
    hide Reachable;
    LostTo30();
    assert EffectOf(Lost30, CallUnlock(B)).page.requests == Lost31.pages[B].requests;
    Changes(Lost30, CallUnlock(B), Lost31);
  }
  lemma ReaderIsNotGranted()
    ensures exists s, r, h ::
      && Reachable(s) && r in s.pages && h in s.pages
      && s.pages[h].haveToken == h && s.pages[h].mode == Unlocked && s.pages[h].requests == [Request(r, Read)]
      && s.pages[r].waiting && !s.pages[r].signalled && forall d, t :: GetLock(r, d, t) !in s.net
  {
    hide Reachable;
    LostTo31();
    var s := Lost31;
    assert s.pages[A].waiting && s.pages[B].requests == [Request(A, Read)];
  }

  /** On the way a writer goes on with a reader's grant and is in the lock without the token. */
  lemma WriterWithoutToken()
    ensures exists s, w ::
      && Reachable(s) && w in s.pages
      && s.pages[w].mode == Writing && !M.Blocked(s.pages[w]) && s.pages[w].haveToken != w
  {
    hide Reachable;
    LostTo20();
    Changes(Lost20, CallResume(B), Lost21);
    assert Lost21.pages[B].haveToken == A;
  }
}
