/**
 When `ask_lock` returns at once, the caller that it never returns to because nobody posts the
 semaphore `write_auto_lock`, and the caller that goes on with a grant for an earlier request.
 */
module AskReturns {
  import opened Nodes
  import opened PageLock
  import M = LockMachine
  import opened MixedLock
  import I = MixedInstances
  import R = ReaderRuns

  /** `ask_lock` returns without waiting exactly if the node is in the lock already, or has the token
      and asks to read, or has the token and nobody is listed. */
  lemma AskReturnsIff(s: State, n: NodeId, t: LockType)
    requires Enabled(s, CallAsk(n, t))
    ensures var p := s.pages[n];
      !M.Blocked(Step(s, CallAsk(n, t)).pages[n]) <==>
      p.mode != Unlocked || (p.haveToken == n && (t == Read || p.requests == []))
  {}

  /** Otherwise its caller waits for a grant, or, where the token is, on the semaphore. */
  lemma AskIsStuckIff(s: State, n: NodeId, t: LockType)
    requires Enabled(s, CallAsk(n, t))
    ensures var p := s.pages[n];
      Step(s, CallAsk(n, t)).pages[n].stuck <==>
      p.mode == Unlocked && p.haveToken == n && t == Write && p.requests != []
  {}

  lemma StuckStep(s: State, e: Event, n: NodeId)
    requires Enabled(s, e) && n in s.pages && s.pages[n].stuck && s.pages[n].mode == Writing
    ensures n in Step(s, e).pages && Step(s, e).pages[n].stuck && Step(s, e).pages[n].mode == Writing
  {
    hide EffectOf, Enabled;
    if Actor(e) == n { StuckPage(s, e); }
  }

  lemma StuckPage(s: State, e: Event)
    requires Enabled(s, e) && Actor(e) in s.pages && s.pages[Actor(e)].stuck && s.pages[Actor(e)].mode == Writing
    ensures EffectOf(s, e).page.stuck && EffectOf(s, e).page.mode == Writing
  {
    hide LastWriter, Remove, Unlock, LocalUnlock, Ask, OnAsk;
    var p := s.pages[Actor(e)];
    match e
    case DeliverAsk(d, i, t) => AskKeepsCaller(p, d, i, t);
    case DeliverUnlock(d, x) => EndKeepsCaller(p, d, x);
    case _ =>
  }

  lemma AskKeepsCaller(p: Page, d: NodeId, i: NodeId, t: LockType)
    ensures OnAsk(p, d, i, t).page.stuck == p.stuck && OnAsk(p, d, i, t).page.mode == p.mode
  {
    hide LastWriter;
  }

  lemma EndKeepsCaller(p: Page, d: NodeId, x: NodeId)
    ensures LocalUnlock(p, d, x).page.stuck == p.stuck && LocalUnlock(p, d, x).page.mode == p.mode
  {
    hide Remove;
  }

  /** A caller on the semaphore waits in every continuation, whoever unlocks; its node stays in
      WRITING and never unlocks. */
  lemma {:induction false} StuckForever(s: State, es: seq<Event>, n: NodeId)
    requires IsRun(s, es) && n in s.pages && s.pages[n].stuck && s.pages[n].mode == Writing
    ensures n in After(s, es).pages && After(s, es).pages[n].stuck && After(s, es).pages[n].mode == Writing
    ensures CallUnlock(n) !in es
    decreases |es|
  {
    hide Step;
    if es != [] {
      StuckStep(s, es[0], n);
      StuckForever(Step(s, es[0]), es[1..], n);
    }
  }

  const A := I.A
  const B := I.B

  /** `A` has the token and is outside the lock, `B` reads. */
  const Idle: State := I.Two(
    I.Node(Unlocked, [Request(B, Read)], A, false, false), I.Node(Reading, [], A, false, false), multiset{})

  lemma IdleIsReachable()
    ensures Reachable(Idle)
  {
    hide Reachable;
    var s0 := I.Lost0;
    I.LostBegins();
    var s1 := I.Two(s0.pages[A], I.Node(Reading, [], A, false, true), multiset{AskLock(A, B, Read)});
    I.Changes(s0, CallAsk(B, Read), s1);
    BIsGranted(s1);
  }

  lemma BIsGranted(s1: State)
    requires Reachable(s1) && s1 == I.Two(I.Lost0.pages[A], I.Node(Reading, [], A, false, true), multiset{AskLock(A, B, Read)})
    ensures Reachable(Idle)
  {
    hide Reachable;
    var a := I.Node(Unlocked, [Request(B, Read)], A, false, false);
    var s2 := I.Two(a, I.Node(Reading, [], A, false, true), multiset{GetLock(B, A, Read)});
    assert EffectOf(s1, DeliverAsk(A, B, Read)).page.requests == a.requests;
    I.Changes(s1, DeliverAsk(A, B, Read), s2);
    var s3 := I.Two(a, I.Node(Reading, [], A, true, true), multiset{});
    I.Changes(s2, DeliverGet(B, A, Read), s3);
    I.Changes(s3, CallResume(B), Idle);
  }

  /** A node that has the token asks to write while another one reads: its caller is never served,
      not even when the reader unlocks. */
  lemma LocalWriterIsStuck()
    ensures exists s, n ::
      && Reachable(s) && Enabled(s, CallAsk(n, Write))
      && forall es :: IsRun(Step(s, CallAsk(n, Write)), es) ==>
        var t := After(Step(s, CallAsk(n, Write)), es); n in t.pages && t.pages[n].stuck
  {
    hide Reachable, IsRun, After;
    IdleIsReachable();
    var s, n := Idle, A;
    AskIsStuckIff(s, n, Write);
    var t := Step(s, CallAsk(n, Write));
    assert t.pages[n].mode == Writing;
    forall es | IsRun(t, es) ensures n in After(t, es).pages && After(t, es).pages[n].stuck { StuckForever(t, es, n); }
  }

  // --- A grant that arrives outside the lock.

  /** A grant that finds the node outside the lock leaves its signal behind: the next caller that has
      to ask another node goes on with it at once, whatever it asks for, and its own request is still
      on its way. */
  lemma LateGrantLetsIn(s: State, n: NodeId, x: NodeId, y: LockType, t: LockType)
    requires n in s.pages && Enabled(s, DeliverGet(n, x, y)) && s.pages[n].mode == Unlocked && !M.Blocked(s.pages[n])
    requires s.pages[n].haveToken != n
    ensures var es := [DeliverGet(n, x, y)] + [CallAsk(n, t)] + [CallResume(n)];
      && IsRun(s, es)
      && After(s, es) == M.State(
        s.pages[n := s.pages[n].(mode := Status(t), signalled := false)],
        s.net - multiset{GetLock(n, x, y)} + multiset{AskLock(s.pages[n].haveToken, n, t)})
  {
    hide Enabled, Step, IsRun, After;
    LateGet(s, n, x, y);
    var s1 := Step(s, DeliverGet(n, x, y));
    LateAsk(s1, n, t);
    var s2 := Step(s1, CallAsk(n, t));
    R.ResumeStep(s2, n);
    R.Single(s, DeliverGet(n, x, y));
    R.Single(s1, CallAsk(n, t));
    R.Single(s2, CallResume(n));
    R.Joined(s, [DeliverGet(n, x, y)], [CallAsk(n, t)]);
    R.Joined(s, [DeliverGet(n, x, y)] + [CallAsk(n, t)], [CallResume(n)]);
    assert s2.pages[n := Resume(s2.pages[n])] == s.pages[n := s.pages[n].(mode := Status(t), signalled := false)];
  }

  lemma LateGet(s: State, n: NodeId, x: NodeId, y: LockType)
    requires Enabled(s, DeliverGet(n, x, y)) && s.pages[n].mode == Unlocked
    ensures Step(s, DeliverGet(n, x, y)) ==
      M.State(s.pages[n := s.pages[n].(signalled := true)], s.net - multiset{GetLock(n, x, y)})
  {
    assert Step(s, DeliverGet(n, x, y)).net == s.net - multiset{GetLock(n, x, y)};
  }

  lemma LateAsk(s: State, n: NodeId, t: LockType)
    requires n in s.pages && s.pages[n].mode == Unlocked && !M.Blocked(s.pages[n]) && s.pages[n].haveToken != n
    ensures Enabled(s, CallAsk(n, t))
    ensures Step(s, CallAsk(n, t)) == M.State(
      s.pages[n := s.pages[n].(mode := Status(t), waiting := true)], s.net + multiset{AskLock(s.pages[n].haveToken, n, t)})
  {
    assert Step(s, CallAsk(n, t)).net == s.net + multiset{AskLock(s.pages[n].haveToken, n, t)};
  }

  const Late15: State := I.Two(
    I.Node(Writing, [Request(B, Read)], A, true, true), I.Node(Unlocked, [], A, false, false), multiset{UnlockPage(A, B)})
  const Late16: State := I.Two(
    I.Node(Writing, [Request(B, Read)], A, false, false), I.Node(Unlocked, [], A, false, false), multiset{UnlockPage(A, B)})
  const Late17: State := I.Two(
    I.Node(Unlocked, [Request(B, Read)], A, false, false), I.Node(Unlocked, [], A, false, false),
    multiset{GetLock(B, A, Read), UnlockPage(A, B)})

  /** This happens: the grant for a reader that had gone long before comes at the end of a writer's
      turn. */
  lemma LateGrantHappens()
    ensures exists s, n, x, y ::
      && Reachable(s) && Enabled(s, DeliverGet(n, x, y)) && s.pages[n].mode == Unlocked && !M.Blocked(s.pages[n])
      && s.pages[n].haveToken != n
  {
    hide Reachable;
    I.LostTo14();
    I.Changes(I.Lost14, DeliverGet(A, B, Write), Late15);
    I.Changes(Late15, CallResume(A), Late16);
    I.Changes(Late16, CallUnlock(A), Late17);
    assert Enabled(Late17, DeliverGet(B, A, Read));
  }
}
