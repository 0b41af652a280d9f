/**
 When `leave_last` returns: its caller waits until a departure brings its counter to 1.
 */
module LeaveLast {
  import opened Nodes
  import opened NodeList
  import opened Membership
  import opened ViewAgreement

  /** `remove_node` at `n` takes the leaver out and leaves a counter of 1: it signals `cv2`. */
  predicate Signals(s: State, e: Event, n: NodeId)
    requires Enabled(s, e)
  {
    e == Told(n) && s.phase.leaver in s.views[n].list && Removed(s.views[n], s.phase.leaver).count == 1
  }

  /** A caller that is in `leave_last` at `n` during the whole run is let go. */
  predicate Returns(s: State, es: seq<Event>, n: NodeId)
    requires IsRun(s, es)
    decreases |es|
  {
    es != [] && (Signals(s, es[0], n) || Returns(Step(s, es[0]), es[1..], n))
  }

  /** Members are enough, or a departure that leaves two is still being announced to `n`. */
  predicate Due(s: State, n: NodeId) {
    |s.views| >= 3 || (|s.views| == 2 && s.phase.Leaving? && n in s.phase.todo)
  }

  lemma SignalsIff(s: State, e: Event, n: NodeId)
    requires Inv(s) && Enabled(s, e)
    ensures Signals(s, e, n) <==> e == Told(n) && |s.views| == 2
  {
    hide Inv, NoDup, Names;
    if e == Told(n) { BeforeTold(s, n); }
  }

  /** Whoever is still to be told has the leaver and all the others in its list. */
  lemma BeforeTold(s: State, n: NodeId)
    requires Inv(s) && Enabled(s, Told(n))
    ensures s.phase.leaver in s.views[n].list && s.views[n].count == |s.views|
  {
    hide NoDup, Names, ViewOk, PhaseOk;
    PhaseIsOk(s);
    assert ViewOk(s, n);
    ListBeforeTold(s, n);
    NamedIn(s.views[n].list, s.phase.leaver);
    DistinctSize(s.views[n].list);
    Swapped(s.views.Keys, n, s.phase.leaver);
  }

  lemma ListBeforeTold(s: State, n: NodeId)
    requires PhaseOk(s) && s.phase.Leaving? && n in s.phase.todo && n in s.views && ViewOk(s, n)
    ensures NoDup(s.views[n].list) && s.views[n].count == |s.views[n].list| && s.phase.leaver !in s.views
    ensures Names(s.views[n].list) == s.views.Keys - {n} + {s.phase.leaver}
  {
    hide NoDup, Names;
    assert Full(s, n) == s.views[n].list;
  }

  lemma Swapped(K: set<NodeId>, n: NodeId, l: NodeId)
    requires n in K && l !in K
    ensures |K - {n} + {l}| == |K|
  {}

  lemma DueStep(s: State, e: Event, n: NodeId)
    requires PhaseOk(s) && Enabled(s, e) && !e.BeginJoin? && n in s.views && n in Step(s, e).views
    ensures Due(s, n) && !Due(Step(s, e), n) <==> e == Told(n) && |s.views| == 2
    ensures !Due(s, n) ==> !Due(Step(s, e), n)
  {
    hide Removed, Added, Informed;
    var s' := Step(s, e);
    if e.BeginLeave? {
      assert s'.views.Keys == s.views.Keys - {e.leaver};
      assert |s'.views.Keys| == |s.views.Keys| - 1;
      assert |s'.views| == |s'.views.Keys| && |s.views| == |s.views.Keys|;
    } else {
      SameMembers(s, e);
    }
  }

  lemma SameMembers(s: State, e: Event)
    requires PhaseOk(s) && Enabled(s, e) && !e.BeginJoin? && !e.BeginLeave?
    ensures |Step(s, e).views| == |s.views|
  {
    hide Removed, Added, Informed;
    assert Step(s, e).views.Keys == s.views.Keys;
    assert |Step(s, e).views| == |Step(s, e).views.Keys| && |s.views| == |s.views.Keys|;
  }

  lemma {:induction false} Members(s: State, es: seq<Event>, n: NodeId)
    requires IsRun(s, es) && n in After(s, es).views && forall e :: e in es ==> !e.BeginJoin?
    requires Inv(s)
    ensures n in s.views
    decreases |es|
  {
    hide Inv, Step, Enabled;
    if es != [] {
      assert es[0] in es;
      StepKeepsInv(s, es[0]);
      Members(Step(s, es[0]), es[1..], n);
      NobodyComes(s, es[0], n);
    }
  }

  lemma NobodyComes(s: State, e: Event, n: NodeId)
    requires Inv(s) && Enabled(s, e) && !e.BeginJoin? && n in Step(s, e).views
    ensures n in s.views
  {
    hide Removed, Added, Informed, ViewOk;
  }

  lemma {:induction false} ReturnsWhenDue(s: State, es: seq<Event>, n: NodeId)
    requires Inv(s) && IsRun(s, es) && n in After(s, es).views && forall e :: e in es ==> !e.BeginJoin?
    ensures Returns(s, es, n) <==> Due(s, n) && !Due(After(s, es), n)
    decreases |es|
  {
    hide Inv, Step, Enabled, Due, Signals;
    if es != [] {
      var e, s' := es[0], Step(s, es[0]);
      assert e in es;
      StepKeepsInv(s, e);
      Members(s, es, n);
      Members(s', es[1..], n);
      SignalsIff(s, e, n);
      DueStep(s, e, n) by { PhaseIsOk(s); }
      ReturnsWhenDue(s', es[1..], n);
      if !Due(s', n) { StaysDone(s', es[1..], n); }
    }
  }

  lemma PhaseIsOk(s: State)
    requires Inv(s)
    ensures PhaseOk(s)
  {}

  lemma {:induction false} StaysDone(s: State, es: seq<Event>, n: NodeId)
    requires Inv(s) && IsRun(s, es) && n in After(s, es).views && !Due(s, n) && forall e :: e in es ==> !e.BeginJoin?
    ensures !Due(After(s, es), n)
    decreases |es|
  {
    hide Inv, Step, Enabled, Due;
    if es != [] {
      var e, s' := es[0], Step(s, es[0]);
      assert e in es;
      StepKeepsInv(s, e);
      Members(s, es, n);
      Members(s', es[1..], n);
      DueStep(s, e, n) by { PhaseIsOk(s); }
      StaysDone(s', es[1..], n);
    }
  }

  /** Between two quiet moments without joins in between: a caller that entered `leave_last` at the
      first has been let go exactly when there were at least three members then and are at most two
      now. With one or two members at the start it waits for ever. */
  lemma LeaveLastReturnsIff(s: State, es: seq<Event>, n: NodeId)
    requires Reachable(s) && s.phase == Quiet && IsRun(s, es) && forall e :: e in es ==> !e.BeginJoin?
    requires n in After(s, es).views && After(s, es).phase == Quiet
    ensures Returns(s, es, n) <==> |s.views| >= 3 && |After(s, es).views| <= 2
  {
    hide Inv, IsRun, After;
    ReachableInv(s);
    ReturnsWhenDue(s, es, n);
  }

  /** Whether or not the last departure has been announced. */
  lemma TooFewNeverReturns(s: State, es: seq<Event>, n: NodeId)
    requires Reachable(s) && s.phase == Quiet && |s.views| <= 2 && n in s.views
    requires IsRun(s, es) && n in After(s, es).views && forall e :: e in es ==> !e.BeginJoin?
    ensures !Returns(s, es, n)
  {
    hide Inv, IsRun, After;
    ReachableInv(s);
    ReturnsWhenDue(s, es, n);
  }
}
