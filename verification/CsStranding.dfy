/**
 Runs in which a second caller does harm: each step that can strand a caller happens, and so do two
 nodes in the critical section at the same time.
 */
module CsStranding {
  import opened Nodes
  import opened NaimiTrehel
  import opened CsMachine
  import opened CsToken
  import opened CsTheorems
  import opened CsCallers
  import opened CsForgery
  import L = CsLimits
  import S = CsSecondCaller

  lemma {:induction false} CrowdRunExtends(c: Crowd, es: seq<Event>, e: Event)
    requires IsCrowdRun(c, es) && Possible(AfterAll(c, es), e)
    ensures IsCrowdRun(c, es + [e]) && AfterAll(c, es + [e]) == Next(AfterAll(c, es), e)
    decreases |es|
  {
    hide Possible, Next;
    if es == [] {
      assert [e][1..] == [] && es + [e] == [e];
    } else {
      CrowdRunExtends(Next(c, es[0]), es[1..], e);
      assert (es + [e])[1..] == es[1..] + [e];
    }
  }

  lemma CrowdStep(c: Crowd, e: Event)
    requires CrowdReachable(c) && Possible(c, e)
    ensures CrowdReachable(Next(c, e))
  {
    hide Possible, Next, IsCrowdRun, AfterAll, Lift, Reachable, Settled;
    var s, es :| Reachable(s) && Settled(s) && IsCrowdRun(Lift(s), es) && c == AfterAll(Lift(s), es);
    CrowdRunExtends(Lift(s), es, e);
  }

  const A := L.A
  const H := L.H
  const Y := L.Y
  const Z := L.Z

  /** Four nodes, and how many callers of `H`, `Y` and `Z` are blocked. */
  function Scene(a: Site, h: Site, y: Site, z: Site, net: multiset<Packet>, kh: nat, ky: nat, kz: nat): Crowd {
    Crowd(State(map[A := a, H := h, Y := y, Z := z], net, map[]), map[A := 0, H := kh, Y := ky, Z := kz])
  }

  lemma SceneChanges(c: Crowd, e: Event, c': Crowd)
    requires CrowdReachable(c) && Possible(c, e)
    requires c'.state.sites == c.state.sites[Actor(e) := EffectOf(c, e).site] && c'.state.stale == c.state.stale
    requires c'.state.net == c.state.net - Taken(e) + multiset(EffectOf(c, e).sent)
    requires c'.blocked == BlockedAfter(c, e)
    ensures CrowdReachable(c') && c' == Next(c, e)
  {
    hide CrowdReachable, EffectOf, Possible, BlockedAfter, Taken;
    CrowdStep(c, e);
  }

  // The variables of a node in the situations below.
  function Idle(father: NodeId): Site { Fresh(father, false) }
  function Waits(father: NodeId, next: NodeId): Site { L.Waits(father, next) }
  function Busy(father: NodeId, next: NodeId): Site { L.Busy(father, next) }
  function Arrived(father: NodeId, next: NodeId): Site { Waits(father, next).(token := true) }
  function Shared(father: NodeId, next: NodeId): Site { Busy(father, next).(waiting := true) }

  /** `A` is in the critical section, `H` is queued behind it, `Y` and `Z` have `H` as their father. */
  const Middle: Crowd := Scene(Busy(H, H), Waits(EmptyNode, EmptyNode), Idle(H), Idle(H), multiset{}, 1, 0, 0)

  lemma MiddleIsReachable()
    ensures CrowdReachable(Middle)
  {
    hide Reachable;
    L.MiddleIsReachable();
    var s := L.Middle;
    assert Settled(s) by { assert A in s.sites; }
    assert Lift(s) == Middle;
    assert IsCrowdRun(Lift(s), []) && AfterAll(Lift(s), []) == Middle;
  }

  // --- The second caller enters after the token has arrived.

  /** `Y` is queued behind `H`, and the token has just come to `H`. */
  function TokenThere(k: nat): Crowd {
    Scene(Idle(H), Arrived(Y, Y), Waits(EmptyNode, EmptyNode), Idle(H), multiset{}, k, 1, 0)
  }

  lemma TokenThereIsReachable(k: nat)
    requires k > 0 && CrowdReachable(Scene(Busy(H, H), Waits(EmptyNode, EmptyNode), Idle(H), Idle(H), multiset{}, k, 0, 0))
    ensures CrowdReachable(TokenThere(k))
  {
    hide CrowdReachable;
    var c0 := Scene(Busy(H, H), Waits(EmptyNode, EmptyNode), Idle(H), Idle(H), multiset{}, k, 0, 0);
    var c1 := Scene(Busy(H, H), Waits(EmptyNode, EmptyNode), Waits(EmptyNode, EmptyNode), Idle(H), multiset{RequestCs(H, Y)}, k, 1, 0);
    SceneChanges(c0, CallEnter(Y), c1);
    var c2 := Scene(Busy(H, H), Waits(Y, Y), Waits(EmptyNode, EmptyNode), Idle(H), multiset{}, k, 1, 0);
    SceneChanges(c1, DeliverRequest(H, Y), c2);
    var c3 := Scene(Idle(H), Waits(Y, Y), Waits(EmptyNode, EmptyNode), Idle(H), multiset{GetCs(H)}, k, 1, 0);
    SceneChanges(c2, CallRelease(A), c3);
    SceneChanges(c3, DeliverGrant(H), TokenThere(k));
  }

  /** A reachable state and a step that strands a caller of `m`. */
  ghost predicate Harm(c: Crowd, e: Event, m: NodeId) {
    CrowdReachable(c) && Possible(c, e) && Strands(c, e, m) && Stranded(Next(c, e), m)
  }

  /** One caller of `H` uses the token, another one still stands in the loop. */
  const Used: Crowd := Scene(Idle(H), Shared(Y, Y), Waits(EmptyNode, EmptyNode), Idle(H), multiset{}, 1, 1, 0)

  /** The second caller enters at once, and goes before the first one has woken up: the token goes
      on to `Y`, and the first caller stays behind without a claim. */
  lemma EntryBeforeWake()
    ensures CrowdReachable(TokenThere(1)) && Possible(TokenThere(1), CallEnter(H))
    ensures Next(TokenThere(1), CallEnter(H)) == Used && Harm(Used, CallRelease(H), H)
  {
    hide CrowdReachable, Stranded;
    MiddleIsReachable();
    TokenThereIsReachable(1);
    SceneChanges(TokenThere(1), CallEnter(H), Used);
    HolderUnclaimed();
    StrandedNow(Used, CallRelease(H), H);
  }

  lemma HolderUnclaimed()
    ensures !Claimed(Used.state, H)
  {}

  lemma StrandedNow(c: Crowd, e: Event, m: NodeId)
    requires CrowdReachable(c) && Possible(c, e) && Strands(c, e, m) && !Rescues(c, e, m)
    ensures Stranded(Next(c, e), m)
  {
    hide Possible, Next, Strands, Stranded, CrowdReachable, CrowdInv, Rescues;
    CrowdReachableInv(c);
    StrandedIff(c, e, m);
  }

  // --- The second caller enters while `father` is empty.

  const Beside: Crowd := Scene(Busy(H, H), Waits(EmptyNode, EmptyNode), Idle(H), Idle(H), multiset{}, 2, 0, 0)

  function EnteredAt(c: Crowd, n: NodeId): Crowd
    requires n in c.state.sites
  {
    Next(c, CallEnter(n))
  }

  lemma BesideIsReachable()
    ensures CrowdReachable(Beside) && Beside == EnteredAt(Middle, H)
  {
    hide CrowdReachable;
    MiddleIsReachable();
    SceneChanges(Middle, CallEnter(H), Beside);
  }

  /** Both callers stand in the loop when the token comes, and another node is queued behind: the
      first one to go sends the token away. */
  lemma EntryBeside()
    ensures CrowdReachable(Beside) && Beside == EnteredAt(Middle, H)
    ensures CrowdReachable(TokenThere(2)) && Possible(TokenThere(2), CallWake(H))
    ensures Next(TokenThere(2), CallWake(H)) == Used && Harm(Used, CallRelease(H), H)
  {
    hide CrowdReachable, Stranded;
    BesideIsReachable();
    TokenThereIsReachable(2);
    SceneChanges(TokenThere(2), CallWake(H), Used);
    HolderUnclaimed();
    StrandedNow(Used, CallRelease(H), H);
  }

  /** One caller of `H` has used the token and gone, the other one still stands in the loop. */
  const Forgotten: Crowd :=
    Scene(Idle(H), Arrived(EmptyNode, EmptyNode).(requesting := false), Idle(H), Idle(H), multiset{}, 1, 0, 0)

  lemma ForgottenIsReachable()
    ensures CrowdReachable(Forgotten)
  {
    hide CrowdReachable;
    BesideIsReachable();
    var c1 := Scene(Idle(H), Waits(EmptyNode, EmptyNode), Idle(H), Idle(H), multiset{GetCs(H)}, 2, 0, 0);
    SceneChanges(Beside, CallRelease(A), c1);
    var c2 := Scene(Idle(H), Arrived(EmptyNode, EmptyNode), Idle(H), Idle(H), multiset{}, 2, 0, 0);
    SceneChanges(c1, DeliverGrant(H), c2);
    FirstGoes(c2);
  }

  lemma FirstGoes(c2: Crowd)
    requires c2 == Scene(Idle(H), Arrived(EmptyNode, EmptyNode), Idle(H), Idle(H), multiset{}, 2, 0, 0) && CrowdReachable(c2)
    ensures CrowdReachable(Forgotten)
  {
    hide CrowdReachable;
    var c3 := Scene(Idle(H), Shared(EmptyNode, EmptyNode), Idle(H), Idle(H), multiset{}, 1, 0, 0);
    SceneChanges(c2, CallWake(H), c3);
    SceneChanges(c3, CallRelease(H), Forgotten);
  }

  /** A request arrives then: the token is sent away from under the waiting caller. */
  lemma AnswerStrands()
    ensures exists c :: Harm(c, DeliverRequest(H, Y), H) && !c.state.sites[H].requesting
  {
    hide CrowdReachable, Stranded;
    ForgottenIsReachable();
    var c := Scene(
      Idle(H), Arrived(EmptyNode, EmptyNode).(requesting := false), Waits(EmptyNode, EmptyNode), Idle(H),
      multiset{RequestCs(H, Y)}, 1, 1, 0);
    SceneChanges(Forgotten, CallEnter(Y), c);
    assert !Claimed(c.state, H);
    StrandedNow(c, DeliverRequest(H, Y), H);
  }

  /** Or the waiting caller goes on first: then the token is sent away under its user, and two nodes
      are in the critical section. */
  lemma TwoInside()
    ensures exists c :: CrowdReachable(c) && InCriticalSection(c.state, H) && InCriticalSection(c.state, Y)
  {
    hide CrowdReachable;
    ForgottenIsReachable();
    var user := Busy(EmptyNode, EmptyNode).(requesting := false);
    var c1 := Scene(Idle(H), user, Idle(H), Idle(H), multiset{}, 0, 0, 0);
    SceneChanges(Forgotten, CallWake(H), c1);
    var c2 := Scene(Idle(H), user, Waits(EmptyNode, EmptyNode), Idle(H), multiset{RequestCs(H, Y)}, 0, 1, 0);
    SceneChanges(c1, CallEnter(Y), c2);
    TwoInsideThen(user);
  }

  lemma TwoInsideThen(user: Site)
    requires user == Busy(EmptyNode, EmptyNode).(requesting := false)
    requires CrowdReachable(Scene(Idle(H), user, Waits(EmptyNode, EmptyNode), Idle(H), multiset{RequestCs(H, Y)}, 0, 1, 0))
    ensures exists c :: CrowdReachable(c) && InCriticalSection(c.state, H) && InCriticalSection(c.state, Y)
  {
    hide CrowdReachable;
    var c2 := Scene(Idle(H), user, Waits(EmptyNode, EmptyNode), Idle(H), multiset{RequestCs(H, Y)}, 0, 1, 0);
    var left := user.(token := false, father := Y);
    var c3 := Scene(Idle(H), left, Waits(EmptyNode, EmptyNode), Idle(H), multiset{GetCs(Y)}, 0, 1, 0);
    assert Exposes(c2, DeliverRequest(H, Y), H);
    SceneChanges(c2, DeliverRequest(H, Y), c3);
    var c4 := Scene(Idle(H), left, Arrived(EmptyNode, EmptyNode), Idle(H), multiset{}, 0, 1, 0);
    SceneChanges(c3, DeliverGrant(Y), c4);
    var c5 := Scene(Idle(H), left, Busy(EmptyNode, EmptyNode), Idle(H), multiset{}, 0, 0, 0);
    SceneChanges(c4, CallWake(Y), c5);
    assert InCriticalSection(c5.state, H) && InCriticalSection(c5.state, Y);
  }

  // --- The second caller enters while `father` is not empty.

  /** `H` has sent a second request, to `Y`, which is queued behind it. */
  const Again: Crowd :=
    Scene(Busy(H, H), Waits(EmptyNode, Y), Waits(EmptyNode, EmptyNode), Idle(H), multiset{RequestCs(Y, H)}, 2, 1, 0)

  lemma AgainIsReachable()
    ensures CrowdReachable(Again)
  {
    hide CrowdReachable;
    MiddleIsReachable();
    var c1 := Scene(Busy(H, H), Waits(EmptyNode, EmptyNode), Waits(EmptyNode, EmptyNode), Idle(H), multiset{RequestCs(H, Y)}, 1, 1, 0);
    SceneChanges(Middle, CallEnter(Y), c1);
    var c2 := Scene(Busy(H, H), Waits(Y, Y), Waits(EmptyNode, EmptyNode), Idle(H), multiset{}, 1, 1, 0);
    SceneChanges(c1, DeliverRequest(H, Y), c2);
    SceneChanges(c2, CallEnter(H), Again);
  }

  /** The next request that arrives at `H` takes the place of `Y`, which has one caller only. */
  lemma OvertakingStrands()
    ensures exists c :: Harm(c, DeliverRequest(H, Z), Y) && Blocked(c, Y) == 1
  {
    hide CrowdReachable, Stranded;
    AgainIsReachable();
    var c := Scene(
      Busy(H, H), Waits(EmptyNode, Y), Waits(EmptyNode, EmptyNode), Waits(EmptyNode, EmptyNode),
      multiset{RequestCs(Y, H), RequestCs(H, Z)}, 2, 1, 1);
    SceneChanges(Again, CallEnter(Z), c);
    OnlyBehindH(c);
    StrandedNow(c, DeliverRequest(H, Z), Y);
  }

  lemma OnlyBehindH(c: Crowd)
    requires c == Scene(
      Busy(H, H), Waits(EmptyNode, Y), Waits(EmptyNode, EmptyNode), Waits(EmptyNode, EmptyNode),
      multiset{RequestCs(Y, H), RequestCs(H, Z)}, 2, 1, 1)
    ensures ClaimedOnlyBy(c.state, Y, H)
  {}

  /** `H` has used the token and passed it on, its second request still travels. */
  const Passed: Crowd :=
    Scene(Idle(H), Idle(EmptyNode), Waits(EmptyNode, EmptyNode), Idle(H), multiset{RequestCs(Y, H), GetCs(Y)}, 0, 1, 0)

  lemma TokenComesToH(y: Site, net: multiset<Packet>, k: nat)
    requires CrowdReachable(Scene(Busy(H, H), Waits(EmptyNode, Y), y, Idle(H), net, 2, k, 0)) && GetCs(H) !in net
    ensures CrowdReachable(Scene(Idle(H), Arrived(EmptyNode, Y), y, Idle(H), net, 2, k, 0))
  {
    hide CrowdReachable;
    var c0 := Scene(Busy(H, H), Waits(EmptyNode, Y), y, Idle(H), net, 2, k, 0);
    var c1 := Scene(Idle(H), Waits(EmptyNode, Y), y, Idle(H), net + multiset{GetCs(H)}, 2, k, 0);
    SceneChanges(c0, CallRelease(A), c1);
    SceneChanges(c1, DeliverGrant(H), Scene(Idle(H), Arrived(EmptyNode, Y), y, Idle(H), net, 2, k, 0));
  }

  /** Both callers of `H` go on and go. */
  lemma BothGo(y: Site, net: multiset<Packet>, k: nat)
    requires CrowdReachable(Scene(Idle(H), Arrived(EmptyNode, Y), y, Idle(H), net, 2, k, 0))
    ensures CrowdReachable(Scene(Idle(H), Idle(EmptyNode), y, Idle(H), net + multiset{GetCs(Y)}, 0, k, 0))
  {
    hide CrowdReachable, Scene;
    OneGoesOn(y, net, k);
    OtherGoesOn(y, net, k);
    BothRelease(y, net, k);
  }

  lemma OneGoesOn(y: Site, net: multiset<Packet>, k: nat)
    requires CrowdReachable(Scene(Idle(H), Arrived(EmptyNode, Y), y, Idle(H), net, 2, k, 0))
    ensures CrowdReachable(Scene(Idle(H), Shared(EmptyNode, Y), y, Idle(H), net, 1, k, 0))
  {
    hide CrowdReachable;
    SceneChanges(
      Scene(Idle(H), Arrived(EmptyNode, Y), y, Idle(H), net, 2, k, 0), CallWake(H),
      Scene(Idle(H), Shared(EmptyNode, Y), y, Idle(H), net, 1, k, 0));
  }

  lemma OtherGoesOn(y: Site, net: multiset<Packet>, k: nat)
    requires CrowdReachable(Scene(Idle(H), Shared(EmptyNode, Y), y, Idle(H), net, 1, k, 0))
    ensures CrowdReachable(Scene(Idle(H), Busy(EmptyNode, Y).(users := 2), y, Idle(H), net, 0, k, 0))
  {
    hide CrowdReachable;
    SceneChanges(
      Scene(Idle(H), Shared(EmptyNode, Y), y, Idle(H), net, 1, k, 0), CallWake(H),
      Scene(Idle(H), Busy(EmptyNode, Y).(users := 2), y, Idle(H), net, 0, k, 0));
  }

  lemma BothRelease(y: Site, net: multiset<Packet>, k: nat)
    requires CrowdReachable(Scene(Idle(H), Busy(EmptyNode, Y).(users := 2), y, Idle(H), net, 0, k, 0))
    ensures CrowdReachable(Scene(Idle(H), Idle(EmptyNode), y, Idle(H), net + multiset{GetCs(Y)}, 0, k, 0))
  {
    hide CrowdReachable;
    var c4 := Scene(Idle(H), Busy(EmptyNode, Y).(users := 2), y, Idle(H), net, 0, k, 0);
    var c5 := Scene(Idle(H), Busy(EmptyNode, Y), y, Idle(H), net, 0, k, 0);
    SceneChanges(c4, CallRelease(H), c5);
    SceneChanges(c5, CallRelease(H), Scene(Idle(H), Idle(EmptyNode), y, Idle(H), net + multiset{GetCs(Y)}, 0, k, 0));
  }

  lemma PassedIsReachable()
    ensures CrowdReachable(Passed)
  {
    hide CrowdReachable, Scene;
    AgainIsReachable();
    TokenComesToH(Waits(EmptyNode, EmptyNode), multiset{RequestCs(Y, H)}, 1);
    BothGo(Waits(EmptyNode, EmptyNode), multiset{RequestCs(Y, H)}, 1);
    assert multiset{RequestCs(Y, H)} + multiset{GetCs(Y)} == multiset{RequestCs(Y, H), GetCs(Y)};
  }

  /** A node without the token and without a father answers a request with a token of its own. */
  lemma TokenIsForged()
    ensures exists c ::
      && CrowdReachable(c) && Possible(c, DeliverRequest(H, Z)) && Forges(c, DeliverRequest(H, Z))
      && Tokens(Next(c, DeliverRequest(H, Z)).state) == Tokens(c.state) + 1
  {
    hide CrowdReachable, Tokens, CrowdInv;
    PassedIsReachable();
    var c := Scene(
      Idle(H), Idle(EmptyNode), Waits(EmptyNode, EmptyNode), Waits(EmptyNode, EmptyNode),
      multiset{RequestCs(Y, H), GetCs(Y), RequestCs(H, Z)}, 0, 1, 1);
    SceneChanges(Passed, CallEnter(Z), c);
    CrowdReachableInv(c);
    TokensChangeIff(c, DeliverRequest(H, Z));
  }

  // --- A caller enters where neither token nor father is left.

  /** The same, but `Y` has taken in the second request of `H` and has called again itself. */
  const Bare: Crowd :=
    Scene(Idle(H), Idle(EmptyNode), Waits(EmptyNode, H), Idle(H), multiset{RequestCs(H, Y)} + multiset{GetCs(Y)}, 0, 2, 0)

  lemma BareIsReachable()
    ensures CrowdReachable(Bare)
  {
    hide CrowdReachable;
    AgainIsReachable();
    var h, none := Waits(EmptyNode, Y), multiset{};
    var c1 := Scene(Busy(H, H), h, Waits(H, H), Idle(H), none, 2, 1, 0);
    SceneChanges(Again, DeliverRequest(Y, H), c1);
    var net := multiset{RequestCs(H, Y)};
    var c2 := Scene(Busy(H, H), h, Waits(EmptyNode, H), Idle(H), net, 2, 2, 0);
    SceneChanges(c1, CallEnter(Y), c2);
    TokenComesToH(Waits(EmptyNode, H), net, 2);
    BothGo(Waits(EmptyNode, H), net, 2);
  }

  lemma OvertakenIsReachable(c: Crowd, n: NodeId, z: NodeId)
    requires CrowdReachable(c) && Settled(c.state) && n in c.state.sites && n != EmptyNode
    requires z !in c.state.sites && z != EmptyNode
    requires var t := c.state.sites[n]; t.father == EmptyNode && t.requesting && !t.leaving
    ensures CrowdReachable(S.Overtaken(c, n, z))
  {
    hide CrowdReachable, Next, Possible;
    S.NewcomerJoins(c, n, z);
    CrowdStep(c, Join(z, n));
    var c1 := Next(c, Join(z, n));
    S.NewcomerAsks(c1, n, z);
    CrowdStep(c1, CallEnter(z));
    var c2 := Next(c1, CallEnter(z));
    S.NewcomerArrives(c2, n, z, c.state.net);
    CrowdStep(c2, DeliverRequest(n, z));
    assert Next(c2, DeliverRequest(n, z)) == S.Overtaken(c, n, z);
  }

  /** A newcomer takes the place of `H` behind `Y`; then a first caller of `H` has no claim at all. */
  lemma EntryStrands()
    ensures exists c :: Harm(c, CallEnter(H), H) && Blocked(c, H) == 0
  {
    hide CrowdReachable, Stranded;
    BareIsReachable();
    var W := Node("w", 5);
    assert Settled(Bare.state) by { assert A in Bare.state.sites; }
    OvertakenIsReachable(Bare, Y, W);
    NoClaimForH(W);
    StrandedNow(S.Overtaken(Bare, Y, W), CallEnter(H), H);
  }

  lemma NoClaimForH(W: NodeId)
    requires W == Node("w", 5)
    ensures !Claimed(S.Overtaken(Bare, Y, W).state, H)
  {
    assert ClaimedOnlyBy(Bare.state, H, Y);
    S.OvertakenClaims(Bare, Y, W, H);
  }
}
