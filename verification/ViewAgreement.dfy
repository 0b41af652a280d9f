/**
 Every node's list names exactly the other members.
 */
module ViewAgreement {
  import opened Nodes
  import opened NodeList
  import opened Membership

  /** The list of `m` together with the one that is on its way to it. */
  function Full(s: State, m: NodeId): seq<NodeId>
    requires m in s.views
  {
    (if m in s.infos then s.infos[m] else []) + s.views[m].list
  }

  /** Those who know about the joining node already. */
  ghost function Heard(s: State): set<NodeId>
    requires s.phase.Joining? && s.phase.contact in s.views && s.phase.next <= |s.views[s.phase.contact].list|
  {
    var l := s.views[s.phase.contact].list;
    Names(l[..s.phase.next])
    + if s.phase.waiting && s.news == multiset{} && s.phase.next < |l| then {l[s.phase.next]} else {}
  }

  /** A NEW_NODE that was sent is in flight, or its ACK_NODE is, or the flag is set. */
  ghost predicate JoinOk(s: State)
    requires s.phase.Joining? && s.phase.contact in s.views
  {
    var c, j, l := s.phase.contact, s.phase.joiner, s.views[s.phase.contact].list;
    && j in s.views && c != j && c !in s.infos && j !in s.infos && s.phase.next <= |l|
    && if !s.phase.waiting then s.news == multiset{} && s.acks == multiset{} && !s.views[c].acked
       else
         && s.phase.next < |l|
         && (|| (s.news == multiset{NewNode(l[s.phase.next], c, j)} && s.acks == multiset{} && !s.views[c].acked)
             || (s.news == multiset{} && s.acks == multiset{c} && !s.views[c].acked)
             || (s.news == multiset{} && s.acks == multiset{} && s.views[c].acked))
  }

  ghost predicate PhaseOk(s: State) {
    && s.infos.Keys <= s.views.Keys
    && match s.phase
       case Quiet => s.news == multiset{} && s.acks == multiset{}
       case Joining(c, _, _, _) => c in s.views && JoinOk(s)
       case Leaving(l, todo) => s.news == multiset{} && s.acks == multiset{} && s.infos == map[] && l !in s.views && todo <= s.views.Keys
  }

  ghost function Expected(s: State, m: NodeId): set<NodeId>
    requires PhaseOk(s)
  {
    match s.phase
    case Quiet => s.views.Keys - {m}
    case Joining(c, j, _, _) =>
      if m == j then {c} else s.views.Keys - {m} - if m in Heard(s) then {} else {j}
    case Leaving(l, todo) => s.views.Keys - {m} + if m in todo then {l} else {}
  }

  /** The list names each expected node once, and the counter is its length. */
  ghost predicate ViewOk(s: State, m: NodeId)
    requires PhaseOk(s) && m in s.views
  {
    && NoDup(Full(s, m)) && Names(Full(s, m)) == Expected(s, m)
    && s.views[m].count == |s.views[m].list|
    && (s.views[m].acked ==> s.phase.Joining? && m == s.phase.contact)
  }

  ghost predicate Inv(s: State) {
    PhaseOk(s) && forall m {:trigger s.views[m]} :: m in s.views ==> ViewOk(s, m)
  }

  lemma InitInv(first: NodeId)
    ensures Inv(Init(first))
  {}

  lemma ContactList(s: State)
    requires Inv(s) && s.phase.Joining?
    ensures var c, j := s.phase.contact, s.phase.joiner;
      Names(s.views[c].list) == s.views.Keys - {c} - {j} && NoDup(s.views[c].list)
  {
    var c := s.phase.contact;
    assert ViewOk(s, c);
    assert Full(s, c) == s.views[c].list;
    if c in Heard(s) {
      HeardInList(s);
    }
  }

  lemma HeardInList(s: State)
    requires PhaseOk(s) && s.phase.Joining?
    ensures Heard(s) <= Names(s.views[s.phase.contact].list)
  {}

  lemma BeginJoinKeeps(s: State, c: NodeId, j: NodeId)
    requires Inv(s) && Enabled(s, BeginJoin(c, j))
    ensures Inv(Step(s, BeginJoin(c, j)))
  {
    var s' := Step(s, BeginJoin(c, j));
    assert s'.views.Keys == s.views.Keys + {j};
    assert Heard(s') == {};
    forall m {:trigger s'.views[m]} | m in s'.views ensures ViewOk(s', m) {
      if m == j {
        assert Full(s', j) == [c];
      } else {
        assert ViewOk(s, m) && Full(s', m) == Full(s, m);
      }
    }
  }

  lemma SendNewKeeps(s: State)
    requires Inv(s) && Enabled(s, SendNew)
    ensures Inv(Step(s, SendNew))
  {
    hide NoDup, Names;
    var s' := Step(s, SendNew);
    assert Heard(s') == Heard(s);
    forall m {:trigger s'.views[m]} | m in s'.views ensures ViewOk(s', m) {
      assert ViewOk(s, m) && Full(s', m) == Full(s, m);
    }
  }

  lemma FullGrows(info: seq<NodeId>, l: seq<NodeId>, n: NodeId)
    requires NoDup(info + l) && n !in Names(info + l)
    ensures NoDup(info + ([n] + l)) && Names(info + ([n] + l)) == Names(info + l) + {n}
  {
    var a, b, k := info + l, info + ([n] + l), |info|;
    assert forall i :: 0 <= i < |a| ==> a[i] in Names(a);
    assert forall i :: 0 <= i < |a| ==> a[i] == b[if i < k then i else i + 1];
    forall i, j | 0 <= i < j < |b| ensures b[i] != b[j] {
      assert i != k ==> b[i] == a[if i < k then i else i - 1];
      assert j != k ==> b[j] == a[if j < k then j else j - 1];
    }
    assert b[k] == n;
    assert forall i :: 0 <= i < |b| ==> b[i] in Names(a) + {n};
  }

  lemma DeliverNewKeeps(s: State, d: NodeId, x: NodeId, n: NodeId)
    requires Inv(s) && Enabled(s, DeliverNew(d, x, n))
    ensures Inv(Step(s, DeliverNew(d, x, n)))
  {
    hide NoDup, Names;
    var s' := Step(s, DeliverNew(d, x, n));
    var c, j, l := s.phase.contact, s.phase.joiner, s.views[s.phase.contact].list;
    ContactList(s);
    assert s.news == multiset{NewNode(l[s.phase.next], c, j)};
    assert d == l[s.phase.next] && x == c && n == j;
    NotYet(l, s.phase.next);
    assert s'.news == multiset{} && s'.acks == multiset{c};
    assert s'.views.Keys == s.views.Keys && s'.views[c] == s.views[c];
    assert PhaseOk(s');
    assert Heard(s') == Heard(s) + {d};
    assert ViewOk(s, d);
    FullGrows(if d in s.infos then s.infos[d] else [], s.views[d].list, j);
    forall m {:trigger s'.views[m]} | m in s'.views ensures ViewOk(s', m) {
      assert ViewOk(s, m);
      if m != d { assert Full(s', m) == Full(s, m); }
    }
  }

  lemma NotYet(l: seq<NodeId>, k: nat)
    requires NoDup(l) && k < |l|
    ensures l[k] in Names(l) && l[k] !in Names(l[..k])
  {}

  lemma DeliverAckKeeps(s: State, d: NodeId)
    requires Inv(s) && Enabled(s, DeliverAck(d))
    ensures Inv(Step(s, DeliverAck(d)))
  {
    hide NoDup, Names;
    var s' := Step(s, DeliverAck(d));
    assert d == s.phase.contact && s'.acks == multiset{};
    assert s'.views.Keys == s.views.Keys;
    assert Heard(s') == Heard(s);
    forall m {:trigger s'.views[m]} | m in s'.views ensures ViewOk(s', m) {
      assert ViewOk(s, m) && Full(s', m) == Full(s, m);
    }
  }

  lemma AckSeenKeeps(s: State)
    requires Inv(s) && Enabled(s, AckSeen)
    ensures Inv(Step(s, AckSeen))
  {
    hide NoDup, Names;
    var s', l, k := Step(s, AckSeen), s.views[s.phase.contact].list, s.phase.next;
    assert s'.views.Keys == s.views.Keys;
    OneMore(l, k);
    assert Heard(s') == Heard(s);
    forall m {:trigger s'.views[m]} | m in s'.views ensures ViewOk(s', m) {
      assert ViewOk(s, m) && Full(s', m) == Full(s, m);
    }
  }

  lemma OneMore(l: seq<NodeId>, k: nat)
    requires k < |l|
    ensures Names(l[..k + 1]) == Names(l[..k]) + {l[k]}
  {
    assert l[..k + 1] == l[..k] + [l[k]];
  }

  lemma SendInfoKeeps(s: State)
    requires Inv(s) && Enabled(s, SendInfo)
    ensures Inv(Step(s, SendInfo))
  {
    hide NoDup, Names;
    var s', c, j := Step(s, SendInfo), s.phase.contact, s.phase.joiner;
    var l := s.views[c].list;
    ContactList(s);
    assert l[..s.phase.next] == l;
    assert Heard(s) == Names(l);
    assert s'.views.Keys == s.views.Keys && s'.infos.Keys == s.infos.Keys + {j};
    assert PhaseOk(s');
    assert ViewOk(s, j) && Full(s, j) == s.views[j].list;
    assert ViewOk(s, c);
    InfoLists(s.views[j].list, l, c, j);
    assert Full(s', c) == [j] + l && Full(s', j) == l + [c];
    assert s'.views.Keys - {c} == s.views.Keys - {c} - {j} + {j};
    assert s'.views.Keys - {j} == s.views.Keys - {c} - {j} + {c};
    forall m {:trigger s'.views[m]} | m in s'.views ensures ViewOk(s', m) {
      assert ViewOk(s, m);
      if m != c && m != j {
        assert Full(s', m) == Full(s, m) && m in Names(l);
      }
    }
  }

  /** The list of the contact and the list that the joining node will have. */
  lemma InfoLists(own: seq<NodeId>, l: seq<NodeId>, c: NodeId, j: NodeId)
    requires NoDup(own) && Names(own) == {c} && NoDup(l) && c !in Names(l) && j !in Names(l)
    ensures own == [c]
    ensures NoDup([j] + l) && Names([j] + l) == Names(l) + {j}
    ensures NoDup(l + [c]) && Names(l + [c]) == Names(l) + {c}
  {
    Single(own, c);
    FullGrows([], l, j);
    assert [] + ([j] + l) == [j] + l && [] + l == l;
    FullGrows(l, [], c);
    assert l + ([c] + []) == l + [c] && l + [] == l;
  }

  lemma Single(l: seq<NodeId>, c: NodeId)
    requires NoDup(l) && Names(l) == {c}
    ensures l == [c]
  {
    DistinctSize(l);
    assert l[0] in Names(l);
  }

  lemma FullShrinks(info: seq<NodeId>, l: seq<NodeId>, n: NodeId)
    requires NoDup(info + ([n] + l))
    ensures NoDup(info + l) && n !in Names(info + l) && Names(info + ([n] + l)) == Names(info + l) + {n}
  {
    var a, b, k := info + l, info + ([n] + l), |info|;
    assert b[k] == n;
    assert forall i :: 0 <= i < |a| ==> a[i] == b[if i < k then i else i + 1];
    forall i | 0 <= i < |b| ensures b[i] in Names(a) + {n} {
      assert i != k ==> b[i] == a[if i < k then i else i - 1];
    }
  }

  lemma {:induction false} AddAllAgrees(info: seq<NodeId>, l: seq<NodeId>)
    requires NoDup(info + l)
    ensures NoDup(AddAll(l, info)) && Names(AddAll(l, info)) == Names(info + l) && |AddAll(l, info)| == |info| + |l|
    decreases |info|
  {
    hide NoDup, Names;
    if info == [] {
      assert info + l == l;
    } else {
      var k := |info| - 1;
      var x, r := info[k], AddAll(l, info[..k]);
      assert info + l == info[..k] + ([x] + l);
      FullShrinks(info[..k], l, x);
      AddAllAgrees(info[..k], l);
      assert [] + ([x] + r) == [x] + r && [] + r == r;
      FullGrows([], r, x);
    }
  }

  lemma DeliverInfoKeeps(s: State, j: NodeId)
    requires Inv(s) && Enabled(s, DeliverInfo(j))
    ensures Inv(Step(s, DeliverInfo(j)))
  {
    hide NoDup, Names;
    var s' := Step(s, DeliverInfo(j));
    assert s'.views.Keys == s.views.Keys;
    assert s.phase.Joining? ==> Heard(s') == Heard(s);
    forall m {:trigger s'.views[m]} | m in s'.views ensures ViewOk(s', m) {
      assert ViewOk(s, m);
      if m == j {
        AddAllAgrees(s.infos[j], s.views[j].list);
        assert Full(s', j) == s'.views[j].list;
      } else {
        assert Full(s', m) == Full(s, m);
      }
    }
  }

  lemma BeginLeaveKeeps(s: State, l: NodeId)
    requires Inv(s) && Enabled(s, BeginLeave(l))
    ensures Inv(Step(s, BeginLeave(l)))
  {
    hide NoDup, Names;
    var s' := Step(s, BeginLeave(l));
    forall m {:trigger s'.views[m]} | m in s'.views ensures ViewOk(s', m) {
      assert ViewOk(s, m) && Full(s', m) == Full(s, m);
    }
  }

  /** `n` was told that the leaver is gone. */
  ghost predicate ToldStep(s: State, s': State, n: NodeId) {
    && s.phase.Leaving? && n in s.phase.todo && n in s.views && PhaseOk(s) && PhaseOk(s')
    && s'.phase == Leaving(s.phase.leaver, s.phase.todo - {n}) && s'.infos == s.infos
    && s'.views.Keys == s.views.Keys && s'.views[n] == Removed(s.views[n], s.phase.leaver)
    && forall m {:trigger s'.views[m]} :: m in s'.views && m != n ==> s'.views[m] == s.views[m]
  }

  lemma ToldSteps(s: State, n: NodeId)
    requires PhaseOk(s) && Enabled(s, Told(n))
    ensures ToldStep(s, Step(s, Told(n)), n)
  {
    hide Removed;
    assert Step(s, Told(n)).views.Keys == s.views.Keys;
  }

  lemma ToldView(s: State, s': State, n: NodeId)
    requires ToldStep(s, s', n) && ViewOk(s, n)
    ensures ViewOk(s', n)
  {
    hide NoDup, Names;
    var l := s.phase.leaver;
    assert Full(s, n) == s.views[n].list && Full(s', n) == s'.views[n].list;
    WithoutIs(s.views[n].list, l);
    NamedIn(s.views[n].list, l);
    assert Expected(s', n) == Expected(s, n) - {l};
  }

  lemma OtherView(s: State, s': State, n: NodeId, m: NodeId)
    requires ToldStep(s, s', n) && m in s.views && m != n && ViewOk(s, m)
    ensures ViewOk(s', m)
  {
    hide NoDup, Names, Removed;
    assert Full(s', m) == Full(s, m);
    assert Expected(s', m) == Expected(s, m);
  }

  lemma ToldKeeps(s: State, n: NodeId)
    requires Inv(s) && Enabled(s, Told(n))
    ensures Inv(Step(s, Told(n)))
  {
    hide Step, Removed, ViewOk;
    var s' := Step(s, Told(n));
    ToldSteps(s, n);
    forall m {:trigger s'.views[m]} | m in s'.views ensures ViewOk(s', m) {
      assert ViewOk(s, m);
      if m == n { ToldView(s, s', n); } else { OtherView(s, s', n, m); }
    }
  }

  lemma NamedIn(l: seq<NodeId>, n: NodeId)
    ensures n in Names(l) <==> n in l
  {}

  lemma EndLeaveKeeps(s: State)
    requires Inv(s) && Enabled(s, EndLeave)
    ensures Inv(Step(s, EndLeave))
  {
    hide NoDup, Names;
    var s' := Step(s, EndLeave);
    forall m {:trigger s'.views[m]} | m in s'.views ensures ViewOk(s', m) {
      assert ViewOk(s, m) && Full(s', m) == Full(s, m);
    }
  }

  lemma StepKeepsInv(s: State, e: Event)
    requires Inv(s) && Enabled(s, e)
    ensures Inv(Step(s, e))
  {
    hide Inv, Step, Enabled;
    match e
    case BeginJoin(c, j) => BeginJoinKeeps(s, c, j);
    case SendNew => SendNewKeeps(s);
    case DeliverNew(d, x, j) => DeliverNewKeeps(s, d, x, j);
    case DeliverAck(d) => DeliverAckKeeps(s, d);
    case AckSeen => AckSeenKeeps(s);
    case SendInfo => SendInfoKeeps(s);
    case DeliverInfo(j) => DeliverInfoKeeps(s, j);
    case BeginLeave(l) => BeginLeaveKeeps(s, l);
    case Told(n) => ToldKeeps(s, n);
    case EndLeave => EndLeaveKeeps(s);
  }

  lemma {:induction false} RunKeepsInv(s: State, es: seq<Event>)
    requires Inv(s) && IsRun(s, es)
    ensures Inv(After(s, es))
    decreases |es|
  {
    hide Inv, Step, Enabled;
    if es != [] {
      StepKeepsInv(s, es[0]);
      RunKeepsInv(Step(s, es[0]), es[1..]);
    }
  }

  // --- What the nodes see.

  ghost predicate Reachable(s: State) {
    exists first, es :: IsRun(Init(first), es) && s == After(Init(first), es)
  }

  lemma ReachableInv(s: State)
    requires Reachable(s)
    ensures Inv(s)
  {
    hide Inv;
    var first, es :| IsRun(Init(first), es) && s == After(Init(first), es);
    InitInv(first);
    RunKeepsInv(Init(first), es);
  }

  /** When no join or departure is in progress, the list of every member that has received its
      INFO_DSM names each other member exactly once, and `nb_nodees` is its length. */
  lemma ViewsAgree(s: State, m: NodeId)
    requires Reachable(s) && s.phase == Quiet && m in s.views && m !in s.infos
    ensures forall n :: n in s.views[m].list <==> n in s.views && n != m
    ensures NoDup(s.views[m].list)
    ensures s.views[m].count == |s.views[m].list| == |s.views| - 1
  {
    hide IsRun, After;
    ReachableInv(s);
    assert ViewOk(s, m) && Full(s, m) == s.views[m].list;
    forall n ensures n in s.views[m].list <==> n in s.views && n != m { NamedIn(s.views[m].list, n); }
    DistinctSize(s.views[m].list);
    assert |s.views.Keys - {m}| == |s.views.Keys| - 1;
  }

  lemma {:induction false} DistinctSize(l: seq<NodeId>)
    requires NoDup(l)
    ensures |Names(l)| == |l|
  {
    if l != [] {
      var k := |l| - 1;
      NotYet(l, k);
      DistinctSize(l[..k]);
      OneMore(l, k);
      assert l[..k + 1] == l;
    }
  }

  /** The nodes whose flag `acked` is set. */
  ghost function Flags(s: State): set<NodeId> {
    set m | m in s.views && s.views[m].acked
  }

  function InWait(s: State): nat {
    if s.phase.Joining? && s.phase.waiting then 1 else 0
  }

  lemma FlagsAre(s: State)
    requires Inv(s)
    ensures |s.news| + |s.acks| + |Flags(s)| == InWait(s)
  {
    forall m | m in Flags(s) ensures s.phase.Joining? && m == s.phase.contact { assert ViewOk(s, m); }
    if s.phase.Joining? && s.views[s.phase.contact].acked {
      assert Flags(s) == {s.phase.contact};
    } else {
      assert Flags(s) == {};
    }
  }

  /** At every moment the contact has one NEW_NODE unacknowledged or none, and that one is a
      NEW_NODE in flight, an ACK_NODE in flight or the flag `acked`. */
  lemma OneAckEach(s: State)
    requires Reachable(s)
    ensures |s.news| + |s.acks| + |Flags(s)| == InWait(s)
  {
    hide IsRun, After;
    ReachableInv(s);
    FlagsAre(s);
  }

  /** How many events of the run are of the given kind. */
  function Tally(es: seq<Event>, kind: Event -> bool): nat {
    if es == [] then 0 else (if kind(es[0]) then 1 else 0) + Tally(es[1..], kind)
  }

  function Sent(es: seq<Event>): nat { Tally(es, (e: Event) => e.SendNew?) }
  function Delivered(es: seq<Event>): nat { Tally(es, (e: Event) => e.DeliverNew?) }
  function Acknowledged(es: seq<Event>): nat { Tally(es, (e: Event) => e.DeliverAck?) }
  function Consumed(es: seq<Event>): nat { Tally(es, (e: Event) => e.AckSeen?) }

  lemma MessageStep(s: State, e: Event)
    requires Enabled(s, e)
    ensures |Step(s, e).news| == |s.news| + (if e.SendNew? then 1 else 0) - (if e.DeliverNew? then 1 else 0)
    ensures |Step(s, e).acks| == |s.acks| + (if e.DeliverNew? then 1 else 0) - (if e.DeliverAck? then 1 else 0)
    ensures InWait(Step(s, e)) == InWait(s) + (if e.SendNew? then 1 else 0) - (if e.AckSeen? then 1 else 0)
  {
    hide Added, Removed, Informed;
    match e
    case DeliverNew(d, x, j) => assert |s.news - multiset{NewNode(d, x, j)}| == |s.news| - 1;
    case DeliverAck(d) => assert |s.acks - multiset{d}| == |s.acks| - 1;
    case _ =>
  }

  lemma {:induction false} TalliesFrom(s: State, es: seq<Event>)
    requires Inv(s) && IsRun(s, es)
    ensures var t := After(s, es);
      && |s.news| + Sent(es) == Delivered(es) + |t.news|
      && |s.acks| + Delivered(es) == Acknowledged(es) + |t.acks|
      && |Flags(s)| + Acknowledged(es) == Consumed(es) + |Flags(t)|
    decreases |es|
  {
    hide Inv, Step, Enabled, Flags, InWait;
    FlagsAre(s);
    if es != [] {
      MessageStep(s, es[0]);
      StepKeepsInv(s, es[0]);
      FlagsAre(Step(s, es[0]));
      TalliesFrom(Step(s, es[0]), es[1..]);
    }
  }

  /** Over a whole run: every NEW_NODE sent is delivered once, every delivery is acknowledged by one
      ACK_NODE, and every ACK_NODE is consumed by one wait, up to what is still under way. */
  lemma AcksMatch(first: NodeId, es: seq<Event>)
    requires IsRun(Init(first), es)
    ensures var t := After(Init(first), es);
      && Sent(es) == Delivered(es) + |t.news|
      && Delivered(es) == Acknowledged(es) + |t.acks|
      && Acknowledged(es) == Consumed(es) + |Flags(t)|
      && |t.news| + |t.acks| + |Flags(t)| <= 1
  {
    hide Inv, IsRun, After, Flags;
    InitInv(first);
    TalliesFrom(Init(first), es);
    RunKeepsInv(Init(first), es);
    FlagsAre(After(Init(first), es));
    FlagsAre(Init(first));
  }

  // --- Leaving as the last one.

  /** The counter that makes `leave_last` go on, 1, is reached in a departure exactly when one
      other member is still there. */
  lemma LeaveLastIsNotLast(s: State, n: NodeId)
    requires Reachable(s) && Enabled(s, Told(n))
    ensures var t := Step(s, Told(n)); n in t.views && (t.views[n].count == 1 <==> |t.views| == 2)
  {
    hide IsRun, After, Step, NoDup, Names, Removed;
    ReachableInv(s);
    ToldSteps(s, n);
    ToldKeeps(s, n);
    var t := Step(s, Told(n));
    assert ViewOk(t, n) && Full(t, n) == t.views[n].list && Expected(t, n) == t.views.Keys - {n};
    DistinctSize(t.views[n].list);
    assert |t.views.Keys - {n}| == |t.views| - 1;
  }
}
