/**
 Joins and departures. Both happen inside the critical section, so one is in progress at a
 time. INFO_DSM may still be on its way when the next node joins; a departure starts only
 after it has arrived.
 */
module Membership {
  import opened Nodes
  import opened NodeList

  datatype View = View(list: seq<NodeId>, count: int, acked: bool)

  datatype Phase =
    | Quiet
    | Joining(contact: NodeId, joiner: NodeId, next: nat, waiting: bool)
    | Leaving(leaver: NodeId, todo: set<NodeId>)

  datatype NewNode = NewNode(dst: NodeId, sender: NodeId, node: NodeId)

  /** `infos` are the INFO_DSM messages in flight, `acks` the destinations of ACK_NODE. */
  datatype State = State(
    views: map<NodeId, View>,
    infos: map<NodeId, seq<NodeId>>,
    news: multiset<NewNode>,
    acks: multiset<NodeId>,
    phase: Phase)

  datatype Event =
    | BeginJoin(contact: NodeId, joiner: NodeId)
    | SendNew
    | DeliverNew(dst: NodeId, sender: NodeId, node: NodeId)
    | DeliverAck(dst: NodeId)
    | AckSeen
    | SendInfo
    | DeliverInfo(joiner: NodeId)
    | BeginLeave(leaver: NodeId)
    | Told(n: NodeId)
    | EndLeave

  predicate Enabled(s: State, e: Event) {
    match e
    case BeginJoin(c, j) => s.phase == Quiet && c in s.views && c !in s.infos && j !in s.views
    case SendNew => s.phase.Joining? && s.phase.contact in s.views && !s.phase.waiting && s.phase.next < |s.views[s.phase.contact].list|
    case DeliverNew(d, x, j) => d in s.views && NewNode(d, x, j) in s.news
    case DeliverAck(d) => d in s.views && d in s.acks
    case AckSeen => s.phase.Joining? && s.phase.contact in s.views && s.phase.waiting && s.views[s.phase.contact].acked
    case SendInfo => s.phase.Joining? && s.phase.contact in s.views && !s.phase.waiting && s.phase.next == |s.views[s.phase.contact].list|
    case DeliverInfo(j) => j in s.views && j in s.infos
    case BeginLeave(l) => s.phase == Quiet && l in s.views && s.infos == map[]
    case Told(n) => s.phase.Leaving? && n in s.phase.todo && n in s.views
    case EndLeave => s.phase.Leaving? && s.phase.todo == {}
  }

  /** `add_to_nodes`. */
  function Added(v: View, n: NodeId): View {
    v.(list := [n] + v.list, count := v.count + 1)
  }

  /** `remove_node`. */
  function Removed(v: View, n: NodeId): View {
    if n in v.list then v.(list := Without(v.list, n), count := v.count - 1) else v
  }

  /** The handler of INFO_DSM. */
  function Informed(v: View, nodes: seq<NodeId>): View {
    v.(list := AddAll(v.list, nodes), count := v.count + |nodes|)
  }

  function Put(s: State, n: NodeId, v: View): State {
    s.(views := s.views[n := v])
  }

  function Step(s: State, e: Event): State
    requires Enabled(s, e)
  {
    match e
    case BeginJoin(c, j) => Put(s, j, View([c], 1, false)).(phase := Joining(c, j, 0, false))
    case SendNew =>
      var c := s.phase.contact;
      s.(news := s.news + multiset{NewNode(s.views[c].list[s.phase.next], c, s.phase.joiner)}, phase := s.phase.(waiting := true))
    case DeliverNew(d, x, j) =>
      Put(s, d, Added(s.views[d], j)).(news := s.news - multiset{NewNode(d, x, j)}, acks := s.acks + multiset{x})
    case DeliverAck(d) => Put(s, d, s.views[d].(acked := true)).(acks := s.acks - multiset{d})
    case AckSeen =>
      var c := s.phase.contact;
      Put(s, c, s.views[c].(acked := false)).(phase := s.phase.(next := s.phase.next + 1, waiting := false))
    case SendInfo =>
      var c, j := s.phase.contact, s.phase.joiner;
      Put(s, c, Added(s.views[c], j)).(infos := s.infos[j := s.views[c].list], phase := Quiet)
    case DeliverInfo(j) => Put(s, j, Informed(s.views[j], s.infos[j])).(infos := s.infos - {j})
    case BeginLeave(l) => s.(views := s.views - {l}, phase := Leaving(l, s.views.Keys - {l}))
    case Told(n) => Put(s, n, Removed(s.views[n], s.phase.leaver)).(phase := s.phase.(todo := s.phase.todo - {n}))
    case EndLeave => s.(phase := Quiet)
  }

  function Init(first: NodeId): State {
    State(map[first := View([], 0, false)], map[], multiset{}, multiset{}, Quiet)
  }

  predicate IsRun(s: State, es: seq<Event>)
    decreases |es|
  {
    es == [] || (Enabled(s, es[0]) && IsRun(Step(s, es[0]), es[1..]))
  }

  function After(s: State, es: seq<Event>): State
    requires IsRun(s, es)
    decreases |es|
  {
    if es == [] then s else After(Step(s, es[0]), es[1..])
  }
}
