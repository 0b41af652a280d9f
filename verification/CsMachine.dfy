/**
 The whole system: every node's variables plus the messages in flight. Each handler body
 runs under the node's mutex, so it is one step; messages are delivered in any order.
 */
module CsMachine {
  import opened Nodes
  import opened NaimiTrehel

  /** `sites` are the nodes taking part in the protocol. `stale` are the nodes that keep
      the variables of a departed root until their RESET_CS arrives. */
  datatype State = State(
    sites: map<NodeId, Site>,
    net: multiset<Packet>,
    stale: map<NodeId, Site>)

  datatype Event =
    | CallEnter(n: NodeId)
    | CallWake(n: NodeId)
    | CallRelease(n: NodeId)
    | DeliverRequest(at: NodeId, requester: NodeId)
    | DeliverGrant(at: NodeId)
    | Join(n: NodeId, contact: NodeId)
    | CallLeave(n: NodeId, successor: NodeId)
    | DeliverNewRoot(at: NodeId, leaver: NodeId, nodes: seq<NodeId>)
    | DeliverReset(at: NodeId, root: NodeId)

  /** The network after a message was taken out and others were sent. */
  function Exchange(net: multiset<Packet>, taken: multiset<Packet>, sent: seq<Packet>): multiset<Packet> {
    net - taken + multiset(sent)
  }

  /** The state with new variables for node `n` and a new network. */
  function Put(s: State, n: NodeId, t: Site, net: multiset<Packet>): State {
    State(s.sites[n := t], net, s.stale)
  }

  /** The state after node `n` ran a handler. */
  function Apply(s: State, n: NodeId, taken: multiset<Packet>, e: Effect): State {
    Put(s, n, e.site, Exchange(s.net, taken, e.sent))
  }

  /** No departure is being propagated. */
  predicate Settled(s: State) {
    s.sites.Keys != {} && s.stale.Keys == {}
  }

  predicate NoRequestInFlight(s: State) {
    forall p :: p in s.net ==> !p.RequestCs?
  }

  /** `nodes` lists exactly the members of `S`, each once. */
  predicate Lists(nodes: seq<NodeId>, S: set<NodeId>) {
    && (forall i, j :: 0 <= i < j < |nodes| ==> nodes[i] != nodes[j])
    && (forall n :: n in nodes ==> n in S)
    && (forall n :: n in S ==> n in nodes)
  }

  /** When an event can happen. `request_CS` is entered only while no other local caller is
      blocked in it. A node leaves inside the critical section, once no REQUEST_CS is in
      flight, and the nodes it leaves behind start no request before they are reset. */
  predicate Enabled(s: State, e: Event) {
    match e
    case CallEnter(n) => n in s.sites && !s.sites[n].waiting
    case CallWake(n) => n in s.sites && s.sites[n].waiting && s.sites[n].token
    case CallRelease(n) => n in s.sites && s.sites[n].users > 0
    case DeliverRequest(at, r) => at in s.sites && RequestCs(at, r) in s.net
    case DeliverGrant(at) => at in s.sites && GetCs(at) in s.net
    case Join(n, c) => Settled(s) && n !in s.sites && n != EmptyNode && c in s.sites
    case CallLeave(n, successor) =>
      && Settled(s) && NoRequestInFlight(s)
      && n in s.sites && s.sites[n].users > 0
      && successor in s.sites && successor != n
    case DeliverNewRoot(at, leaver, nodes) =>
      at in s.stale && NewRootCs(at, leaver) in s.net && Lists(nodes, s.stale.Keys - {at})
    case DeliverReset(at, root) => at in s.stale && ResetCs(at, root) in s.net
  }

  function DoEnter(s: State, n: NodeId): State
    requires n in s.sites
  {
    Apply(s, n, multiset{}, Enter(s.sites[n], n))
  }

  function DoWake(s: State, n: NodeId): State
    requires n in s.sites
  {
    Apply(s, n, multiset{}, Effect(Wake(s.sites[n]), []))
  }

  function DoRelease(s: State, n: NodeId): State
    requires n in s.sites && s.sites[n].users > 0
  {
    Apply(s, n, multiset{}, Release(s.sites[n]))
  }

  function DoRequest(s: State, at: NodeId, r: NodeId): State
    requires at in s.sites
  {
    Apply(s, at, multiset{RequestCs(at, r)}, OnRequest(s.sites[at], r))
  }

  function DoGrant(s: State, at: NodeId): State
    requires at in s.sites
  {
    Apply(s, at, multiset{GetCs(at)}, Effect(OnGrant(s.sites[at]), []))
  }

  function DoJoin(s: State, n: NodeId, contact: NodeId): State {
    Put(s, n, Fresh(contact, false), s.net)
  }

  /** The leaver takes its variables with it; everybody else waits for the new root. */
  function DoLeave(s: State, n: NodeId, successor: NodeId): State
    requires n in s.sites
  {
    State(map[], Exchange(s.net, multiset{}, Depart(s.sites[n], n, successor).sent), s.sites - {n})
  }

  function DoNewRoot(s: State, at: NodeId, leaver: NodeId, nodes: seq<NodeId>): State
    requires at in s.stale
  {
    var e := OnNewRoot(s.stale[at], at, nodes, leaver);
    State(map[at := e.site], Exchange(s.net, multiset{NewRootCs(at, leaver)}, e.sent), s.stale - {at})
  }

  function DoReset(s: State, at: NodeId, root: NodeId): State
    requires at in s.stale
  {
    var e := OnReset(s.stale[at], at, root);
    State(s.sites[at := e.site], Exchange(s.net, multiset{ResetCs(at, root)}, e.sent), s.stale - {at})
  }

  function Step(s: State, e: Event): State
    requires Enabled(s, e)
  {
    match e
    case CallEnter(n) => DoEnter(s, n)
    case CallWake(n) => DoWake(s, n)
    case CallRelease(n) => DoRelease(s, n)
    case DeliverRequest(at, r) => DoRequest(s, at, r)
    case DeliverGrant(at) => DoGrant(s, at)
    case Join(n, c) => DoJoin(s, n, c)
    case CallLeave(n, successor) => DoLeave(s, n, successor)
    case DeliverNewRoot(at, leaver, nodes) => DoNewRoot(s, at, leaver, nodes)
    case DeliverReset(at, root) => DoReset(s, at, root)
  }

  /** The first node creates the shared memory with the token and no father. */
  function Init(first: NodeId): State {
    State(map[first := Fresh(EmptyNode, true)], multiset{}, map[])
  }

  /** `es` is a run from `s`: every event is enabled when it happens. */
  predicate IsRun(s: State, es: seq<Event>)
    decreases |es|
  {
    es == [] || (Enabled(s, es[0]) && IsRun(Step(s, es[0]), es[1..]))
  }

  /** The state a run ends in. */
  function After(s: State, es: seq<Event>): State
    requires IsRun(s, es)
    decreases |es|
  {
    if es == [] then s else After(Step(s, es[0]), es[1..])
  }
}
