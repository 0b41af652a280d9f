/**
 Callers that no continuation can serve: their requests lie in lists of nodes that never get the
 token, or travel for ever between nodes that pass them on to each other. What the proof needs of
 a state is who waits, who has whose request, and where every node sends a request.
 */
module LockTrap {
  import opened Nodes

  /** `next` is where a node sends a request that it neither answers nor lists: the writer it
      forwards to, or the node it believes to have the token, which is `own`. A node whose `next`
      is itself lists the request. `full` are the nodes with a list. `listed` has (n, m) when the
      request of n is in the list of m, `asks` has (d, n) when it travels to d. `token` has the
      node that has the token or that the token is travelling to. */
  datatype View = View(
    nodes: set<NodeId>,
    next: map<NodeId, NodeId>,
    own: map<NodeId, NodeId>,
    full: set<NodeId>,
    pending: set<NodeId>,
    listed: set<(NodeId, NodeId)>,
    asks: set<(NodeId, NodeId)>,
    token: set<NodeId>)

  predicate Proper(v: View) {
    && v.next.Keys == v.nodes && v.own.Keys == v.nodes && v.full <= v.nodes
    && (forall p :: p in v.asks ==> p.0 in v.nodes && p.1 in v.nodes)
    && (forall p :: p in v.listed ==> p.1 in v.nodes)
  }

  /** `lost`: nodes that never get the token. `walk`: where the requests of these nodes travel.
      `core`: nodes with a list, which forward to one another whatever arrives. `open`: where the
      requests of nodes outside `walk` can come. */
  datatype Zone = Zone(lost: set<NodeId>, walk: set<NodeId>, core: set<NodeId>, open: set<NodeId>)

  ghost predicate Bounds(v: View, z: Zone) {
    && z.walk <= z.lost <= v.nodes && z.core <= z.lost * v.full && z.open <= v.nodes
    && z.open * z.walk <= z.core && z.lost !! v.token
  }

  /** The requests of lost callers are in lists of lost nodes, in the core, or walk; a lost node
      without a waiting caller is part of the walk. */
  ghost predicate RequestsInside(v: View, z: Zone) {
    && (forall n, m :: (n, m) in v.listed && n in z.lost ==> m in z.lost)
    && (forall d, n :: (d, n) in v.asks && n in z.lost ==> d in z.core || (n in z.walk && d in z.walk))
    && z.lost - v.pending <= z.walk
  }

  /** The core and the walk lead into themselves. */
  ghost predicate PathsInside(v: View, z: Zone) {
    && (forall n {:trigger v.next[n]} :: n in v.next && n in z.core ==> v.next[n] in z.core)
    && (forall n {:trigger v.next[n]} :: n in v.next && n in z.walk ==> v.next[n] in z.walk + z.core)
    && (forall n {:trigger v.own[n]} :: n in v.own && n in z.walk && n !in v.pending ==> v.own[n] in z.walk + z.core)
  }

  /** Requests of other nodes enter the walk only in the core, where they change nothing. */
  ghost predicate ClosedOutside(v: View, z: Zone) {
    && (forall d, i :: (d, i) in v.asks && i !in z.walk ==> d in z.open && (d in z.core || i in z.open))
    && (forall n {:trigger v.next[n]} :: n in v.next && n in z.open ==> v.next[n] in z.open)
    && (forall n {:trigger v.own[n]} :: n in v.own && n !in z.walk && n !in v.pending && v.own[n] != n ==> n in z.open && v.own[n] in z.open)
    && (forall n, m :: (n, m) in v.listed && m !in z.lost ==> m in z.open && n in z.open)
  }

  ghost predicate Trap(v: View, z: Zone) {
    Proper(v) && Bounds(v, z) && RequestsInside(v, z) && PathsInside(v, z) && ClosedOutside(v, z)
  }

  /** Every name in the view is that of a node. */
  predicate Known(v: View) {
    && Proper(v)
    && (forall p :: p in v.listed ==> p.0 in v.nodes)
    && v.next.Values <= v.nodes && v.own.Values <= v.nodes
  }

  /** Callers whose requests are all in lists of one another are a trap. */
  lemma ListedTrap(v: View, D: set<NodeId>)
    requires Known(v) && D <= v.nodes && D <= v.pending && D !! v.token
    requires forall n, m :: (n, m) in v.listed && n in D ==> m in D
    requires forall d, n :: (d, n) in v.asks ==> n !in D
    ensures Trap(v, Zone(D, {}, {}, v.nodes))
  {
    hide Bounds, RequestsInside, PathsInside, ClosedOutside;
    var z := Zone(D, {}, {}, v.nodes);
    assert Bounds(v, z) by { ListedBounds(v, z); }
    assert RequestsInside(v, z) by { ListedRequests(v, z); }
    assert PathsInside(v, z) by { NoPaths(v, z); }
    assert ClosedOutside(v, z) by { AllOpen(v, z); }
  }

  lemma ListedBounds(v: View, z: Zone)
    requires z.lost <= v.nodes && z.lost !! v.token && z.walk == {} && z.core == {} && z.open == v.nodes
    ensures Bounds(v, z)
  {}

  lemma ListedRequests(v: View, z: Zone)
    requires forall n, m :: (n, m) in v.listed && n in z.lost ==> m in z.lost
    requires (forall d, n :: (d, n) in v.asks ==> n !in z.lost) && z.lost <= v.pending
    ensures RequestsInside(v, z)
  {}

  lemma NoPaths(v: View, z: Zone)
    requires z.walk == {} && z.core == {}
    ensures PathsInside(v, z)
  {}

  lemma AllOpen(v: View, z: Zone)
    requires Known(v) && z.open == v.nodes
    ensures ClosedOutside(v, z)
  {
    hide Known;
    forall d, i | (d, i) in v.asks ensures d in z.open && i in z.open { PairIsKnown(v, (d, i)); }
    forall n, m | (n, m) in v.listed ensures m in z.open && n in z.open { PairIsKnown(v, (n, m)); }
    forall n {:trigger v.next[n]} | n in v.next ensures v.next[n] in z.open { NodeIsKnown(v, n); }
    forall n {:trigger v.own[n]} | n in v.own ensures n in z.open && v.own[n] in z.open { NodeIsKnown(v, n); }
  }

  lemma PairIsKnown(v: View, p: (NodeId, NodeId))
    requires Known(v) && (p in v.asks || p in v.listed)
    ensures p.0 in v.nodes && p.1 in v.nodes
  {}

  lemma NodeIsKnown(v: View, n: NodeId)
    requires Known(v) && (n in v.next || n in v.own)
    ensures n in v.nodes && n in v.next && n in v.own && v.next[n] in v.nodes && v.own[n] in v.nodes
  {
    assert v.next[n] in v.next.Values && v.own[n] in v.own.Values;
  }

  // --- What the steps of the protocol do to a view, and that they keep every trap.

  function Called(v: View, n: NodeId): View
    requires n in v.own
  {
    v.(pending := v.pending + {n}, asks := v.asks + {(v.own[n], n)})
  }

  lemma CallKeepsTrap(v: View, z: Zone, n: NodeId)
    requires Trap(v, z) && n in v.nodes - v.pending && v.own[n] in v.nodes && v.own[n] != n
    ensures Trap(Called(v, n), z)
  {}

  /** The first writer `x` in the list of `n` gets the token; `next` is what then follows. */
  function Promoted(v: View, n: NodeId, x: NodeId, next: NodeId, full: set<NodeId>): View
    requires n in v.nodes
  {
    v.(listed := v.listed - {(x, n)}, next := v.next[n := next], own := v.own[n := x], full := full, token := {x})
  }

  lemma PromotionKeepsTrap(v: View, z: Zone, n: NodeId, x: NodeId, next: NodeId, full: set<NodeId>)
    requires Trap(v, z) && n in v.nodes && v.token == {n} && (x, n) in v.listed && x in v.nodes
    requires next == x || next == v.next[n]
    requires v.full - {n} <= full <= v.full
    ensures Trap(Promoted(v, n, x, next, full), z)
  {
    hide RequestsInside, PathsInside, ClosedOutside;
    var v' := Promoted(v, n, x, next, full);
    assert n !in z.lost;
    ListedFacts(v, z, x, n);
    assert Proper(v') && Bounds(v', z);
    assert RequestsInside(v', z) by { FewerRequests(v, v', z); }
    assert PathsInside(v', z) by { PathsElsewhere(v, v', z, n); }
    assert ClosedOutside(v', z) by { OutsideRedirected(v, v', z, n, x); }
  }

  lemma ListedFacts(v: View, z: Zone, x: NodeId, m: NodeId)
    requires Trap(v, z) && (x, m) in v.listed && m !in z.lost
    ensures x !in z.lost && m in z.open && x in z.open
  {}

  /** What the zone says about a request that travels to `d`. */
  lemma TravellerFacts(v: View, z: Zone, d: NodeId, i: NodeId)
    requires Trap(v, z) && (d, i) in v.asks
    ensures i in z.lost ==> d in z.lost
    ensures i in z.lost && d !in z.core ==> i in z.walk && d in z.walk
    ensures i !in z.walk && d !in z.core ==> d in z.open && i in z.open && d !in z.walk
    ensures i !in z.walk ==> d in z.open
    ensures d !in z.lost ==> i !in z.lost && d in z.open && i in z.open
    ensures d in z.open && d !in z.core ==> i in z.open
    ensures d !in v.full ==> d !in z.core
  {}

  /** At most the node `n` was redirected. */
  predicate Redirected(v: View, v': View, n: NodeId) {
    && v'.next.Keys == v.next.Keys && v'.own.Keys == v.own.Keys && n in v.next && n in v.own
    && (forall k {:trigger v'.next[k]} :: k in v.next && k != n ==> v'.next[k] == v.next[k])
    && (forall k {:trigger v'.own[k]} :: k in v.own && k != n ==> v'.own[k] == v.own[k])
  }

  lemma FewerRequests(v: View, v': View, z: Zone)
    requires RequestsInside(v, z) && v'.listed <= v.listed && v'.asks <= v.asks
    requires forall n :: n in z.lost && n in v.pending ==> n in v'.pending
    ensures RequestsInside(v', z)
  {}

  lemma PathsElsewhere(v: View, v': View, z: Zone, n: NodeId)
    requires Redirected(v, v', n) && PathsInside(v, z) && n !in z.walk && n !in z.core
    requires forall k :: k in z.walk && k in v.pending ==> k in v'.pending
    ensures PathsInside(v', z)
  {}

  /** An open node outside the zone now names the open node `x`, or itself. */
  lemma OutsideRedirected(v: View, v': View, z: Zone, n: NodeId, x: NodeId)
    requires Redirected(v, v', n) && ClosedOutside(v, z)
    requires v'.listed <= v.listed && v'.asks <= v.asks
    requires v'.pending == v.pending || (v'.pending == v.pending - {n} && x == n)
    requires v'.own[n] == x && (v'.next[n] == x || v'.next[n] == v.next[n])
    requires x == n || (n in z.open && x in z.open)
    ensures ClosedOutside(v', z)
  {}

  function TakenInto(v: View, d: NodeId, i: NodeId): View
    requires d in v.next
  {
    v.(asks := v.asks - {(d, i)}, listed := v.listed + {(i, d)}, full := v.full + {d},
       next := v.next[d := if d in v.full then v.next[d] else i])
  }

  lemma TakingInKeepsTrap(v: View, z: Zone, d: NodeId, i: NodeId)
    requires Trap(v, z) && (d, i) in v.asks
    ensures Trap(TakenInto(v, d, i), z)
  {
    hide RequestsInside, PathsInside, ClosedOutside;
    var v' := TakenInto(v, d, i);
    TravellerFacts(v, z, d, i);
    assert Proper(v') && Bounds(v', z);
    assert RequestsInside(v', z) by { TakenRequests(v, v', z, d, i); }
    assert PathsInside(v', z) by { PathsRedirected(v, v', z, d, i); }
    assert ClosedOutside(v', z) by { TakenOutside(v, v', z, d, i); }
  }

  lemma TakenRequests(v: View, v': View, z: Zone, d: NodeId, i: NodeId)
    requires RequestsInside(v, z) && v'.listed == v.listed + {(i, d)} && v'.asks <= v.asks && v'.pending == v.pending
    requires i in z.lost ==> d in z.lost
    ensures RequestsInside(v', z)
  {}

  /** A node of the walk is redirected only to a node of the walk, a node of the core never. */
  lemma PathsRedirected(v: View, v': View, z: Zone, d: NodeId, i: NodeId)
    requires Redirected(v, v', d) && PathsInside(v, z)
    requires (v'.next[d] == v.next[d] && v'.own[d] == v.own[d]) || (v'.next[d] == i && (v'.own[d] == v.own[d] || v'.own[d] == i) && d !in z.core)
    requires d !in z.core && d in z.walk ==> i in z.walk
    requires v'.pending == v.pending
    ensures PathsInside(v', z)
  {}

  lemma TakenOutside(v: View, v': View, z: Zone, d: NodeId, i: NodeId)
    requires Redirected(v, v', d) && ClosedOutside(v, z)
    requires v'.own == v.own && v'.pending == v.pending && v'.asks <= v.asks && v'.listed == v.listed + {(i, d)}
    requires v'.next[d] == v.next[d] || (v'.next[d] == i && (d in z.open ==> i in z.open))
    requires d !in z.lost ==> d in z.open && i in z.open
    ensures ClosedOutside(v', z)
  {}

  function Forwarded(v: View, d: NodeId, i: NodeId): View
    requires d in v.next
  {
    var sent := v.(asks := v.asks - {(d, i)} + {(v.next[d], i)});
    if d in v.full then sent else sent.(next := v.next[d := i], own := v.own[d := i])
  }

  lemma ForwardKeepsTrap(v: View, z: Zone, d: NodeId, i: NodeId)
    requires Trap(v, z) && (d, i) in v.asks && v.next[d] in v.nodes && i in v.pending
    ensures Trap(Forwarded(v, d, i), z)
  {
    hide RequestsInside, PathsInside, ClosedOutside;
    var v' := Forwarded(v, d, i);
    TravellerFacts(v, z, d, i);
    NextFacts(v, z, d);
    assert Proper(v') && Bounds(v', z);
    assert RequestsInside(v', z) by { ForwardedRequests(v, v', z, d, v.next[d], i); }
    assert PathsInside(v', z) by { PathsRedirected(v, v', z, d, i); }
    assert ClosedOutside(v', z) by { ForwardedOutside(v, v', z, d, v.next[d], i); }
  }

  lemma NextFacts(v: View, z: Zone, d: NodeId)
    requires Trap(v, z) && d in v.nodes
    ensures d in z.core ==> v.next[d] in z.core
    ensures d in z.walk ==> v.next[d] in z.walk + z.core
    ensures d in z.open ==> v.next[d] in z.open
  {}

  lemma ForwardedRequests(v: View, v': View, z: Zone, d: NodeId, f: NodeId, i: NodeId)
    requires RequestsInside(v, z) && v'.listed == v.listed && v'.asks == v.asks - {(d, i)} + {(f, i)} && v'.pending == v.pending
    requires i in z.lost ==> f in z.core || (i in z.walk && f in z.walk)
    ensures RequestsInside(v', z)
  {}

  lemma ForwardedOutside(v: View, v': View, z: Zone, d: NodeId, f: NodeId, i: NodeId)
    requires Redirected(v, v', d) && ClosedOutside(v, z)
    requires (v'.next[d] == v.next[d] && v'.own[d] == v.own[d]) || (v'.next[d] == v'.own[d] == i && (d in z.open || d !in z.walk ==> d in z.open && i in z.open))
    requires v'.pending == v.pending && v'.listed == v.listed && v'.asks == v.asks - {(d, i)} + {(f, i)}
    requires i !in z.walk ==> f in z.open && (f in z.core || i in z.open)
    ensures ClosedOutside(v', z)
  {}

  function Answered(v: View, d: NodeId, i: NodeId): View {
    v.(asks := v.asks - {(d, i)}, next := v.next[d := i], own := v.own[d := i], token := {i})
  }

  lemma AnswerKeepsTrap(v: View, z: Zone, d: NodeId, i: NodeId)
    requires Trap(v, z) && (d, i) in v.asks && v.token == {d}
    ensures Trap(Answered(v, d, i), z)
  {
    hide RequestsInside, PathsInside, ClosedOutside;
    var v' := Answered(v, d, i);
    assert d !in z.lost;
    TravellerFacts(v, z, d, i);
    assert Proper(v') && Bounds(v', z);
    assert RequestsInside(v', z) by { FewerRequests(v, v', z); }
    assert PathsInside(v', z) by { PathsElsewhere(v, v', z, d); }
    assert ClosedOutside(v', z) by { OutsideRedirected(v, v', z, d, i); }
  }

  function Arrived(v: View, d: NodeId): View
    requires d in v.next
  {
    v.(own := v.own[d := d], next := v.next[d := if d in v.full then v.next[d] else d], pending := v.pending - {d})
  }

  lemma ArrivalKeepsTrap(v: View, z: Zone, d: NodeId)
    requires Trap(v, z) && v.token == {d} && d in v.nodes
    ensures Trap(Arrived(v, d), z)
  {
    hide RequestsInside, PathsInside, ClosedOutside;
    var v' := Arrived(v, d);
    assert d !in z.lost;
    assert Proper(v') && Bounds(v', z);
    assert RequestsInside(v', z) by { FewerRequests(v, v', z); }
    assert PathsInside(v', z) by { PathsElsewhere(v, v', z, d); }
    assert ClosedOutside(v', z) by { OutsideRedirected(v, v', z, d, d); }
  }
}
