/**
 What the protocol guarantees in every state that a run can reach.
 */
module CsTheorems {
  import opened Nodes
  import opened NaimiTrehel
  import opened CsMachine
  import opened CsToken
  import opened SpanningTree
  import opened CsTree
  import opened QueueOrder
  import opened CsQueue
  import opened CsSoundness

  /** `s` is the end of a run of the system that the node `first` created. */
  ghost predicate Reachable(s: State) {
    exists first, es :: first != EmptyNode && IsRun(Init(first), es) && s == After(Init(first), es)
  }

  lemma ReachableInv(s: State)
    requires Reachable(s)
    ensures Inv(s)
  {
    hide Inv;
    var first, es :| first != EmptyNode && IsRun(Init(first), es) && s == After(Init(first), es);
    InitInv(first);
    RunKeepsInv(Init(first), es);
  }

  // --- Mutual exclusion.

  /** The nodes that hold the token, and those it is travelling to. */
  ghost function Holders(s: State): set<NodeId> {
    set n | n in s.sites && s.sites[n].token
  }

  ghost function Receivers(s: State): set<NodeId> {
    set p | p in s.net && p.GetCs? :: p.dst
  }

  predicate InCriticalSection(s: State, n: NodeId) {
    n in s.sites && s.sites[n].users > 0
  }

  lemma TokenCount(s: State, a: Account)
    requires CoreInv(s, a)
    ensures |Holders(s)| + |Receivers(s)| == 1
    ensures forall p :: p in s.net && p.GetCs? ==> s.net[p] == 1
  {
    var n := a.place.n;
    assert TokenAt(s, a.place);
    forall m ensures m in Holders(s) <==> a.place == Held(m) { assert TokenAt(s, Held(m)) <==> a.place == Held(m); }
    forall m ensures m in Receivers(s) <==> a.place == Moving(m) {
      assert TokenAt(s, Moving(m)) <==> a.place == Moving(m);
      if GetCs(m) in s.net { assert GetCs(m).dst in Receivers(s); }
    }
    if a.place.Held? {
      assert Holders(s) == {n} && Receivers(s) == {};
    } else {
      assert Holders(s) == {} && Receivers(s) == {n};
    }
    forall p | p in s.net && p.GetCs? ensures s.net[p] == 1 { assert PacketOk(s, p); }
  }

  /** One token among the nodes that know the root, and its holder alone in the critical section. */
  ghost predicate Exclusive(s: State) {
    && (s.sites.Keys != {} ==> |Holders(s)| + |Receivers(s)| == 1)
    && (forall n :: InCriticalSection(s, n) ==> s.sites[n].token)
    && (forall n, m :: InCriticalSection(s, n) && InCriticalSection(s, m) ==> n == m)
    && (forall n :: n in s.stale ==> s.stale[n].users == 0 && !s.stale[n].token)
  }

  lemma InvIsExclusive(s: State)
    requires Inv(s)
    ensures Exclusive(s)
  {
    hide TreeInv, QueueInv;
    if Rooted(s) {
      var b :| Sound(s, b);
      TokenCount(s, b.account);
      forall n | InCriticalSection(s, n) ensures s.sites[n].token && b.account.place == Held(n) {
        assert LocalOk(s.sites[n]) && TokenAt(s, Held(n));
      }
    }
  }

  /** There is exactly one token among the nodes that know the root, held or travelling, and at
      most one node is in the critical section. While a departure is being announced there is none. */
  lemma MutualExclusion(s: State)
    requires Reachable(s)
    ensures s.sites.Keys != {} ==> |Holders(s)| + |Receivers(s)| == 1
    ensures forall n :: InCriticalSection(s, n) ==> s.sites[n].token
    ensures forall n, m :: InCriticalSection(s, n) && InCriticalSection(s, m) ==> n == m
    ensures forall n :: n in s.stale ==> s.stale[n].users == 0 && !s.stale[n].token
  {
    hide Inv, Reachable, Holders, Receivers;
    ReachableInv(s);
    InvIsExclusive(s);
  }

  // --- Claims.

  /** Every reason why `n` will get the token. */
  ghost function ClaimSet(s: State, n: NodeId): set<Claim> {
    (set p | p in s.net && p.RequestCs? && p.requester == n :: Asking(p.dst))
    + (set m | m in s.sites && s.sites[m].next == n :: Queued(m))
    + (if GetCs(n) in s.net then {Granted} else {})
  }

  lemma ClaimSetIs(s: State, n: NodeId, c: Claim)
    ensures c in ClaimSet(s, n) <==> HasClaim(s, n, c)
  {
    if HasClaim(s, n, c) && c.Asking? {
      assert Asking(RequestCs(c.at, n).dst) in ClaimSet(s, n);
    }
  }

  /** A waiting node without the token has exactly one claim in the whole system, any other
      node has none, and no request or grant is duplicated. */
  lemma OneClaimEach(s: State, n: NodeId)
    requires Reachable(s) && n in s.sites
    ensures |ClaimSet(s, n)| == if Pending(s, n) then 1 else 0
    ensures forall p :: p in s.net && (p.RequestCs? || p.GetCs?) ==> s.net[p] == 1
  {
    hide IsRun, After, TreeInv, QueueInv, TokenInv;
    ReachableInv(s);
    var b :| Sound(s, b);
    forall p | p in s.net && (p.RequestCs? || p.GetCs?) ensures s.net[p] == 1 { assert PacketOk(s, p); }
    forall c ensures c in ClaimSet(s, n) <==> n in b.account.why && b.account.why[n] == c { ClaimSetIs(s, n, c); }
    if Pending(s, n) {
      assert ClaimSet(s, n) == {b.account.why[n]};
    } else {
      assert ClaimSet(s, n) == {};
    }
  }

  lemma NextChange(s: State, e: Event, n: NodeId)
    requires Enabled(s, e) && n in s.sites && n in Step(s, e).sites && LocalOk(s.sites[n])
    requires !e.DeliverNewRoot? && (e.DeliverReset? ==> e.at != n)
    requires s.sites[n].next != EmptyNode && Step(s, e).sites[n].next != s.sites[n].next
    ensures e == CallRelease(n) && s.sites[n].users == 1
  {
    hide Exchange;
    match e
    case DeliverRequest(d, r) =>
    case _ =>
  }

  lemma SitesAreLocal(s: State, n: NodeId)
    requires Reachable(s) && n in s.sites
    ensures LocalOk(s.sites[n])
  {
    hide IsRun, After, TreeInv, QueueInv, TokenInv, ClaimInv;
    ReachableInv(s);
    var b :| Sound(s, b);
  }

  /** `next` is written only when it is empty: an event of a node in the protocol that changes a
      `next` that names somebody empties it, and sends the token to that node. */
  lemma NextIsNeverOverwritten(s: State, e: Event, n: NodeId)
    requires Reachable(s) && Enabled(s, e) && n in s.sites && n in Step(s, e).sites
    requires s.sites[n].next != EmptyNode && Step(s, e).sites[n].next != s.sites[n].next
    ensures Step(s, e).sites[n].next == EmptyNode && GetCs(s.sites[n].next) in Step(s, e).net
  {
    hide Reachable, Step, LocalOk;
    SitesAreLocal(s, n);
    SitesAreNotReset(s, e, n);
    NextChange(s, e, n);
    ReleaseSendsToken(s, n);
  }

  /** The messages of a departure reach only nodes that are not in the protocol yet. */
  lemma SitesAreNotReset(s: State, e: Event, n: NodeId)
    requires Reachable(s) && Enabled(s, e) && n in s.sites
    ensures !e.DeliverNewRoot? && (e.DeliverReset? ==> e.at != n)
  {
    hide IsRun, After, Sound, ResetsDue;
    ReachableInv(s);
  }

  lemma ReleaseSendsToken(s: State, n: NodeId)
    requires n in s.sites && s.sites[n].users == 1 && s.sites[n].next != EmptyNode
    ensures var s' := Step(s, CallRelease(n)); s'.sites[n].next == EmptyNode && GetCs(s.sites[n].next) in s'.net
  {
    assert Step(s, CallRelease(n)).net == s.net + multiset{GetCs(s.sites[n].next)};
  }

  // --- The tree.

  /** The father links and the travelling requests form a spanning tree of the nodes: it has
      one edge less than there are nodes, no father chain comes back, and no request reaches the
      node that made it. */
  lemma AlwaysASpanningTree(s: State)
    requires Reachable(s) && s.sites.Keys != {}
    ensures Tree(s.sites.Keys, Edges(s)) && |s.sites.Keys| == |Edges(s)| + 1
    ensures forall n, k: nat :: n in s.sites && k > 0 ==> Ancestor(s, n, k) != n
    ensures forall d, r :: RequestCs(d, r) in s.net ==> d != r
  {
    hide IsRun, After, Tree, QueueInv, TokenInv, ClaimInv, Edges;
    ReachableInv(s);
    var b :| Sound(s, b);
    EdgeCount(s.sites.Keys, Edges(s));
    forall n, k: nat | n in s.sites && k > 0 ensures Ancestor(s, n, k) != n { FathersNeverCycle(s, n, k); }
    forall d, r | RequestCs(d, r) in s.net ensures d != r { NoRequestComesHome(s, d, r); }
  }

  // --- The queue.

  /** The node reached by following `next` `k` times, or EmptyNode once the chain has ended. */
  ghost function Successor(s: State, n: NodeId, k: nat): NodeId
    decreases k
  {
    if k == 0 || n !in s.sites then n else Successor(s, s.sites[n].next, k - 1)
  }

  lemma {:induction false} SuccessorIsBehind(s: State, o: Order, n: NodeId, k: nat)
    requires QueueInv(s, o) && WellFormed(s) && n in s.sites && k > 0 && Successor(s, n, k) != EmptyNode
    ensures n in Ahead(o, Successor(s, n, k))
    ensures Ahead(o, n) <= Ahead(o, Successor(s, n, k))
    decreases k
  {
    hide Partial, MemberRule, LinkRule, RootRule, FlightRule, SelfRule, TokenRule;
    var x := s.sites[n].next;
    assert Successor(s, n, k) == Successor(s, x, k - 1);
    assert NamesOk(s, s.sites[n]);
    if x != EmptyNode && k > 1 {
      SuccessorIsBehind(s, o, x, k - 1);
    }
  }

  lemma NextIsInjective(s: State, a: Account, n: NodeId, m: NodeId)
    requires ClaimInv(s, a) && n in s.sites && m in s.sites
    requires s.sites[n].next == s.sites[m].next != EmptyNode
    ensures n == m
  {
    assert HasClaim(s, s.sites[n].next, Queued(n)) && HasClaim(s, s.sites[n].next, Queued(m));
  }

  lemma NextNeverCycles(s: State, o: Order, n: NodeId, k: nat)
    requires QueueInv(s, o) && WellFormed(s) && n in s.sites && k > 0
    ensures Successor(s, n, k) != n
  {
    hide WellFormed, MemberRule, LinkRule, RootRule, NextRule, FlightRule, SelfRule, TokenRule;
    assert n !in o.ahead[n];
    if Successor(s, n, k) != EmptyNode {
      SuccessorIsBehind(s, o, n, k);
    } else {
      assert n != EmptyNode by { NamesExist(s, n); }
    }
  }

  lemma NamesExist(s: State, n: NodeId)
    requires WellFormed(s) && n in s.sites
    ensures n != EmptyNode
  {
  }

  /** The chains of `next` are disjoint and never come back. */
  lemma QueuesAreChains(s: State)
    requires Reachable(s)
    ensures forall n, m :: n in s.sites && m in s.sites && s.sites[n].next == s.sites[m].next != EmptyNode ==> n == m
    ensures forall n, k: nat :: n in s.sites && k > 0 ==> Successor(s, n, k) != n
  {
    hide IsRun, After, TreeInv, TokenInv, ClaimInv, QueueInv, WellFormed;
    ReachableInv(s);
    if Rooted(s) {
      var b :| Sound(s, b);
      forall n, m | n in s.sites && m in s.sites && s.sites[n].next == s.sites[m].next != EmptyNode ensures n == m {
        NextIsInjective(s, b.account, n, m);
      }
      forall n, k: nat | n in s.sites && k > 0 ensures Successor(s, n, k) != n {
        NextNeverCycles(s, b.order, n, k);
      }
    }
  }

  /** `q` follows `next` from its first node to a node without `next`. */
  ghost predicate FollowsNext(s: State, q: seq<NodeId>) {
    && q != [] && (forall i :: 0 <= i < |q| ==> q[i] in s.sites)
    && (forall i :: 0 <= i < |q| - 1 ==> s.sites[q[i]].next == q[i + 1])
    && s.sites[q[|q| - 1]].next == EmptyNode
  }

  /** One step along the queue: there is one node more ahead. */
  lemma NextIsDeeper(s: State, o: Order, n: NodeId)
    requires QueueInv(s, o) && WellFormed(s) && n in s.sites && s.sites[n].next != EmptyNode
    ensures var x := s.sites[n].next;
      && x in s.sites && Ahead(o, x) == Ahead(o, n) + {n}
      && |Ahead(o, n)| < |Ahead(o, x)| <= |s.sites.Keys|
  {
    hide MemberRule, LinkRule, RootRule, FlightRule, SelfRule, TokenRule;
    var x := s.sites[n].next;
    assert NamesOk(s, s.sites[n]);
    assert n !in o.ahead[n] && Down(o, o.ahead[x]);
    SubsetSize(Ahead(o, x), s.sites.Keys);
  }

  /** The chain of `next` from `n`, in the order of the queue. */
  lemma {:induction false} QueueFrom(s: State, o: Order, n: NodeId) returns (q: seq<NodeId>)
    requires QueueInv(s, o) && WellFormed(s) && n in s.sites
    ensures FollowsNext(s, q) && q[0] == n
    ensures forall i :: 0 <= i < |q| ==> Ahead(o, n) <= Ahead(o, q[i])
    ensures forall i, j :: 0 <= i < j < |q| ==> q[i] in Ahead(o, q[j])
    decreases |s.sites.Keys| - |Ahead(o, n)|
  {
    hide QueueInv, WellFormed, FollowsNext, Ahead;
    if s.sites[n].next == EmptyNode {
      q := [n];
      assert FollowsNext(s, q) by { EndOfQueue(s, n); }
    } else {
      var x := s.sites[n].next;
      NextIsDeeper(s, o, n);
      var rest := QueueFrom(s, o, x);
      q := [n] + rest;
      OneBefore(s, o, n, rest);
    }
  }

  lemma EndOfQueue(s: State, n: NodeId)
    requires n in s.sites && s.sites[n].next == EmptyNode
    ensures FollowsNext(s, [n])
  {}

  lemma OneBefore(s: State, o: Order, n: NodeId, rest: seq<NodeId>)
    requires n in s.sites && FollowsNext(s, rest) && rest[0] == s.sites[n].next
    requires Ahead(o, rest[0]) == Ahead(o, n) + {n}
    requires forall i :: 0 <= i < |rest| ==> Ahead(o, rest[0]) <= Ahead(o, rest[i])
    requires forall i, j :: 0 <= i < j < |rest| ==> rest[i] in Ahead(o, rest[j])
    ensures var q := [n] + rest;
      && FollowsNext(s, q)
      && (forall i :: 0 <= i < |q| ==> Ahead(o, n) <= Ahead(o, q[i]))
      && (forall i, j :: 0 <= i < j < |q| ==> q[i] in Ahead(o, q[j]))
  {
    hide Ahead;
    var q := [n] + rest;
    assert forall i :: 0 < i < |q| ==> q[i] == rest[i - 1];
    forall i, j | 0 <= i < j < |q| ensures q[i] in Ahead(o, q[j]) {
      assert n in Ahead(o, rest[0]) && Ahead(o, rest[0]) <= Ahead(o, q[j]);
    }
  }

  lemma SubsetSize(S: set<NodeId>, T: set<NodeId>)
    requires S <= T
    ensures |S| <= |T|
  {
    assert T == S + (T - S);
  }

  /** With no request travelling, every requesting node is in the queue of the token. */
  lemma {:induction false} QueueReaches(s: State, b: Books, h: NodeId, q: seq<NodeId>, x: NodeId)
    requires Sound(s, b) && NoRequestInFlight(s) && b.account.place.n == h
    requires FollowsNext(s, q) && q[0] == h && Requesting(s, x)
    ensures x in q
    decreases |Ahead(b.order, x)|
  {
    hide TreeInv, QueueInv;
    var a, o := b.account, b.order;
    assert LocalOk(s.sites[x]);
    if s.sites[x].token {
      assert TokenAt(s, Held(x));
    } else {
      assert Pending(s, x) && x != EmptyNode;
      assert forall d :: RequestCs(d, x) !in s.net;
      assert HasClaim(s, x, a.why[x]);
      match a.why[x]
      case Granted => assert TokenAt(s, Moving(x));
      case Queued(m) =>
        assert LocalOk(s.sites[m]) && Requesting(s, m);
        NextIsDeeper(s, o, m);
        QueueReaches(s, b, h, q, m);
        var i :| 0 <= i < |q| && q[i] == m;
        assert i < |q| - 1 && q[i + 1] == x;
      case Asking(_) =>
    }
  }

  /** `q` is the queue that starts at `h`: following `next` it lists every requesting node exactly
      once, and behind `h` nobody else. */
  ghost predicate IsQueue(s: State, h: NodeId, q: seq<NodeId>) {
    && FollowsNext(s, q) && q[0] == h
    && (forall i, j :: 0 <= i < j < |q| ==> q[i] != q[j])
    && (forall x :: Requesting(s, x) ==> x in q)
    && (forall x :: x in q && x != h ==> Requesting(s, x))
  }

  lemma QueueOf(s: State) returns (h: NodeId, q: seq<NodeId>)
    requires Inv(s) && s.sites.Keys != {} && NoRequestInFlight(s)
    ensures h in Holders(s) + Receivers(s) && IsQueue(s, h, q)
  {
    hide TreeInv, QueueInv, ClaimInv;
    var b :| Sound(s, b);
    h := b.account.place.n;
    PlaceIsNode(s, b.account);
    q := QueueFrom(s, b.order, h);
    forall i, j | 0 <= i < j < |q| ensures q[i] != q[j] { NotAheadOfSelf(s, b.order, q[j]); }
    forall x | Requesting(s, x) ensures x in q { QueueReaches(s, b, h, q, x); }
    forall x | x in q && x != h ensures Requesting(s, x) {
      var i :| 0 <= i < |q| && q[i] == x;
      assert s.sites[q[i - 1]].next == x;
      NextIsRequesting(s, b.account, q[i - 1]);
    }
  }

  /** Distributed queue: once no request is travelling, following `next` from the node that
      holds the token, or that it is travelling to, lists every requesting node exactly once. */
  lemma TokenQueue(s: State) returns (h: NodeId, q: seq<NodeId>)
    requires Reachable(s) && s.sites.Keys != {} && NoRequestInFlight(s)
    ensures h in Holders(s) + Receivers(s)
    ensures FollowsNext(s, q) && q[0] == h
    ensures forall i, j :: 0 <= i < j < |q| ==> q[i] != q[j]
    ensures forall x :: Requesting(s, x) ==> x in q
    ensures forall x :: x in q && x != h ==> Requesting(s, x)
  {
    hide Inv, Reachable, Holders, Receivers, FollowsNext;
    ReachableInv(s);
    h, q := QueueOf(s);
  }

  lemma PlaceIsNode(s: State, a: Account)
    requires CoreInv(s, a)
    ensures a.place.n in s.sites && a.place.n in Holders(s) + Receivers(s)
  {
    var n := a.place.n;
    assert TokenAt(s, a.place);
    if a.place.Moving? { assert PacketOk(s, GetCs(n)) && GetCs(n).dst in Receivers(s); }
  }

  lemma NotAheadOfSelf(s: State, o: Order, n: NodeId)
    requires QueueInv(s, o)
    ensures n !in Ahead(o, n)
  {
  }

  lemma NextIsRequesting(s: State, a: Account, n: NodeId)
    requires CoreInv(s, a) && n in s.sites && s.sites[n].next != EmptyNode
    ensures Requesting(s, s.sites[n].next)
  {
    var x := s.sites[n].next;
    assert HasClaim(s, x, Queued(n)) && Pending(s, x) && LocalOk(s.sites[x]);
  }
}
