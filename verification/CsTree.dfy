/**
 The father links together with the travelling requests always form a spanning tree.
 */
module CsTree {
  import opened Nodes
  import opened NaimiTrehel
  import opened CsMachine
  import opened CsToken
  import opened SpanningTree

  ghost function Edges(s: State): (E: set<Edge>)
    ensures forall a, b :: Link(a, b) in E <==> a in s.sites && s.sites[a].father == b && b != EmptyNode
    ensures forall a, b :: Flight(a, b) in E <==> RequestCs(b, a) in s.net
  {
    var E := (set n | n in s.sites && s.sites[n].father != EmptyNode :: Link(n, s.sites[n].father))
             + (set p | p in s.net && p.RequestCs? :: Flight(p.requester, p.dst));
    assert forall a, b :: RequestCs(b, a) in s.net ==> RequestCs(b, a).requester == a && Flight(a, b) in E;
    E
  }

  ghost predicate TreeInv(s: State) {
    Tree(s.sites.Keys, Edges(s))
  }

  /** A node with a father starts waiting: its link becomes its travelling request. */
  lemma EnterRelabels(s: State, n: NodeId)
    requires n in s.sites && !s.sites[n].token && s.sites[n].father != EmptyNode
    ensures var f := s.sites[n].father;
      Link(n, f) in Edges(s) && Edges(DoEnter(s, n)) == Edges(s) - {Link(n, f)} + {Flight(n, f)}
    ensures DoEnter(s, n).sites.Keys == s.sites.Keys
  {
    var s', f := DoEnter(s, n), s.sites[n].father;
    assert s'.net == s.net + multiset{RequestCs(f, n)};
    forall e ensures e in Edges(s') <==> e in Edges(s) - {Link(n, f)} + {Flight(n, f)} {
      match e
      case Link(a, b) =>
      case Flight(a, b) => assert RequestCs(b, a) in s'.net <==> RequestCs(b, a) in s.net || (a == n && b == f);
    }
  }

  /** The request of `r` to `d` becomes the link of `d`. */
  lemma FlightBecomesLink(s: State, s': State, d: NodeId, r: NodeId)
    requires d in s.sites && s.sites[d].father == EmptyNode && r != EmptyNode && RequestCs(d, r) in s.net
    requires s'.sites.Keys == s.sites.Keys && s'.sites[d].father == r
    requires forall n :: n in s.sites && n != d ==> s'.sites[n].father == s.sites[n].father
    requires forall a, b :: RequestCs(b, a) in s'.net <==> RequestCs(b, a) in s.net && !(a == r && b == d)
    ensures Edges(s') == Edges(s) - {Flight(r, d)} + {Link(d, r)}
  {
    forall e ensures e in Edges(s') <==> e in Edges(s) - {Flight(r, d)} + {Link(d, r)} {
      match e
      case Link(a, b) =>
      case Flight(a, b) => assert RequestCs(b, a) in s'.net <==> RequestCs(b, a) in s.net && !(a == r && b == d);
    }
  }

  /** A node without father answers a request. */
  lemma AcceptRelabels(s: State, d: NodeId, r: NodeId)
    requires d in s.sites && s.sites[d].father == EmptyNode && !s.sites[d].leaving && r != EmptyNode
    requires s.net[RequestCs(d, r)] == 1
    ensures Flight(r, d) in Edges(s) && Edges(DoRequest(s, d, r)) == Edges(s) - {Flight(r, d)} + {Link(d, r)}
    ensures DoRequest(s, d, r).sites.Keys == s.sites.Keys
  {
    var s' := DoRequest(s, d, r);
    var rest := s.net - multiset{RequestCs(d, r)};
    assert s'.net == if s.sites[d].requesting then rest else rest + multiset{GetCs(r)};
    FlightBecomesLink(s, s', d, r);
  }

  /** The request of `r` moves on from `d` to `f`, and `d` points at `r` instead of `f`. */
  lemma FlightMovesOn(s: State, s': State, d: NodeId, r: NodeId, f: NodeId)
    requires d in s.sites && s.sites[d].father == f && f != EmptyNode && f != d && r != EmptyNode
    requires RequestCs(d, r) in s.net && s'.sites.Keys == s.sites.Keys && s'.sites[d].father == r
    requires forall n :: n in s.sites && n != d ==> s'.sites[n].father == s.sites[n].father
    requires forall a, b :: RequestCs(b, a) in s'.net <==>
      (a == r && b == f) || (RequestCs(b, a) in s.net && !(a == r && b == d))
    ensures Edges(s') == Rotated(Edges(s), r, d, f)
  {
    forall e ensures e in Edges(s') <==> e in Rotated(Edges(s), r, d, f) {
      match e
      case Link(a, b) =>
      case Flight(a, b) =>
        assert RequestCs(b, a) in s'.net <==> (a == r && b == f) || (RequestCs(b, a) in s.net && !(a == r && b == d));
    }
  }

  /** A node with a father forwards a request: one rotation. */
  lemma ForwardRotates(s: State, d: NodeId, r: NodeId)
    requires d in s.sites && s.sites[d].father != EmptyNode && !s.sites[d].leaving && r != EmptyNode
    requires s.net[RequestCs(d, r)] == 1 && s.sites[d].father != d
    ensures var f := s.sites[d].father;
      && Flight(r, d) in Edges(s) && Link(d, f) in Edges(s)
      && Edges(DoRequest(s, d, r)) == Rotated(Edges(s), r, d, f)
    ensures DoRequest(s, d, r).sites.Keys == s.sites.Keys
  {
    var s', f := DoRequest(s, d, r), s.sites[d].father;
    assert s'.net == s.net - multiset{RequestCs(d, r)} + multiset{RequestCs(f, r)};
    FlightMovesOn(s, s', d, r, f);
  }

  /** A step that moves no father and no request. */
  lemma EdgesKept(s: State, s': State)
    requires s'.sites.Keys == s.sites.Keys
    requires forall n :: n in s.sites ==> s'.sites[n].father == s.sites[n].father
    requires forall d, r :: RequestCs(d, r) in s'.net <==> RequestCs(d, r) in s.net
    ensures Edges(s') == Edges(s)
  {
    forall e ensures e in Edges(s') <==> e in Edges(s) {
      match e
      case Link(a, b) =>
      case Flight(a, b) => assert RequestCs(b, a) in s'.net <==> RequestCs(b, a) in s.net;
    }
  }

  lemma JoinGrows(s: State, n: NodeId, c: NodeId)
    requires n !in s.sites && c in s.sites && c != EmptyNode
    ensures Edges(DoJoin(s, n, c)) == Edges(s) + {Link(n, c)}
    ensures DoJoin(s, n, c).sites.Keys == s.sites.Keys + {n}
  {
    var s' := DoJoin(s, n, c);
    forall e ensures e in Edges(s') <==> e in Edges(s) + {Link(n, c)} {
      match e
      case Link(a, b) =>
      case Flight(a, b) => assert RequestCs(b, a) in s'.net <==> RequestCs(b, a) in s.net;
    }
  }

  // --- Preservation.

  lemma NoSelfFather(s: State, d: NodeId)
    requires TreeInv(s) && d in s.sites && s.sites[d].father != EmptyNode
    ensures s.sites[d].father != d
  {
    var e := Link(d, s.sites[d].father);
    assert e in Edges(s);
    var S := Side(s.sites.Keys, Edges(s), e);
  }

  lemma EnterKeepsTree(s: State, a: Account, n: NodeId)
    requires CoreInv(s, a) && TreeInv(s) && Enabled(s, CallEnter(n))
    ensures TreeInv(DoEnter(s, n))
  {
    assert LocalOk(s.sites[n]);
    if s.sites[n].token {
      EdgesKept(s, DoEnter(s, n));
    } else {
      var f := s.sites[n].father;
      EnterRelabels(s, n);
      Relabel(s.sites.Keys, Edges(s), Link(n, f), Flight(n, f));
    }
  }

  lemma RequestKeepsTree(s: State, a: Account, d: NodeId, r: NodeId)
    requires CoreInv(s, a) && TreeInv(s) && Enabled(s, DeliverRequest(d, r))
    ensures TreeInv(DoRequest(s, d, r))
  {
    assert LocalOk(s.sites[d]) && PacketOk(s, RequestCs(d, r));
    if s.sites[d].father == EmptyNode {
      AcceptRelabels(s, d, r);
      Relabel(s.sites.Keys, Edges(s), Flight(r, d), Link(d, r));
    } else {
      NoSelfFather(s, d);
      ForwardRotates(s, d, r);
      Rotate(s.sites.Keys, Edges(s), r, d, s.sites[d].father);
    }
  }

  lemma JoinKeepsTree(s: State, n: NodeId, c: NodeId)
    requires TreeInv(s) && n !in s.sites && c in s.sites && c != EmptyNode
    ensures TreeInv(DoJoin(s, n, c))
  {
    JoinGrows(s, n, c);
    Grow(s.sites.Keys, Edges(s), n, c);
  }

  // --- Consequences.

  /** The node reached by following `father` `k` times, or EmptyNode once the chain has ended. */
  ghost function Ancestor(s: State, n: NodeId, k: nat): NodeId
    decreases k
  {
    if k == 0 || n !in s.sites then n
    else Ancestor(s, s.sites[n].father, k - 1)
  }

  /** A chain of fathers that starts on the side a link points to never leaves it. */
  lemma {:induction false} AncestorStays(s: State, n: NodeId, f: NodeId, S: set<NodeId>, m: NodeId, k: nat)
    requires Bridges(Edges(s), Link(n, f), S) && m in S && EmptyNode !in s.sites
    ensures Ancestor(s, m, k) in S || Ancestor(s, m, k) == EmptyNode
    decreases k
  {
    if k > 0 && m in s.sites {
      var g := s.sites[m].father;
      if g == EmptyNode {
        assert Ancestor(s, g, k - 1) == EmptyNode;
      } else {
        assert Link(m, g) in Edges(s) && !Crosses(Link(m, g), S);
        AncestorStays(s, n, f, S, g, k - 1);
      }
    }
  }

  /** The cut of a father link. */
  lemma LinkCut(s: State, n: NodeId) returns (S: set<NodeId>)
    requires TreeInv(s) && n in s.sites && s.sites[n].father != EmptyNode
    ensures S <= s.sites.Keys && Bridges(Edges(s), Link(n, s.sites[n].father), S)
  {
    assert Link(n, s.sites[n].father) in Edges(s);
    S := Side(s.sites.Keys, Edges(s), Link(n, s.sites[n].father));
  }

  lemma AncestorOfNobody(s: State, k: nat)
    requires EmptyNode !in s.sites
    ensures Ancestor(s, EmptyNode, k) == EmptyNode
  {
  }

  /** Father chains never cycle. */
  lemma FathersNeverCycle(s: State, n: NodeId, k: nat)
    requires TreeInv(s) && EmptyNode !in s.sites && n in s.sites && k > 0
    ensures Ancestor(s, n, k) != n
  {
    var f := s.sites[n].father;
    if f == EmptyNode {
      AncestorOfNobody(s, k - 1);
    } else {
      var S := LinkCut(s, n);
      AncestorStays(s, n, f, S, f, k - 1);
    }
  }

  /** No request is ever on its way to its own requester. */
  lemma NoRequestComesHome(s: State, d: NodeId, r: NodeId)
    requires TreeInv(s) && RequestCs(d, r) in s.net
    ensures d != r
  {
    assert Flight(r, d) in Edges(s);
    var S := Side(s.sites.Keys, Edges(s), Flight(r, d));
  }
}
