/**
 Spanning trees, stated through cuts: a graph on `V` is a tree when every cut of `V` is
 crossed by an edge and every edge is the only one to cross some cut. A cut is named by the
 set of nodes on the side an edge points to.
 */
module SpanningTree {
  import opened Nodes

  /** A father link, or the request of `from` travelling to `to`. */
  datatype Edge = Link(from: NodeId, to: NodeId) | Flight(from: NodeId, to: NodeId)

  predicate Crosses(e: Edge, S: set<NodeId>) {
    (e.from in S) != (e.to in S)
  }

  /** Of all the edges only `e` crosses the cut `S`, and it points into `S`. */
  ghost predicate Bridges(E: set<Edge>, e: Edge, S: set<NodeId>) {
    && e.to in S && e.from !in S
    && (forall x :: x in E && x != e ==> !Crosses(x, S))
  }

  ghost predicate IsBridge(V: set<NodeId>, E: set<Edge>, e: Edge) {
    exists S :: S <= V && Bridges(E, e, S)
  }

  predicate EndsIn(V: set<NodeId>, e: Edge) {
    e.from in V && e.to in V
  }

  ghost predicate Connected(V: set<NodeId>, E: set<Edge>) {
    forall S :: {} < S < V ==> exists e :: e in E && Crosses(e, S)
  }

  ghost predicate Tree(V: set<NodeId>, E: set<Edge>) {
    && (forall e :: e in E ==> EndsIn(V, e) && IsBridge(V, E, e))
    && Connected(V, E)
  }

  /** The two edges join the same nodes. */
  predicate SameEnds(e: Edge, e': Edge) {
    (e.from == e'.from && e.to == e'.to) || (e.from == e'.to && e.to == e'.from)
  }

  // --- Three ways to change a tree.

  lemma RelabelKeepsCut(E: set<Edge>, e: Edge, e': Edge, x: Edge, S: set<NodeId>)
    requires e in E && SameEnds(e, e') && x in E && x != e && Bridges(E, x, S)
    ensures Bridges(E - {e} + {e'}, x, S)
  {
    assert !Crosses(e, S);
  }

  lemma RelabelKeepsConnected(V: set<NodeId>, E: set<Edge>, e: Edge, e': Edge)
    requires Connected(V, E) && e in E && SameEnds(e, e')
    ensures Connected(V, E - {e} + {e'})
  {
    var E' := E - {e} + {e'};
    forall T | {} < T < V ensures exists x :: x in E' && Crosses(x, T) {
      var x :| x in E && Crosses(x, T);
      var x' := if x == e then e' else x;
      assert x' in E' && Crosses(x', T);
    }
  }

  /** Replacing an edge by another between the same nodes keeps the tree. */
  lemma Relabel(V: set<NodeId>, E: set<Edge>, e: Edge, e': Edge)
    requires Tree(V, E) && e in E && SameEnds(e, e')
    ensures Tree(V, E - {e} + {e'})
  {
    var E' := E - {e} + {e'};
    var S := Side(V, E, e);
    assert EndsIn(V, e);
    forall x | x in E' ensures EndsIn(V, x) && IsBridge(V, E', x) {
      if x == e' {
        assert Bridges(E', x, S) || Bridges(E', x, V - S);
      } else {
        RelabelKeepsCut(E, e, e', x, Side(V, E, x));
      }
    }
    RelabelKeepsConnected(V, E, e, e');
  }

  /** The edges after `d` forwarded the request of `r` to its father `f` and took `r` as father. */
  ghost function Rotated(E: set<Edge>, r: NodeId, d: NodeId, f: NodeId): set<Edge> {
    E - {Flight(r, d), Link(d, f)} + {Link(d, r), Flight(r, f)}
  }

  /** The cuts of the path `r - d - f`, turned into the cuts of the path `d - r - f`. */
  lemma RotatedCuts(V: set<NodeId>, E: set<Edge>, r: NodeId, d: NodeId, f: NodeId, S: set<NodeId>, T: set<NodeId>)
    requires forall e :: e in E ==> EndsIn(V, e)
    requires Flight(r, d) in E && Link(d, f) in E && S <= V && T <= V
    requires Bridges(E, Flight(r, d), S) && Bridges(E, Link(d, f), T)
    ensures Bridges(Rotated(E, r, d, f), Link(d, r), V - (S - T))
    ensures Bridges(Rotated(E, r, d, f), Flight(r, f), S * T)
    ensures S * T < S
  {
    assert !Crosses(Link(d, f), S);
    forall x | x in E && x != Flight(r, d) && x != Link(d, f)
      ensures !Crosses(x, V - (S - T)) && !Crosses(x, S * T)
    {
      assert !Crosses(x, S) && !Crosses(x, T) && EndsIn(V, x);
    }
  }

  /** Path reversal keeps the cut of every other edge. */
  lemma RotateKeepsCut(E: set<Edge>, r: NodeId, d: NodeId, f: NodeId, x: Edge, U: set<NodeId>)
    requires Flight(r, d) in E && Link(d, f) in E
    requires x in E && x != Flight(r, d) && x != Link(d, f) && Bridges(E, x, U)
    ensures Bridges(Rotated(E, r, d, f), x, U)
  {
    assert !Crosses(Flight(r, d), U) && !Crosses(Link(d, f), U);
  }

  lemma RotateKeepsConnected(V: set<NodeId>, E: set<Edge>, r: NodeId, d: NodeId, f: NodeId)
    requires Connected(V, E) && Flight(r, d) in E && Link(d, f) in E
    ensures Connected(V, Rotated(E, r, d, f))
  {
    var E' := Rotated(E, r, d, f);
    forall U | {} < U < V ensures exists x :: x in E' && Crosses(x, U) {
      var x :| x in E && Crosses(x, U);
      if x == Flight(r, d) || x == Link(d, f) {
        assert Link(d, r) in E' && Flight(r, f) in E';
        assert Crosses(Link(d, r), U) || Crosses(Flight(r, f), U);
      } else {
        assert x in E';
      }
    }
  }

  /** Path reversal keeps the tree. */
  lemma Rotate(V: set<NodeId>, E: set<Edge>, r: NodeId, d: NodeId, f: NodeId)
    requires Tree(V, E) && Flight(r, d) in E && Link(d, f) in E
    ensures Tree(V, Rotated(E, r, d, f))
  {
    var E' := Rotated(E, r, d, f);
    var S, T := Side(V, E, Flight(r, d)), Side(V, E, Link(d, f));
    RotatedCuts(V, E, r, d, f, S, T);
    forall x | x in E' ensures EndsIn(V, x) && IsBridge(V, E', x) {
      assert EndsIn(V, Flight(r, d)) && EndsIn(V, Link(d, f));
      if x == Link(d, r) {
        assert Bridges(E', x, V - (S - T));
      } else if x == Flight(r, f) {
        assert Bridges(E', x, S * T);
      } else {
        var U := Side(V, E, x);
        RotateKeepsCut(E, r, d, f, x, U);
      }
    }
    RotateKeepsConnected(V, E, r, d, f);
  }

  /** A new node hanging from an old one. */
  lemma Grow(V: set<NodeId>, E: set<Edge>, n: NodeId, c: NodeId)
    requires Tree(V, E) && n !in V && c in V
    ensures Tree(V + {n}, E + {Link(n, c)})
  {
    var V', E' := V + {n}, E + {Link(n, c)};
    forall x | x in E' ensures EndsIn(V', x) && IsBridge(V', E', x) {
      if x in E {
        assert IsBridge(V, E, x);
        var S :| S <= V && Bridges(E, x, S);
        var S' := if c in S then S + {n} else S;
        forall y | y in E && y != x ensures !Crosses(y, S') { assert !Crosses(y, S) && EndsIn(V, y); }
        assert Bridges(E', x, S');
      } else {
        forall y | y in E ensures !Crosses(y, V) { assert EndsIn(V, y); }
        assert Bridges(E', x, V);
      }
    }
    forall S | {} < S < V' ensures exists x :: x in E' && Crosses(x, S) {
      var S0 := S - {n};
      if {} < S0 < V {
        var x :| x in E && Crosses(x, S0);
        assert EndsIn(V, x) && Crosses(x, S);
      } else {
        assert n in S ==> S0 == {};
        assert Crosses(Link(n, c), S);
      }
    }
  }

  // --- What a tree gives.

  /** The side an edge points to is determined by the edge. */
  lemma SideIsUnique(V: set<NodeId>, E: set<Edge>, e: Edge, S: set<NodeId>, T: set<NodeId>)
    requires Tree(V, E) && e in E && S <= V && T <= V && Bridges(E, e, S) && Bridges(E, e, T)
    ensures S == T
  {
    SideIncluded(V, E, e, S, T);
    SideIncluded(V, E, e, T, S);
  }

  lemma SideIncluded(V: set<NodeId>, E: set<Edge>, e: Edge, S: set<NodeId>, T: set<NodeId>)
    requires Tree(V, E) && e in E && S <= V && T <= V && Bridges(E, e, S) && Bridges(E, e, T)
    ensures S <= T
  {
    forall x | x in E ensures !Crosses(x, S - T) {
      if x != e { assert !Crosses(x, S) && !Crosses(x, T); }
    }
    assert EndsIn(V, e) && e.to !in S - T;
    assert !({} < S - T < V);
    assert S - T == {};
    assert forall w :: w in S ==> w !in S - T;
  }

  /** The nodes an edge points towards. */
  ghost function Side(V: set<NodeId>, E: set<Edge>, e: Edge): (S: set<NodeId>)
    requires Tree(V, E) && e in E
    ensures S <= V && Bridges(E, e, S)
    ensures forall T :: T <= V && Bridges(E, e, T) ==> T == S
  {
    assert IsBridge(V, E, e);
    var S :| S <= V && Bridges(E, e, S);
    assert forall T :: T <= V && Bridges(E, e, T) ==> T == S by {
      forall T | T <= V && Bridges(E, e, T) ensures T == S { SideIsUnique(V, E, e, S, T); }
    }
    S
  }

  ghost function Crossing(E: set<Edge>, C: set<NodeId>): set<Edge> {
    set x | x in E && Crosses(x, C)
  }

  /** Exchanging the two sides of `e` in a cut takes `e` out of the edges that cross it. */
  lemma CrossOver(V: set<NodeId>, E: set<Edge>, e: Edge, C: set<NodeId>)
    requires Tree(V, E) && e in E && Crosses(e, C)
    ensures var S := Side(V, E, e); Crossing(E, (C - S) + (S - C)) == Crossing(E, C) - {e}
  {
    var S := Side(V, E, e);
    var D := (C - S) + (S - C);
    forall x | x in E ensures Crosses(x, D) <==> x != e && Crosses(x, C) {
      assert Crosses(x, S) <==> x == e;
      assert Crosses(x, D) <==> Crosses(x, C) != Crosses(x, S);
    }
  }

  /** A cut that separates two nodes is crossed by an edge that lies between them in the tree. */
  lemma {:induction false} EdgeBetween(V: set<NodeId>, E: set<Edge>, C: set<NodeId>, n: NodeId, m: NodeId) returns (e: Edge)
    requires Tree(V, E) && C <= V && n in V && m in V && (n in C) != (m in C)
    ensures e in E && Crosses(e, C) && (n in Side(V, E, e)) != (m in Side(V, E, e))
    decreases |Crossing(E, C)|
  {
    hide Tree, Side;
    assert {} < C < V;
    e := CrossedEdge(V, E, C);
    var S := Side(V, E, e);
    if (n in S) == (m in S) {
      CrossOver(V, E, e, C);
      assert e in Crossing(E, C);
      assert |Crossing(E, C) - {e}| == |Crossing(E, C)| - 1;
      e := EdgeBetween(V, E, (C - S) + (S - C), n, m);
      assert e in Crossing(E, (C - S) + (S - C));
    }
  }

  lemma CrossedEdge(V: set<NodeId>, E: set<Edge>, C: set<NodeId>) returns (e: Edge)
    requires Tree(V, E) && {} < C < V
    ensures e in E && Crosses(e, C) && Side(V, E, e) <= V
  {
    e :| e in E && Crosses(e, C);
  }

  /** The part of the graph inside `S`. */
  ghost function Inside(E: set<Edge>, S: set<NodeId>): set<Edge> {
    set x | x in E && EndsIn(S, x)
  }

  /** The part of a tree on the side an edge points to is a tree. */
  lemma SideIsTree(V: set<NodeId>, E: set<Edge>, e: Edge, S: set<NodeId>)
    requires Tree(V, E) && e in E && S <= V && (Bridges(E, e, S) || Bridges(E, e, V - S))
    ensures Tree(S, Inside(E, S))
  {
    var F := Inside(E, S);
    assert EndsIn(V, e);
    forall x | x in E && x != e ensures !Crosses(x, S) && EndsIn(V, x) {
      if Bridges(E, e, V - S) { assert !Crosses(x, V - S); }
    }
    forall x | x in F ensures IsBridge(S, F, x) {
      assert IsBridge(V, E, x);
      var T :| T <= V && Bridges(E, x, T);
      forall y | y in F && y != x ensures !Crosses(y, T * S) { assert !Crosses(y, T); }
      assert Bridges(F, x, T * S);
    }
    forall T | {} < T < S ensures exists x :: x in F && Crosses(x, T) {
      var inner := if e.to in S then e.to else e.from;
      var T' := if inner in T then T + (V - S) else T;
      assert {} < T' < V;
      var x :| x in E && Crosses(x, T');
      assert x != e;
      assert x in F && Crosses(x, T);
    }
  }

  /** A tree without edges is a single node. */
  lemma NoEdges(V: set<NodeId>, v: NodeId)
    requires Tree(V, {}) && v in V
    ensures V == {v}
  {
    assert !({} < {v} < V);
  }

  lemma ThreeParts(E: set<Edge>, F: set<Edge>, G: set<Edge>, e: Edge)
    requires E == F + G + {e} && F !! G && e !in F && e !in G
    ensures |E| == |F| + |G| + 1
  {
    assert |F + G| == |F| + |G|;
    assert E - {e} == F + G;
  }

  /** An edge splits the others into those on its two sides. */
  lemma EdgesSplit(V: set<NodeId>, E: set<Edge>, e: Edge, S: set<NodeId>)
    requires (forall x :: x in E ==> EndsIn(V, x)) && e in E && S <= V && Bridges(E, e, S)
    ensures |E| == |Inside(E, S)| + |Inside(E, V - S)| + 1
  {
    var F, G := Inside(E, S), Inside(E, V - S);
    forall x | x in E && x != e ensures x in F + G { assert !Crosses(x, S) && EndsIn(V, x); }
    assert Crosses(e, S);
    ThreeParts(E, F, G, e);
  }

  /** A tree has one edge less than it has nodes. */
  lemma {:induction false} EdgeCount(V: set<NodeId>, E: set<Edge>)
    requires Tree(V, E) && V != {}
    ensures |V| == |E| + 1
    decreases |V|
  {
    if E == {} {
      var v :| v in V;
      NoEdges(V, v);
    } else {
      var e :| e in E;
      var S := Side(V, E, e);
      var T := V - S;
      assert EndsIn(V, e) && V - T == S;
      SideIsTree(V, E, e, S);
      SideIsTree(V, E, e, T);
      assert |V| == |S| + |T| by { assert S + T == V && S !! T; }
      assert e.to in S && e.from in T;
      EdgeCount(S, Inside(E, S));
      EdgeCount(T, Inside(E, T));
      EdgesSplit(V, E, e, S);
    }
  }
}
