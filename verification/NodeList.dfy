/**
 The list of the other nodes that each node keeps, and the operations on it.
 */
module NodeList {
  import opened Nodes

  predicate NoDup(l: seq<NodeId>) {
    forall i, j :: 0 <= i < j < |l| ==> l[i] != l[j]
  }

  /** The nodes named in a list. */
  function Names(l: seq<NodeId>): set<NodeId> {
    set n | n in l
  }

  /** `remove_node` removes the first entry that names `n`. */
  function Without(l: seq<NodeId>, n: NodeId): seq<NodeId> {
    if l == [] then [] else if l[0] == n then l[1..] else [l[0]] + Without(l[1..], n)
  }

  /** The entries of `from`, added one after the other at the head. */
  function AddAll(l: seq<NodeId>, from: seq<NodeId>): seq<NodeId>
    decreases |from|
  {
    if from == [] then l else [from[|from| - 1]] + AddAll(l, from[..|from| - 1])
  }

  lemma {:induction false} WithoutIs(l: seq<NodeId>, n: NodeId)
    requires NoDup(l)
    ensures NoDup(Without(l, n)) && Names(Without(l, n)) == Names(l) - {n}
    ensures |Without(l, n)| == if n in l then |l| - 1 else |l|
  {
    if l != [] {
      WithoutIs(l[1..], n);
      assert l == [l[0]] + l[1..];
      assert l[0] !in l[1..];
      assert Names(l) == {l[0]} + Names(l[1..]);
      if l[0] == n {
        assert Names(l[1..]) == Names(l) - {n};
      } else {
        var r := Without(l[1..], n);
        assert Without(l, n) == [l[0]] + r;
        assert l[0] !in Names(l[1..]) && l[0] !in Names(r);
        assert Names([l[0]] + r) == {l[0]} + Names(r);
        forall i, j | 0 <= i < j < |r| + 1 ensures ([l[0]] + r)[i] != ([l[0]] + r)[j] {
          assert ([l[0]] + r)[j] == r[j - 1] && r[j - 1] in Names(r);
        }
      }
    }
  }

  /** The added entries come in reverse order before the old ones. */
  lemma {:induction false} AddAllIs(l: seq<NodeId>, from: seq<NodeId>, k: nat)
    requires k < |from| + |l|
    ensures |AddAll(l, from)| == |from| + |l|
    ensures AddAll(l, from)[k] == if k < |from| then from[|from| - 1 - k] else l[k - |from|]
    decreases |from|
  {
    if from != [] {
      var last := |from| - 1;
      if k > 0 {
        AddAllIs(l, from[..last], k - 1);
      } else if last > 0 || l != [] {
        AddAllIs(l, from[..last], 0);
      }
    }
  }

  /** INFO_DSM: two counts, then the nodes and the owners of the pages without a separator. */
  datatype Info = Info(nbPages: nat, nbNodes: int, ids: seq<NodeId>)

  class MemberList {
    var list: seq<NodeId>
    var count: int
    /** `leave_all`: somebody is in `leave_last`; `signalled` is the flag of `cv2` it waits for. */
    var leaveAll: bool
    var signalled: bool

    method AddToNodes(n: NodeId)
      modifies this`list, this`count
      ensures list == [n] + old(list) && count == old(count) + 1
    {
      list := [n] + list;
      count := count + 1;
    }

    method RemoveNode(n: NodeId) returns (found: bool)
      modifies this
      ensures list == Without(old(list), n) && found == (n in old(list))
      ensures count == if found then old(count) - 1 else old(count)
      ensures leaveAll == old(leaveAll) && signalled == (old(signalled) || (found && count == 1 && leaveAll))
    {
      var i := 0;
      while i < |list|
        invariant 0 <= i <= |list| && list == old(list) && count == old(count)
        invariant leaveAll == old(leaveAll) && signalled == old(signalled)
        invariant n !in list[..i]
        decreases |list| - i
      {
        if list[i] == n {
          WithoutAt(list, n, i);
          list := list[..i] + list[i + 1..];
          count := count - 1;
          if count == 1 && leaveAll {
            signalled := true;
          }
          return true;
        }
        i := i + 1;
      }
      WithoutAt(list, n, i);
      return false;
    }

    /** `build_INFO_DSM_message`. */
    method BuildInfo(owners: seq<NodeId>) returns (m: Info)
      ensures m == Info(|owners|, count, list + owners)
    {
      var ids := [];
      for i := 0 to |list|
        invariant ids == list[..i]
      {
        ids := ids + [list[i]];
      }
      m := Info(|owners|, count, ids + owners);
    }

    /** The handler of INFO_DSM; the owners start where its cursor stops. */
    method HandleInfo(m: Info) returns (owners: seq<NodeId>)
      requires 0 <= m.nbNodes && m.nbNodes + m.nbPages <= |m.ids|
      modifies this`list, this`count
      ensures list == AddAll(old(list), m.ids[..m.nbNodes]) && count == old(count) + m.nbNodes
      ensures owners == m.ids[m.nbNodes..m.nbNodes + m.nbPages]
    {
      AddInfo(m.ids[..m.nbNodes]);
      owners := m.ids[m.nbNodes..m.nbNodes + m.nbPages];
    }

    /** A joining node reads exactly the list and the owners that its contact had. */
    method JoinThrough(contact: MemberList, pageOwners: seq<NodeId>) returns (owners: seq<NodeId>)
      requires contact != this && contact.count == |contact.list|
      modifies this`list, this`count
      ensures list == AddAll(old(list), contact.list) && count == old(count) + |contact.list|
      ensures owners == pageOwners
    {
      var m := contact.BuildInfo(pageOwners);
      assert m.ids[..m.nbNodes] == contact.list;
      owners := HandleInfo(m);
    }

    /** The loop of the INFO_DSM handler. */
    method AddInfo(nodes: seq<NodeId>)
      modifies this`list, this`count
      ensures list == AddAll(old(list), nodes) && count == old(count) + |nodes|
    {
      for i := 0 to |nodes|
        invariant list == AddAll(old(list), nodes[..i]) && count == old(count) + i
      {
        assert nodes[..i + 1][..i] == nodes[..i];
        AddToNodes(nodes[i]);
      }
      assert nodes[..|nodes|] == nodes;
    }
  }

  lemma {:induction false} WithoutAt(l: seq<NodeId>, n: NodeId, k: nat)
    requires k <= |l| && n !in l[..k] && (k < |l| ==> l[k] == n)
    ensures Without(l, n) == if k < |l| then l[..k] + l[k + 1..] else l
  {
    if k > 0 {
      assert n !in l[1..][..k - 1] by { assert forall i :: 0 <= i < k - 1 ==> l[1..][i] == l[..k][i + 1]; }
      assert l[0] == l[..k][0];
      WithoutAt(l[1..], n, k - 1);
    }
  }
}
