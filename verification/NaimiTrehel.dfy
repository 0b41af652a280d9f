/**
 One node of the token-based mutual exclusion: its variables, the effect of every
 handler as a function of those variables, and the node as an object whose methods
 are proved to compute exactly these functions.
 */
module NaimiTrehel {
  import opened Nodes

  /** The static variables of a node. `waiting` says that a local caller is inside the
      wait loop of `request_CS`; it stands for that thread's program counter. */
  datatype Site = Site(
    token: bool,
    requesting: bool,
    leaving: bool,
    acked: bool,
    users: nat,
    waiting: bool,
    father: NodeId,
    next: NodeId)

  /** The messages exchanged by the protocol, with their destination. */
  datatype Packet =
    | RequestCs(dst: NodeId, requester: NodeId)
    | GetCs(dst: NodeId)
    | NewRootCs(dst: NodeId, sender: NodeId)
    | ResetCs(dst: NodeId, sender: NodeId)
    | AckCs(dst: NodeId)
    | LeaveCs(dst: NodeId)

  /** What a handler leaves behind: the new variables and the messages it sent. */
  datatype Effect = Effect(site: Site, sent: seq<Packet>)

  /** A node that has just been initialised. */
  function Fresh(father: NodeId, token: bool): Site {
    Site(token, false, false, false, 0, false, father, EmptyNode)
  }

  /** Reinitialisation: everything but `requesting`, `users` and the blocked caller. */
  function Reinit(s: Site, father: NodeId, token: bool): Site {
    s.(token := token, leaving := false, acked := false, father := father, next := EmptyNode)
  }

  /** `request_CS` up to its wait loop. */
  function Enter(s: Site, me: NodeId): Effect {
    if s.token then
      Effect(s.(requesting := true, users := s.users + 1), [])
    else if s.father != EmptyNode then
      Effect(s.(requesting := true, waiting := true, father := EmptyNode), [RequestCs(s.father, me)])
    else
      Effect(s.(requesting := true, waiting := true), [])
  }

  /** The caller blocked in `request_CS` finds the token and leaves the wait loop. */
  function Wake(s: Site): Site {
    s.(waiting := false, users := s.users + 1)
  }

  function Release(s: Site): Effect
    requires s.users > 0
  {
    if s.users > 1 then
      Effect(s.(users := s.users - 1), [])
    else if s.next != EmptyNode then
      Effect(s.(users := 0, requesting := false, token := false, next := EmptyNode), [GetCs(s.next)])
    else
      Effect(s.(users := 0, requesting := false), [])
  }

  /** The handler of REQUEST_CS: path reversal towards the requester. */
  function OnRequest(s: Site, requester: NodeId): Effect {
    if s.leaving then
      Effect(s, [])
    else if s.father != EmptyNode then
      Effect(s.(father := requester), [RequestCs(s.father, requester)])
    else if s.requesting then
      Effect(s.(next := requester, father := requester), [])
    else
      Effect(s.(token := false, father := requester), [GetCs(requester)])
  }

  function OnGrant(s: Site): Site {
    s.(token := true)
  }

  /** The handler of RESET_CS: point at the new root and, if a caller is waiting, ask again. */
  function OnReset(s: Site, me: NodeId, root: NodeId): Effect {
    if s.requesting then
      Effect(Reinit(s, EmptyNode, false), [AckCs(root), RequestCs(root, me)])
    else
      Effect(Reinit(s, root, false), [AckCs(root)])
  }

  /** The RESET_CS messages of the new root, one for each node of its list. */
  function Resets(nodes: seq<NodeId>, root: NodeId): (r: seq<Packet>)
    ensures |r| == |nodes|
    ensures forall i :: 0 <= i < |nodes| ==> r[i] == ResetCs(nodes[i], root)
  {
    if nodes == [] then [] else [ResetCs(nodes[0], root)] + Resets(nodes[1..], root)
  }

  /** The handler of NEW_ROOT_CS. */
  function OnNewRoot(s: Site, me: NodeId, nodes: seq<NodeId>, leaver: NodeId): Effect {
    Effect(Reinit(s, EmptyNode, true), Resets(nodes, me) + [LeaveCs(leaver)])
  }

  /** `leave_CS` up to its wait loop: the head of the local queue, or else the given
      successor, becomes the new root. */
  function Depart(s: Site, me: NodeId, successor: NodeId): Effect {
    Effect(s.(leaving := true), [NewRootCs(if s.next == EmptyNode then successor else s.next, me)])
  }

  /** The handler of LEAVE_CS, which lets `leave_CS` return. */
  function OnLeave(s: Site): Site {
    s.(leaving := false)
  }

  /** The node as the program has it: variables updated in place by the handlers. */
  class CsNode {
    const me: NodeId
    var token: bool
    var requesting: bool
    var leaving: bool
    var acked: bool
    var users: nat
    var waiting: bool
    var father: NodeId
    var next: NodeId

    ghost function View(): Site
      reads this
    {
      Site(token, requesting, leaving, acked, users, waiting, father, next)
    }

    constructor (me: NodeId, father: NodeId, token: bool)
      ensures this.me == me && View() == Fresh(father, token)
    {
      this.me := me;
      this.token, requesting, leaving, acked := token, false, false, false;
      users, waiting := 0, false;
      this.father, next := father, EmptyNode;
    }

    method InitInternalData(father: NodeId, token: bool)
      modifies this
      ensures View() == Reinit(old(View()), father, token)
    {
      this.token := token;
      leaving := false;
      acked := false;
      this.father := father;
      next := EmptyNode;
    }

    method SendRequestToFather(requester: NodeId) returns (sent: seq<Packet>)
      modifies this`father
      ensures father == EmptyNode
      ensures sent == [RequestCs(old(father), requester)]
    {
      sent := [RequestCs(father, requester)];
      father := EmptyNode;
    }

    method RequestCS() returns (sent: seq<Packet>)
      modifies this
      ensures Effect(View(), sent) == Enter(old(View()), me)
    {
      sent := [];
      requesting := true;
      if token {
        users := users + 1;
        return;
      }
      if father != EmptyNode {
        sent := SendRequestToFather(me);
      }
      waiting := true;
    }

    method LeaveWaitLoop()
      requires waiting && token
      modifies this
      ensures View() == Wake(old(View()))
    {
      waiting := false;
      users := users + 1;
    }

    method ReleaseCS() returns (sent: seq<Packet>)
      requires users > 0
      modifies this
      ensures Effect(View(), sent) == Release(old(View()))
    {
      sent := [];
      users := users - 1;
      if users == 0 {
        requesting := false;
        if next != EmptyNode {
          sent := [GetCs(next)];
          token := false;
          next := EmptyNode;
        }
      }
    }

    method HandleRequestCs(requester: NodeId) returns (sent: seq<Packet>)
      modifies this
      ensures Effect(View(), sent) == OnRequest(old(View()), requester)
    {
      sent := [];
      if leaving {
        return;
      }
      if father == EmptyNode {
        if requesting {
          next := requester;
        } else {
          token := false;
          sent := [GetCs(requester)];
        }
      } else {
        sent := SendRequestToFather(requester);
      }
      father := requester;
    }

    method HandleGetCs()
      modifies this
      ensures View() == OnGrant(old(View()))
    {
      token := true;
    }

    method HandleResetCs(sender: NodeId) returns (sent: seq<Packet>)
      modifies this
      ensures Effect(View(), sent) == OnReset(old(View()), me, sender)
    {
      InitInternalData(sender, false);
      sent := [AckCs(sender)];
      if requesting {
        var request := SendRequestToFather(me);
        sent := sent + request;
      }
    }

    method HandleNewRootCs(nodes: seq<NodeId>, sender: NodeId) returns (sent: seq<Packet>)
      modifies this
      ensures Effect(View(), sent) == OnNewRoot(old(View()), me, nodes, sender)
    {
      InitInternalData(EmptyNode, true);
      sent := [];
      for i := 0 to |nodes|
        invariant |sent| == i
        invariant forall k :: 0 <= k < i ==> sent[k] == ResetCs(nodes[k], me)
      {
        sent := sent + [ResetCs(nodes[i], me)];
      }
      assert sent == Resets(nodes, me);
      sent := sent + [LeaveCs(sender)];
    }

    method LeaveCS(newRoot: NodeId) returns (sent: seq<Packet>)
      modifies this
      ensures Effect(View(), sent) == Depart(old(View()), me, newRoot)
    {
      leaving := true;
      if next == EmptyNode {
        sent := [NewRootCs(newRoot, me)];
      } else {
        sent := [NewRootCs(next, me)];
      }
    }

    method HandleLeaveCs()
      modifies this
      ensures View() == OnLeave(old(View()))
    {
      leaving := false;
    }
  }
}
