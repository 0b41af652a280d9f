/**
 The whole memory: its pages side by side, with the membership they share, and the flat
 memory it must look like.
 */
module Dsm {
  import opened Nodes
  import opened PageCell
  import P = PageMachine

  type Memory = seq<Bytes>

  /** A step of one page, or a change of membership, which concerns every page. */
  datatype Event = On(page: nat, e: P.Event) | All(e: P.Event)

  predicate Membership(e: P.Event) {
    e.Join? || e.BeginLeave? || e.Notice? || e.EndLeave?
  }

  predicate Enabled(s: seq<P.State>, e: Event) {
    match e
    case On(i, e) => i < |s| && !Membership(e) && P.Enabled(s[i], e)
    case All(e) => Membership(e) && forall i :: 0 <= i < |s| ==> P.Enabled(s[i], e)
  }

  function Step(s: seq<P.State>, e: Event): seq<P.State>
    requires Enabled(s, e)
  {
    match e
    case On(i, e) => s[i := P.Step(s[i], e)]
    case All(e) => seq(|s|, i requires 0 <= i < |s| => P.Step(s[i], e))
  }

  function Init(first: NodeId, pages: nat): seq<P.State> {
    seq(pages, _ => P.Init(first))
  }

  function Zeros(pages: nat): Memory {
    seq(pages, _ => ZeroPage())
  }

  predicate IsRun(s: seq<P.State>, es: seq<Event>)
    decreases |es|
  {
    es == [] || (Enabled(s, es[0]) && IsRun(Step(s, es[0]), es[1..]))
  }

  function After(s: seq<P.State>, es: seq<Event>): seq<P.State>
    requires IsRun(s, es)
    decreases |es|
  {
    if es == [] then s else After(Step(s, es[0]), es[1..])
  }

  // --- The flat memory.

  function Written(m: Memory, e: Event): Memory {
    if e.On? && e.page < |m| then m[e.page := P.Written(m[e.page], e.e)] else m
  }

  function Flat(m: Memory, es: seq<Event>): Memory
    decreases |es|
  {
    if es == [] then m else Flat(Written(m, es[0]), es[1..])
  }

  /** What the program of `n` has in its memory; `leave_DSM` returns it to the last node. */
  function Buffer(s: seq<P.State>, n: NodeId): Memory
    requires forall i :: 0 <= i < |s| ==> n in s[i].cells
  {
    seq(|s|, i requires 0 <= i < |s| => s[i].cells[n].bytes)
  }
}
