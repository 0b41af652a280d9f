/**
 The lock of one page on all nodes, with the messages in flight, delivered in any order. Each
 handler body runs under the page's mutex, so it is one step. The requests are all for writing.
 */
module LockMachine {
  import opened Nodes
  import opened PageLock

  datatype State = State(pages: map<NodeId, Page>, net: multiset<Message>)

  datatype Event =
    | CallAsk(n: NodeId)
    | CallResume(n: NodeId)
    | CallUnlock(n: NodeId)
    | DeliverAsk(at: NodeId, initiator: NodeId)
    | DeliverGet(at: NodeId, sender: NodeId)

  function Put(s: State, n: NodeId, p: Page, net: multiset<Message>): State {
    State(s.pages[n := p], net)
  }

  function Apply(s: State, n: NodeId, taken: multiset<Message>, e: Effect): State {
    Put(s, n, e.page, s.net - taken + multiset(e.sent))
  }

  /** `ask_lock` has been called and has not returned. */
  predicate Blocked(p: Page) {
    p.waiting || p.stuck
  }

  /** `ask_lock` has returned and `unlock` has not been called since. */
  predicate Holds(p: Page) {
    p.mode == Writing && !Blocked(p)
  }

  /** One caller on each node; it unlocks what it holds. */
  predicate Enabled(s: State, e: Event) {
    match e
    case CallAsk(n) => n in s.pages && !Blocked(s.pages[n])
    case CallResume(n) => n in s.pages && s.pages[n].waiting && s.pages[n].signalled
    case CallUnlock(n) => n in s.pages && Holds(s.pages[n])
    case DeliverAsk(at, i) => at in s.pages && AskLock(at, i, Write) in s.net
    case DeliverGet(at, x) => at in s.pages && GetLock(at, x, Write) in s.net
  }

  function Step(s: State, e: Event): State
    requires Enabled(s, e)
  {
    match e
    case CallAsk(n) => Apply(s, n, multiset{}, Ask(s.pages[n], n, Write))
    case CallResume(n) => Apply(s, n, multiset{}, Effect(Resume(s.pages[n]), []))
    case CallUnlock(n) => Apply(s, n, multiset{}, Unlock(s.pages[n], n))
    case DeliverAsk(at, i) => Apply(s, at, multiset{AskLock(at, i, Write)}, OnAsk(s.pages[at], at, i, Write))
    case DeliverGet(at, x) =>
      Apply(s, at, multiset{GetLock(at, x, Write)}, Effect(OnGet(s.pages[at], at, x, Write), []))
  }

  /** Every node starts with the same opinion about who has the token. */
  function Init(nodes: set<NodeId>, first: NodeId): State {
    State(map n | n in nodes :: Fresh(first), multiset{})
  }

  predicate IsRun(s: State, es: seq<Event>)
    decreases |es|
  {
    es == [] || (Enabled(s, es[0]) && IsRun(Step(s, es[0]), es[1..]))
  }

  function After(s: State, es: seq<Event>): State
    requires IsRun(s, es)
    decreases |es|
  {
    if es == [] then s else After(Step(s, es[0]), es[1..])
  }
}
