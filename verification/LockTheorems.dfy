/**
 What holds of the page lock in every state that a write-only run can reach.
 */
module LockTheorems {
  import opened Nodes
  import opened PageLock
  import opened LockMachine
  import opened LockExclusion

  ghost predicate Reachable(s: State) {
    exists nodes, first, es :: EmptyNode !in nodes && first in nodes
      && IsRun(Init(nodes, first), es) && s == After(Init(nodes, first), es)
  }

  lemma ReachableInv(s: State) returns (a: Account)
    requires Reachable(s)
    ensures Inv(s, a)
  {
    hide Inv;
    var nodes, first, es :| EmptyNode !in nodes && first in nodes
      && IsRun(Init(nodes, first), es) && s == After(Init(nodes, first), es);
    InitInv(nodes, first);
    a := RunKeepsInv(Init(nodes, first), Account(Held(first), map[]), es);
  }

  /** A node that is not waiting for a grant and believes that the token is its own. */
  ghost function Keepers(s: State): set<NodeId> {
    set n | n in s.pages && !Pending(s, n) && s.pages[n].haveToken == n
  }

  ghost function GrantsInFlight(s: State): set<Message> {
    set m | m in s.net && m.GetLock?
  }

  /** At most one caller is between the return of `ask_lock` and its `unlock`, because the nodes
      that are not waiting and name themselves, and the grants in flight, total one. */
  lemma WriteExclusion(s: State)
    requires Reachable(s)
    ensures |Keepers(s)| + |GrantsInFlight(s)| == 1
    ensures forall m :: m in s.net ==> s.net[m] == 1
    ensures forall n :: n in s.pages && Holds(s.pages[n]) ==> n in Keepers(s)
    ensures forall n, m :: n in s.pages && m in s.pages && Holds(s.pages[n]) && Holds(s.pages[m]) ==> n == m
  {
    hide IsRun, After, ClaimInv, ListOk, ShapeInv;
    var a := ReachableInv(s);
    assert TokenAt(s, a.place);
    AllMail(s);
    forall n ensures n in Keepers(s) <==> a.place == Held(n) {
      assert TokenAt(s, Held(n)) <==> a.place == Held(n);
      if n in s.pages { Facts(s, n); }
    }
    forall m ensures m in GrantsInFlight(s) <==> m.GetLock? && m.mode == Write && a.place == Moving(m.dst, m.sender) {
      if m.GetLock? { assert TokenAt(s, Moving(m.dst, m.sender)) <==> a.place == Moving(m.dst, m.sender); }
    }
    if a.place.Held? {
      assert Keepers(s) == {a.place.n} && GrantsInFlight(s) == {};
    } else {
      assert Keepers(s) == {} && GrantsInFlight(s) == {GetLock(a.place.n, a.place.sender, Write)};
    }
    forall n | n in s.pages && Holds(s.pages[n]) ensures n in Keepers(s) && a.place == Held(n) {
      Facts(s, n);
    }
  }

  predicate Lists(p: Page, n: NodeId) {
    Request(n, Read) in p.requests || Request(n, Write) in p.requests
  }

  /** Every place where a request of `n` or a grant for it is kept. */
  ghost function ClaimSet(s: State, n: NodeId): set<Claim> {
    (set m | m in s.net && m.AskLock? && m.initiator == n :: Asking(m.dst))
    + (set m {:trigger s.pages[m]} | m in s.pages && Lists(s.pages[m], n) :: Listed(m))
    + (set m | m in s.net && m.GetLock? && m.dst == n :: Granted(m.sender))
  }

  lemma ClaimSetIs(s: State, n: NodeId, c: Claim)
    requires ShapeInv(s)
    ensures c in ClaimSet(s, n) <==> HasClaim(s, n, c)
  {
    hide ShapeInv, MailOk;
    match c
    case Asking(d) =>
      AllMail(s);
      if HasClaim(s, n, c) { assert Asking(AskLock(d, n, Write).dst) in ClaimSet(s, n); }
    case Listed(m) =>
      if m in s.pages { OnlyWriters(s, m, n); }
    case Granted(x) =>
      AllMail(s);
      if HasClaim(s, n, c) { assert Granted(GetLock(n, x, Write).sender) in ClaimSet(s, n); }
  }

  lemma AllMail(s: State)
    requires ShapeInv(s)
    ensures forall m :: m in s.net ==> Addressed(s.pages.Keys, m) && s.net[m] == 1
  {}

  lemma OnlyWriters(s: State, m: NodeId, n: NodeId)
    requires ShapeInv(s) && m in s.pages
    ensures Request(n, Read) !in s.pages[m].requests
  {
    assert PageOk(s.pages.Keys, m, s.pages[m]);
  }

  /** A caller that waits has exactly one claim among the requests in flight, the request lists
      of all nodes and the grants in flight; a node without such a caller has none, and no list
      holds a node twice. */
  lemma OneClaimEach(s: State, n: NodeId)
    requires Reachable(s) && n in s.pages
    ensures |ClaimSet(s, n)| == if Pending(s, n) then 1 else 0
    ensures forall i, j :: 0 <= i < j < |s.pages[n].requests| ==> s.pages[n].requests[i].who != s.pages[n].requests[j].who
  {
    hide IsRun, After, TokenInv, ShapeInv;
    var a := ReachableInv(s);
    NoDuplicates(s, n);
    forall c ensures c in ClaimSet(s, n) <==> n in a.why && a.why[n] == c { ClaimSetIs(s, n, c); }
    if Pending(s, n) {
      assert ClaimSet(s, n) == {a.why[n]};
    } else {
      assert ClaimSet(s, n) == {};
    }
  }

  lemma NoDuplicates(s: State, n: NodeId)
    requires ShapeInv(s) && n in s.pages
    ensures forall i, j :: 0 <= i < j < |s.pages[n].requests| ==> s.pages[n].requests[i].who != s.pages[n].requests[j].who
  {
    assert PageOk(s.pages.Keys, n, s.pages[n]);
  }

  /** No caller ever waits on `write_auto_lock`, which nobody posts. */
  lemma SemaphoreIsNeverUsed(s: State, n: NodeId)
    requires Reachable(s) && n in s.pages
    ensures !s.pages[n].stuck
    ensures s.pages[n].mode == Unlocked && s.pages[n].haveToken == n ==> s.pages[n].requests == []
  {
    hide IsRun, After, TokenInv, ClaimInv;
    var a := ReachableInv(s);
    assert PageOk(s.pages.Keys, n, s.pages[n]);
  }
}
