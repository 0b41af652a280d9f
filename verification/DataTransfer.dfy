/**
 The pages of one node and the loops of a departure: collecting the owned pages, packing them
 for the heir, and unpacking them or the list of their numbers at the other nodes.
 */
module DataTransfer {
  import opened Nodes
  import opened PageLock
  import opened PageCell

  /** One entry of RECV_PAGE_LEAVE. */
  datatype Entry = Entry(page: nat, owner: NodeId, bytes: Bytes)

  /** Page numbers of this memory. */
  predicate InRange(ids: seq<nat>, pages: nat) {
    forall k :: 0 <= k < |ids| ==> ids[k] < pages
  }

  predicate EntriesInRange(entries: seq<Entry>, pages: nat) {
    forall k :: 0 <= k < |entries| ==> entries[k].page < pages
  }

  /** The pages that `me` owns, in ascending order. */
  function OwnedBelow(cells: seq<Cell>, me: NodeId, k: nat): (ids: seq<nat>)
    requires k <= |cells|
    ensures InRange(ids, k)
    ensures forall i :: 0 <= i < k ==> (i in ids <==> cells[i].owner == me)
    ensures forall a, b :: 0 <= a < b < |ids| ==> ids[a] < ids[b]
  {
    if k == 0 then []
    else
      var ids := OwnedBelow(cells, me, k - 1);
      if cells[k - 1].owner == me then ids + [k - 1] else ids
  }

  function Owned(cells: seq<Cell>, me: NodeId): (ids: seq<nat>)
    ensures InRange(ids, |cells|)
    ensures forall i :: 0 <= i < |cells| ==> (i in ids <==> cells[i].owner == me)
    ensures forall a, b :: 0 <= a < b < |ids| ==> ids[a] < ids[b]
  {
    OwnedBelow(cells, me, |cells|)
  }

  /** The message for the heir. */
  function Pack(cells: seq<Cell>, ids: seq<nat>, heir: NodeId): (r: seq<Entry>)
    requires InRange(ids, |cells|)
    ensures |r| == |ids| && forall k :: 0 <= k < |ids| ==> r[k] == Entry(ids[k], heir, cells[ids[k]].bytes)
  {
    if ids == [] then [] else [Entry(ids[0], heir, cells[ids[0]].bytes)] + Pack(cells, ids[1..], heir)
  }

  /** RECV_PAGE_LEAVE. */
  function TakeOver(cells: seq<Cell>, sender: NodeId, entries: seq<Entry>): (r: seq<Cell>)
    requires EntriesInRange(entries, |cells|)
    ensures |r| == |cells|
    decreases |entries|
  {
    if entries == [] then cells
    else
      var e := entries[|entries| - 1];
      var r := TakeOver(cells, sender, entries[..|entries| - 1]);
      r[e.page := Update(r[e.page], e.owner, sender, e.bytes, true)]
  }

  /** DT_LEAVE: the cells, and the pages that are asked for again. */
  function Redirect(cells: seq<Cell>, sender: NodeId, heir: NodeId, ids: seq<nat>): (r: seq<Cell>)
    requires InRange(ids, |cells|)
    ensures |r| == |cells|
    decreases |ids|
  {
    if ids == [] then cells
    else
      var i := ids[|ids| - 1];
      var r := Redirect(cells, sender, heir, ids[..|ids| - 1]);
      r[i := Inherit(r[i], sender, heir)]
  }

  function AskAgain(cells: seq<Cell>, sender: NodeId, heir: NodeId, ids: seq<nat>): seq<nat>
    requires InRange(ids, |cells|)
    decreases |ids|
  {
    if ids == [] then []
    else
      var k := |ids| - 1;
      var r := Redirect(cells, sender, heir, ids[..k]);
      AskAgain(cells, sender, heir, ids[..k]) + if r[ids[k]].owner == sender && r[ids[k]].syncing then [ids[k]] else []
  }

  predicate Distinct(ids: seq<nat>) {
    forall a, b :: 0 <= a < b < |ids| ==> ids[a] != ids[b]
  }

  // --- Page by page the loops do what one notice does.

  lemma {:induction false} RedirectAt(cells: seq<Cell>, sender: NodeId, heir: NodeId, ids: seq<nat>, i: nat)
    requires InRange(ids, |cells|) && i < |cells| && Distinct(ids)
    ensures Redirect(cells, sender, heir, ids)[i] == if i in ids then Inherit(cells[i], sender, heir) else cells[i]
    ensures i in AskAgain(cells, sender, heir, ids) <==> i in ids && cells[i].owner == sender && cells[i].syncing
    decreases |ids|
  {
    hide Inherit;
    if ids != [] {
      var k := |ids| - 1;
      RedirectAt(cells, sender, heir, ids[..k], i);
      RedirectAt(cells, sender, heir, ids[..k], ids[k]);
      assert ids == ids[..k] + [ids[k]];
      assert ids[k] !in ids[..k];
    }
  }

  lemma {:induction false} AskAgainOnce(cells: seq<Cell>, sender: NodeId, heir: NodeId, ids: seq<nat>)
    requires InRange(ids, |cells|) && Distinct(ids)
    ensures Distinct(AskAgain(cells, sender, heir, ids))
    ensures forall i :: i in AskAgain(cells, sender, heir, ids) ==> i in ids
    decreases |ids|
  {
    if ids != [] {
      var k := |ids| - 1;
      AskAgainOnce(cells, sender, heir, ids[..k]);
      assert ids == ids[..k] + [ids[k]];
      assert ids[k] !in ids[..k];
      Appended(AskAgain(cells, sender, heir, ids[..k]), ids[k]);
    }
  }

  lemma Appended(ids: seq<nat>, i: nat)
    requires Distinct(ids) && i !in ids
    ensures Distinct(ids + [i])
  {
    forall a, b | 0 <= a < b < |ids| + 1 ensures (ids + [i])[a] != (ids + [i])[b] {
      assert (ids + [i])[a] in ids;
    }
  }

  lemma {:induction false} TakeOverSkips(cells: seq<Cell>, sender: NodeId, entries: seq<Entry>, i: nat)
    requires EntriesInRange(entries, |cells|) && i < |cells| && forall k :: 0 <= k < |entries| ==> entries[k].page != i
    ensures TakeOver(cells, sender, entries)[i] == cells[i]
    decreases |entries|
  {
    hide Update;
    if entries != [] {
      TakeOverSkips(cells, sender, entries[..|entries| - 1], i);
    }
  }

  lemma {:induction false} TakeOverOne(cells: seq<Cell>, sender: NodeId, entries: seq<Entry>, k: nat)
    requires EntriesInRange(entries, |cells|) && k < |entries|
    requires forall a, b :: 0 <= a < b < |entries| ==> entries[a].page != entries[b].page
    ensures var e := entries[k];
      TakeOver(cells, sender, entries)[e.page] == Update(cells[e.page], e.owner, sender, e.bytes, true)
    decreases |entries|
  {
    hide Update;
    var last := |entries| - 1;
    if k < last {
      TakeOverOne(cells, sender, entries[..last], k);
    } else {
      TakeOverSkips(cells, sender, entries[..last], entries[k].page);
    }
  }

  lemma TakeOverAt(cells: seq<Cell>, from: seq<Cell>, sender: NodeId, heir: NodeId, ids: seq<nat>, i: nat)
    requires |from| == |cells| && InRange(ids, |cells|) && i < |cells| && Distinct(ids)
    ensures EntriesInRange(Pack(from, ids, heir), |cells|)
    ensures TakeOver(cells, sender, Pack(from, ids, heir))[i]
         == if i in ids then Update(cells[i], heir, sender, from[i].bytes, true) else cells[i]
  {
    hide Update;
    var entries := Pack(from, ids, heir);
    if i in ids {
      var k :| 0 <= k < |ids| && ids[k] == i;
      TakeOverOne(cells, sender, entries, k);
    } else {
      TakeOverSkips(cells, sender, entries, i);
    }
  }

  /** A departure, page by page: the heir takes over the owned pages with their bytes, another
      node believes in the heir wherever it believed in the leaver, and no other page changes. */
  lemma DepartureByPage(leaver: seq<Cell>, cells: seq<Cell>, me: NodeId, heir: NodeId, i: nat)
    requires |leaver| == |cells| && i < |cells|
    ensures EntriesInRange(Pack(leaver, Owned(leaver, me), heir), |cells|)
    ensures TakeOver(cells, me, Pack(leaver, Owned(leaver, me), heir))[i]
         == if leaver[i].owner == me then Update(cells[i], heir, me, leaver[i].bytes, true) else cells[i]
    ensures Redirect(cells, me, heir, Owned(leaver, me))[i]
         == if leaver[i].owner == me then Inherit(cells[i], me, heir) else cells[i]
    ensures i in AskAgain(cells, me, heir, Owned(leaver, me))
        <==> leaver[i].owner == me && cells[i].owner == me && cells[i].syncing
  {
    hide Update, Inherit;
    TakeOverAt(cells, leaver, me, heir, Owned(leaver, me), i);
    RedirectAt(cells, me, heir, Owned(leaver, me), i);
  }

  // --- The node as the program has it.

  class PageTable {
    const me: NodeId
    const cells: array<Cell>

    /** `init_data_transfer` of the creator. */
    constructor Create(me: NodeId, pages: nat)
      ensures this.me == me && fresh(cells) && cells.Length == pages
      ensures forall i :: 0 <= i < pages ==> cells[i] == Created(me)
    {
      this.me := me;
      cells := new Cell[pages](_ => Created(me));
    }

    /** `init_data_transfer` of a node that got the owners in INFO_DSM. */
    constructor JoinWith(me: NodeId, owners: seq<NodeId>)
      ensures this.me == me && fresh(cells) && cells.Length == |owners|
      ensures forall i :: 0 <= i < |owners| ==> cells[i] == Joined(owners[i])
    {
      this.me := me;
      cells := new Cell[|owners|](i requires 0 <= i < |owners| => Joined(owners[i]));
    }

    method SetNewOwner(i: nat, owner: NodeId)
      requires i < cells.Length
      modifies cells
      ensures cells[..] == old(cells[..])[i := SetOwner(old(cells[i]), me, owner)]
    {
      cells[i] := cells[i].(owner := owner);
      cells[i] := cells[i].(upToDate := owner == me);
    }

    method HandleInvalidation(i: nat, sender: NodeId)
      requires i < cells.Length
      modifies cells
      ensures cells[..] == old(cells[..])[i := Invalidate(old(cells[i]), me, sender)]
    {
      cells[i] := cells[i].(prot := NoAccess);
      SetNewOwner(i, sender);
    }

    method UpdatePage(i: nat, owner: NodeId, sender: NodeId, bytes: Bytes, leaving: bool)
      requires i < cells.Length
      modifies cells
      ensures cells[..] == old(cells[..])[i := Update(old(cells[i]), owner, sender, bytes, leaving)]
    {
      if !leaving || sender == cells[i].owner {
        cells[i] := cells[i].(owner := owner);
        cells[i] := cells[i].(prot := ReadWrite);
        cells[i] := cells[i].(bytes := bytes);
        cells[i] := cells[i].(prot := Reset(cells[i].mode));
        if cells[i].syncing {
          cells[i] := cells[i].(syncing := false, upToDate := true);
        }
      }
    }

    method HandlePageLeave(sender: NodeId, entries: seq<Entry>)
      requires EntriesInRange(entries, cells.Length)
      modifies cells
      ensures cells[..] == TakeOver(old(cells[..]), sender, entries)
    {
      for k := 0 to |entries|
        invariant cells[..] == TakeOver(old(cells[..]), sender, entries[..k])
      {
        assert entries[..k + 1][..k] == entries[..k];
        UpdatePage(entries[k].page, entries[k].owner, sender, entries[k].bytes, true);
      }
      assert entries[..|entries|] == entries;
    }

    /** Returns the pages for which ASK_PAGE goes to the heir. */
    method HandleLeave(sender: NodeId, heir: NodeId, ids: seq<nat>) returns (asked: seq<nat>)
      requires InRange(ids, cells.Length)
      modifies cells
      ensures cells[..] == Redirect(old(cells[..]), sender, heir, ids)
      ensures asked == AskAgain(old(cells[..]), sender, heir, ids)
    {
      asked := [];
      for k := 0 to |ids|
        invariant cells[..] == Redirect(old(cells[..]), sender, heir, ids[..k])
        invariant asked == AskAgain(old(cells[..]), sender, heir, ids[..k])
      {
        assert ids[..k + 1][..k] == ids[..k];
        var i := ids[k];
        if cells[i].owner == sender {
          if cells[i].syncing {
            asked := asked + [i];
          }
          cells[i] := cells[i].(owner := heir);
        }
      }
      assert ids[..|ids|] == ids;
    }

    /** The part of `leave_data_transfer` that looks for the owned pages. */
    method OwnedPages() returns (ids: seq<nat>)
      ensures ids == Owned(cells[..], me)
    {
      ids := [];
      for i := 0 to cells.Length
        invariant ids == OwnedBelow(cells[..], me, i)
      {
        if cells[i].owner == me {
          ids := ids + [i];
        }
      }
    }

    /** `build_multiple_PAGE_message`. Copying a page resets its protection. */
    method PackPages(ids: seq<nat>, heir: NodeId) returns (entries: seq<Entry>)
      requires InRange(ids, cells.Length)
      modifies cells
      ensures entries == Pack(old(cells[..]), ids, heir)
      ensures forall i :: 0 <= i < cells.Length ==> cells[i] == if i in ids then Copied(old(cells[i])) else old(cells[i])
    {
      entries := [];
      for k := 0 to |ids|
        invariant |entries| == k && forall j :: 0 <= j < k ==> entries[j] == Entry(ids[j], heir, old(cells[ids[j]]).bytes)
        invariant forall i :: 0 <= i < cells.Length ==> cells[i] == if i in ids[..k] then Copied(old(cells[i])) else old(cells[i])
      {
        var i := ids[k];
        cells[i] := cells[i].(prot := ReadOnly);
        entries := entries + [Entry(i, heir, cells[i].bytes)];
        cells[i] := cells[i].(prot := Reset(cells[i].mode));
        assert ids[..k + 1] == ids[..k] + [i];
      }
      assert ids[..|ids|] == ids;
    }

    /** The handler of ASK_PAGE: the owner answers with the bytes, any other node passes the request
        on to the owner it believes in. */
    method HandleAskPage(i: nat) returns (answered: bool, owner: NodeId, bytes: Bytes)
      requires i < cells.Length
      modifies cells
      ensures answered == (old(cells[i]).owner == me) && owner == old(cells[i]).owner
      ensures answered ==> bytes == old(cells[i]).bytes
      ensures cells[..] == if answered then old(cells[..])[i := Copied(old(cells[i]))] else old(cells[..])
    {
      owner, bytes := cells[i].owner, [];
      answered := owner == me;
      if answered {
        cells[i] := cells[i].(prot := ReadOnly);
        bytes := cells[i].bytes;
        cells[i] := cells[i].(prot := Reset(cells[i].mode));
      }
    }

    /** Returns whether ASK_PAGE must be sent to the owner. */
    method SyncPage(i: nat, write: bool) returns (ask: bool)
      requires i < cells.Length && !cells[i].syncing
      modifies cells
      ensures cells[..] == old(cells[..])[i := BeginFault(old(cells[i]), me, write)]
      ensures ask == cells[i].syncing
    {
      cells[i] := cells[i].(fault := Handling(write));
      if cells[i].owner == me || cells[i].upToDate {
        return false;
      }
      cells[i] := cells[i].(syncing := true);
      return true;
    }

    /** The end of the fault handler; returns whether INVALIDATION is broadcast. */
    method CompleteFault(i: nat) returns (invalidate: bool)
      requires i < cells.Length && cells[i].fault.Handling? && !cells[i].syncing
      modifies cells
      ensures cells[..] == old(cells[..])[i := EndFault(old(cells[i]), me)]
      ensures invalidate == (old(cells[i]).fault.write && old(cells[i]).mode == Writing)
    {
      invalidate := cells[i].fault.write && cells[i].mode == Writing;
      cells[i] := cells[i].(fault := NoFault, prot := if invalidate then ReadWrite else ReadOnly);
      if invalidate {
        SetNewOwner(i, me);
      }
    }
  }
}
