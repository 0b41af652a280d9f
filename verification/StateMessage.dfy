/**
 SEND_STATE: the request lists of the pages whose token a leaving node hands over, written into
 one buffer and read back by the delegate.
 */
module StateMessage {
  import opened Nodes
  import opened PageLock
  import opened Wire

  /** The list of one page. */
  datatype Held = Held(page: nat, requests: seq<Waiting>)

  const SEND_STATE: nat := 12

  /** The loops count the requests and the pages with an `int`. */
  const INT_LIMIT: nat := 0x8000_0000

  predicate ValidHeld(h: Held) {
    h.page < INT_LIMIT && |h.requests| < INT_LIMIT && ValidRequests(h.requests)
  }

  predicate ValidState(hs: seq<Held>) {
    |hs| < INT_LIMIT && forall k :: 0 <= k < |hs| ==> ValidHeld(hs[k])
  }

  // --- The bytes.

  function EncodeAll(rs: seq<Waiting>): (b: seq<Byte>)
    requires ValidRequests(rs)
    ensures |b| == REQUEST_SIZE * |rs|
  {
    if rs == [] then [] else EncodeAll(rs[..|rs| - 1]) + EncodeRequest(rs[|rs| - 1])
  }

  function EncodeRequests(rs: seq<Waiting>): (b: seq<Byte>)
    requires ValidRequests(rs)
    ensures |b| == SIZE_T + REQUEST_SIZE * |rs|
  {
    EncodeNum(|rs|, SIZE_T) + EncodeAll(rs)
  }

  function EncodeHeld(h: Held): (b: seq<Byte>)
    requires ValidRequests(h.requests)
    ensures |b| == HeldSize(h)
  {
    EncodeNum(h.page, SIZE_T) + EncodeRequests(h.requests)
  }

  function HeldSize(h: Held): nat {
    SIZE_T + SIZE_T + REQUEST_SIZE * |h.requests|
  }

  function EncodePages(hs: seq<Held>): (b: seq<Byte>)
    requires forall k :: 0 <= k < |hs| ==> ValidHeld(hs[k])
    ensures |b| == PagesSize(hs)
  {
    if hs == [] then []
    else
      assert ValidHeld(hs[|hs| - 1]);
      EncodePages(hs[..|hs| - 1]) + EncodeHeld(hs[|hs| - 1])
  }

  function PagesSize(hs: seq<Held>): nat {
    if hs == [] then 0 else PagesSize(hs[..|hs| - 1]) + HeldSize(hs[|hs| - 1])
  }

  /** The message after its header. */
  function EncodeState(hs: seq<Held>): (b: seq<Byte>)
    requires ValidState(hs)
    ensures |b| == SIZE_T + PagesSize(hs)
  {
    EncodeNum(|hs|, SIZE_T) + EncodePages(hs)
  }

  function RequestTotal(hs: seq<Held>): nat {
    if hs == [] then 0 else RequestTotal(hs[..|hs| - 1]) + |hs[|hs| - 1].requests|
  }

  /** What `leave_core` computes before it writes is the size of what it writes. */
  lemma {:induction false} SizeIsExact(hs: seq<Held>)
    ensures PagesSize(hs) == |hs| * (SIZE_T + SIZE_T) + RequestTotal(hs) * REQUEST_SIZE
  {
    if hs != [] {
      SizeIsExact(hs[..|hs| - 1]);
    }
  }

  // --- The first and the last part of the bytes.

  lemma {:induction false} FirstRequest(rs: seq<Waiting>)
    requires ValidRequests(rs) && rs != []
    ensures EncodeAll(rs) == EncodeRequest(rs[0]) + EncodeAll(rs[1..])
    decreases |rs|
  {
    hide EncodeRequest;
    var last := |rs| - 1;
    if last > 0 {
      FirstRequest(rs[..last]);
      assert rs[..last][1..] == rs[1..][..last - 1];
      assert rs[1..][last - 1] == rs[last];
      Assoc(EncodeRequest(rs[0]), EncodeAll(rs[1..][..last - 1]), EncodeRequest(rs[last]));
    } else {
      assert EncodeAll(rs[..last]) == [] && EncodeAll(rs[1..]) == [];
    }
  }

  lemma Assoc(a: seq<Byte>, b: seq<Byte>, c: seq<Byte>)
    ensures (a + b) + c == a + (b + c)
  {}

  lemma NextRequest(rs: seq<Waiting>, i: nat)
    requires ValidRequests(rs) && i < |rs|
    ensures EncodeAll(rs[..i + 1]) == EncodeAll(rs[..i]) + EncodeRequest(rs[i])
  {
    assert rs[..i + 1][..i] == rs[..i];
  }

  lemma {:induction false} FirstPage(hs: seq<Held>)
    requires ValidState(hs) && hs != []
    ensures EncodePages(hs) == EncodeHeld(hs[0]) + EncodePages(hs[1..])
    decreases |hs|
  {
    hide EncodeHeld;
    var last := |hs| - 1;
    if last > 0 {
      FirstPage(hs[..last]);
      assert hs[..last][1..] == hs[1..][..last - 1];
      assert hs[1..][last - 1] == hs[last];
      Assoc(EncodeHeld(hs[0]), EncodePages(hs[1..][..last - 1]), EncodeHeld(hs[last]));
    } else {
      assert EncodePages(hs[..last]) == [] && EncodePages(hs[1..]) == [];
    }
  }

  lemma NextPage(hs: seq<Held>, i: nat)
    requires ValidState(hs) && i < |hs|
    ensures EncodePages(hs[..i + 1]) == EncodePages(hs[..i]) + EncodeHeld(hs[i])
    ensures PagesSize(hs[..i + 1]) == PagesSize(hs[..i]) + HeldSize(hs[i])
  {
    assert hs[..i + 1][..i] == hs[..i];
  }

  lemma {:induction false} SizesGrow(hs: seq<Held>, i: nat)
    requires i <= |hs|
    ensures PagesSize(hs[..i]) <= PagesSize(hs)
    decreases |hs|
  {
    if i < |hs| {
      SizesGrow(hs[..|hs| - 1], i);
      assert hs[..|hs| - 1][..i] == hs[..i];
    } else {
      assert hs[..i] == hs;
    }
  }

  // --- Writing.

  method SerializeRequests(dest: array<Byte>, at: nat, rs: seq<Waiting>) returns (next: nat)
    requires ValidRequests(rs) && at + |EncodeRequests(rs)| <= dest.Length
    modifies dest
    ensures next == at + |EncodeRequests(rs)| && dest[..] == Splice(old(dest[..]), at, EncodeRequests(rs))
  {
    hide Splice, EncodeRequest, EncodeAll, EncodeNum;
    ghost var was := dest[..];
    var size := 0;
    next := at + SIZE_T;
    NoRequests(was, at + SIZE_T, rs);
    while size < |rs|
      invariant size <= |rs| && next == at + SIZE_T + REQUEST_SIZE * size
      invariant dest[..] == Splice(was, at + SIZE_T, EncodeAll(rs[..size]))
    {
      next := SerializeRequest(dest, next, rs[size]);
      NextRequest(rs, size);
      SpliceTwice(was, at + SIZE_T, EncodeAll(rs[..size]), EncodeRequest(rs[size]));
      size := size + 1;
    }
    assert rs[..size] == rs;
    var _ := Memcpy(dest, at, EncodeNum(size, SIZE_T));
    SpliceBefore(was, at, EncodeNum(size, SIZE_T), EncodeAll(rs));
  }

  lemma NoRequests(buf: seq<Byte>, at: nat, rs: seq<Waiting>)
    requires at <= |buf|
    ensures rs[..0] == [] && EncodeAll([]) == [] && Splice(buf, at, []) == buf
  {}

  lemma SpliceBefore(buf: seq<Byte>, at: nat, a: seq<Byte>, b: seq<Byte>)
    requires at + |a| + |b| <= |buf|
    ensures Splice(Splice(buf, at + |a|, b), at, a) == Splice(buf, at, a + b)
  {}

  method FillPages(dest: array<Byte>, at: nat, hs: seq<Held>) returns (next: nat)
    requires ValidState(hs) && at + PagesSize(hs) <= dest.Length
    modifies dest
    ensures next == at + PagesSize(hs) && dest[..] == Splice(old(dest[..]), at, EncodePages(hs))
  {
    hide Splice, EncodeRequests, EncodePages, EncodeNum, PagesSize;
    ghost var was := dest[..];
    next := at;
    NoPages(was, at, hs);
    for i := 0 to |hs|
      invariant next == at + PagesSize(hs[..i]) && PagesSize(hs[..i]) <= PagesSize(hs)
      invariant dest[..] == Splice(was, at, EncodePages(hs[..i]))
    {
      NextPage(hs, i);
      SizesGrow(hs, i + 1);
      var c := Memcpy(dest, next, EncodeNum(hs[i].page, SIZE_T));
      next := SerializeRequests(dest, c, hs[i].requests);
      SpliceThrice(was, at, EncodePages(hs[..i]), EncodeNum(hs[i].page, SIZE_T), EncodeRequests(hs[i].requests));
    }
    assert hs[..|hs|] == hs;
  }

  lemma NoPages(buf: seq<Byte>, at: nat, hs: seq<Held>)
    requires at <= |buf|
    ensures hs[..0] == [] && PagesSize([]) == 0 && EncodePages([]) == [] && Splice(buf, at, []) == buf
  {}

  lemma SpliceThrice(buf: seq<Byte>, at: nat, a: seq<Byte>, b: seq<Byte>, c: seq<Byte>)
    requires at + |a| + |b| + |c| <= |buf|
    ensures Splice(Splice(Splice(buf, at, a), at + |a|, b), at + |a| + |b|, c) == Splice(buf, at, a + (b + c))
  {
    SpliceTwice(buf, at, a, b);
    SpliceTwice(buf, at, a + b, c);
    Assoc(a, b, c);
  }

  /** The size that `leave_core` computes, from the number of pages and of requests. */
  method StateSize(hs: seq<Held>) returns (size: nat)
    ensures size == SIZE_T + |hs| * (SIZE_T + SIZE_T) + RequestTotal(hs) * REQUEST_SIZE
  {
    size := SIZE_T + |hs| * (SIZE_T + SIZE_T);
    for i := 0 to |hs|
      invariant size == SIZE_T + |hs| * (SIZE_T + SIZE_T) + RequestTotal(hs[..i]) * REQUEST_SIZE
    {
      assert hs[..i + 1][..i] == hs[..i];
      for k := 0 to |hs[i].requests|
        invariant size == SIZE_T + |hs| * (SIZE_T + SIZE_T) + (RequestTotal(hs[..i]) + k) * REQUEST_SIZE
      {
        size := size + REQUEST_SIZE;
      }
    }
    assert hs[..|hs|] == hs;
  }

  /** The message fills the buffer of the computed size to its last byte. */
  method BuildState(hs: seq<Held>) returns (message: array<Byte>, cursor: nat)
    requires ValidState(hs)
    ensures fresh(message) && cursor == message.Length
    ensures message.Length == HEADER_SIZE + SIZE_T + |hs| * (SIZE_T + SIZE_T) + RequestTotal(hs) * REQUEST_SIZE
    ensures At(message[..], 0, EncodeNum(SEND_STATE, SIZE_T)) && At(message[..], HEADER_SIZE, EncodeState(hs))
  {
    hide EncodePages, EncodeNum, PagesSize, RequestTotal;
    var size := StateSize(hs);
    SizeIsExact(hs);
    message := new Byte[HEADER_SIZE + size];
    var _ := Memcpy(message, 0, EncodeNum(SEND_STATE, SIZE_T));
    ghost var was := message[..];
    cursor := Memcpy(message, HEADER_SIZE, EncodeNum(|hs|, SIZE_T));
    cursor := FillPages(message, cursor, hs);
    SpliceTwice(was, HEADER_SIZE, EncodeNum(|hs|, SIZE_T), EncodePages(hs));
    assert message[..] == Splice(was, HEADER_SIZE, EncodeState(hs));
    Spliced(was, HEADER_SIZE, EncodeState(hs), EncodeNum(SEND_STATE, SIZE_T));
  }

  lemma Spliced(buf: seq<Byte>, at: nat, b: seq<Byte>, start: seq<Byte>)
    requires at + |b| <= |buf| && |start| <= at && At(buf, 0, start)
    ensures At(Splice(buf, at, b), at, b) && At(Splice(buf, at, b), 0, start)
  {
    assert Splice(buf, at, b)[..|start|] == buf[..|start|];
  }

  // --- Reading.

  function Reversed(rs: seq<Waiting>): (r: seq<Waiting>)
    ensures |r| == |rs| && forall k :: 0 <= k < |rs| ==> r[k] == rs[|rs| - 1 - k]
  {
    if rs == [] then [] else [rs[|rs| - 1]] + Reversed(rs[..|rs| - 1])
  }

  lemma NextReversed(rs: seq<Waiting>, i: nat, rest: seq<Waiting>)
    requires i < |rs|
    ensures Reversed(rs[..i + 1]) + rest == [rs[i]] + (Reversed(rs[..i]) + rest)
  {
    assert rs[..i + 1][..i] == rs[..i];
  }

  /** `unserialize_requests`, given that the bytes at `at` are those of `rs`. */
  method UnserializeRequests(src: seq<Byte>, at: nat, lists: array<seq<Waiting>>, page: nat, ghost rs: seq<Waiting>)
    returns (next: nat)
    requires ValidRequests(rs) && |rs| < INT_LIMIT && page < lists.Length && At(src, at, EncodeRequests(rs))
    modifies lists
    ensures next == at + |EncodeRequests(rs)|
    ensures lists[..] == old(lists[..])[page := Reversed(rs) + old(lists[page])]
  {
    hide At, EncodeAll, EncodeNum, EncodeRequest, DecodeNum, Reversed;
    var size := ReadSize(src, at, |rs|, EncodeAll(rs));
    next := at + SIZE_T;
    assert rs[..0] == [] && rs[0..] == rs;
    assert Reversed([]) + lists[page] == lists[page];
    assert lists[..] == lists[..][page := lists[page]];
    for i := 0 to size
      invariant next == at + SIZE_T + REQUEST_SIZE * i
      invariant At(src, next, EncodeAll(rs[i..]))
      invariant lists[..] == old(lists[..])[page := Reversed(rs[..i]) + old(lists[page])]
    {
      FirstRequest(rs[i..]);
      assert rs[i..][1..] == rs[i + 1..];
      AtSplit(src, next, EncodeRequest(rs[i]), EncodeAll(rs[i + 1..]));
      InBounds(src, next, EncodeRequest(rs[i]));
      var r;
      r, next := UnserializeRequest(src, next);
      lists[page] := [r] + lists[page];
      NextReversed(rs, i, old(lists[page]));
    }
    assert rs[..size] == rs;
  }

  lemma InBounds(src: seq<Byte>, at: nat, b: seq<Byte>)
    requires At(src, at, b)
    ensures at + |b| <= |src|
  {}

  method ReadSize(src: seq<Byte>, at: nat, ghost v: nat, ghost rest: seq<Byte>) returns (size: nat)
    requires v < INT_LIMIT && At(src, at, EncodeNum(v, SIZE_T) + rest)
    ensures size == v && At(src, at + SIZE_T, rest)
  {
    AtSplit(src, at, EncodeNum(v, SIZE_T), rest);
    Widths();
    NumRoundTrip(v, SIZE_T);
    size := DecodeNum(src[at..at + SIZE_T]);
  }

  predicate InRange(hs: seq<Held>, pages: nat) {
    forall k :: 0 <= k < |hs| ==> hs[k].page < pages
  }

  /** The lists after the lists of `hs` were received. */
  function Received(lists: seq<seq<Waiting>>, hs: seq<Held>): (r: seq<seq<Waiting>>)
    requires InRange(hs, |lists|)
    ensures |r| == |lists|
    decreases |hs|
  {
    if hs == [] then lists
    else
      var h := hs[|hs| - 1];
      var r := Received(lists, hs[..|hs| - 1]);
      r[h.page := Reversed(h.requests) + r[h.page]]
  }

  /** A page that is not in the message keeps its list. */
  lemma {:induction false} ReceivedSkips(lists: seq<seq<Waiting>>, hs: seq<Held>, p: nat)
    requires InRange(hs, |lists|) && p < |lists| && forall k :: 0 <= k < |hs| ==> hs[k].page != p
    ensures Received(lists, hs)[p] == lists[p]
    decreases |hs|
  {
    if hs != [] {
      ReceivedSkips(lists, hs[..|hs| - 1], p);
    }
  }

  /** A page in the message gets the sender's list, reversed, before its own. */
  lemma {:induction false} ReceivedOne(lists: seq<seq<Waiting>>, hs: seq<Held>, k: nat)
    requires InRange(hs, |lists|) && k < |hs| && forall a, b :: 0 <= a < b < |hs| ==> hs[a].page != hs[b].page
    ensures Received(lists, hs)[hs[k].page] == Reversed(hs[k].requests) + lists[hs[k].page]
    decreases |hs|
  {
    var last := |hs| - 1;
    if k < last {
      ReceivedOne(lists, hs[..last], k);
    } else {
      ReceivedSkips(lists, hs[..last], hs[k].page);
    }
  }

  /** The handler of SEND_STATE, given that the bytes after the header are those of `hs`. It
      stops exactly at the end of the message. */
  method HandleSendState(src: seq<Byte>, lists: array<seq<Waiting>>, ghost hs: seq<Held>) returns (cursor: nat)
    requires ValidState(hs) && InRange(hs, lists.Length)
    requires |src| == HEADER_SIZE + |EncodeState(hs)| && At(src, HEADER_SIZE, EncodeState(hs))
    modifies lists
    ensures cursor == |src|
    ensures lists[..] == Received(old(lists[..]), hs)
  {
    hide At, EncodePages, EncodeNum, EncodeRequests, Received, PagesSize, Reversed;
    ghost var was := lists[..];
    var pages := ReadSize(src, HEADER_SIZE, |hs|, EncodePages(hs));
    cursor := HEADER_SIZE + SIZE_T;
    NothingReceived(was, hs);
    for i := 0 to pages
      invariant cursor + |EncodePages(hs[i..])| == |src| && At(src, cursor, EncodePages(hs[i..]))
      invariant lists[..] == Received(was, hs[..i])
    {
      FirstPage(hs[i..]);
      assert hs[i..][1..] == hs[i + 1..];
      var h := hs[i];
      Assoc(EncodeNum(h.page, SIZE_T), EncodeRequests(h.requests), EncodePages(hs[i + 1..]));
      var page := ReadSize(src, cursor, h.page, EncodeRequests(h.requests) + EncodePages(hs[i + 1..]));
      cursor := cursor + SIZE_T;
      AtSplit(src, cursor, EncodeRequests(h.requests), EncodePages(hs[i + 1..]));
      cursor := UnserializeRequests(src, cursor, lists, page, h.requests);
      ReceivedNext(was, hs, i);
    }
    assert hs[..pages] == hs;
    NothingLeft(hs);
  }

  lemma NothingReceived(lists: seq<seq<Waiting>>, hs: seq<Held>)
    ensures Received(lists, []) == lists && hs[..0] == [] && hs[0..] == hs
  {}

  lemma NothingLeft(hs: seq<Held>)
    ensures hs[|hs|..] == [] && EncodePages([]) == []
  {}

  lemma ReceivedNext(lists: seq<seq<Waiting>>, hs: seq<Held>, i: nat)
    requires InRange(hs, |lists|) && i < |hs|
    ensures var r := Received(lists, hs[..i]);
      Received(lists, hs[..i + 1]) == r[hs[i].page := Reversed(hs[i].requests) + r[hs[i].page]]
  {
    assert hs[..i + 1][..i] == hs[..i];
  }

  // --- The whole hand-over.

  predicate ValidLists(lists: seq<seq<Waiting>>) {
    |lists| < INT_LIMIT && forall p :: 0 <= p < |lists| ==> |lists[p]| < INT_LIMIT && ValidRequests(lists[p])
  }

  /** The pages below `k` whose token `me` has, with their lists, in ascending order. */
  function HeldBelow(lists: seq<seq<Waiting>>, tokens: seq<NodeId>, me: NodeId, k: nat): (hs: seq<Held>)
    requires |tokens| == |lists| && k <= |lists|
    ensures |hs| <= k && InRange(hs, k) && forall j :: 0 <= j < |hs| ==> hs[j].requests == lists[hs[j].page]
    ensures forall a, b :: 0 <= a < b < |hs| ==> hs[a].page < hs[b].page
    ensures forall p :: 0 <= p < k ==> (tokens[p] == me <==> Held(p, lists[p]) in hs)
  {
    if k == 0 then []
    else
      var hs := HeldBelow(lists, tokens, me, k - 1);
      if tokens[k - 1] == me then hs + [Held(k - 1, lists[k - 1])] else hs
  }

  lemma HeldIsValid(lists: seq<seq<Waiting>>, tokens: seq<NodeId>, me: NodeId)
    requires |tokens| == |lists| && ValidLists(lists)
    ensures ValidState(HeldBelow(lists, tokens, me, |lists|))
  {}

  method CollectHeld(lists: array<seq<Waiting>>, tokens: array<NodeId>, me: NodeId) returns (hs: seq<Held>)
    requires tokens.Length == lists.Length
    ensures hs == HeldBelow(lists[..], tokens[..], me, lists.Length)
  {
    hs := [];
    for i := 0 to lists.Length
      invariant hs == HeldBelow(lists[..], tokens[..], me, i)
    {
      if tokens[i] == me {
        hs := hs + [Held(i, lists[i])];
      }
    }
  }

  lemma ReceivedFrom(from: seq<seq<Waiting>>, tokens: seq<NodeId>, me: NodeId, lists: seq<seq<Waiting>>, p: nat)
    requires |tokens| == |from| == |lists| && p < |lists|
    ensures Received(lists, HeldBelow(from, tokens, me, |from|))[p]
         == if tokens[p] == me then Reversed(from[p]) + lists[p] else lists[p]
  {
    var hs := HeldBelow(from, tokens, me, |from|);
    if tokens[p] == me {
      var k :| 0 <= k < |hs| && hs[k] == Held(p, from[p]);
      ReceivedOne(lists, hs, k);
    } else {
      forall k | 0 <= k < |hs| ensures hs[k].page != p { assert hs[k] in hs; }
      ReceivedSkips(lists, hs, p);
    }
  }

  /** What a leaving node sends and its delegate receives: each page whose token the leaver has
      gets the leaver's list, reversed, before the delegate's own; every other page is left alone. */
  method HandOver(from: array<seq<Waiting>>, tokens: array<NodeId>, me: NodeId, lists: array<seq<Waiting>>)
    requires tokens.Length == from.Length == lists.Length && from != lists && ValidLists(from[..])
    modifies lists
    ensures forall p :: 0 <= p < lists.Length ==>
      lists[p] == if tokens[p] == me then Reversed(from[p]) + old(lists[p]) else old(lists[p])
  {
    hide EncodeState, PagesSize, RequestTotal, Received, At, ValidState;
    ghost var was := lists[..];
    var hs := CollectHeld(from, tokens, me);
    HeldIsValid(from[..], tokens[..], me);
    var message, size := BuildState(hs);
    SizeIsExact(hs);
    var cursor := HandleSendState(message[..], lists, hs);
    forall p | 0 <= p < lists.Length ensures lists[p] == if tokens[p] == me then Reversed(from[p]) + was[p] else was[p] {
      ReceivedFrom(from[..], tokens[..], me, was, p);
    }
  }
}
