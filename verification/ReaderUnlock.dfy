/**
 The way of an UNLOCK message from a reader to the node that has the token. Every node that
 passes it on sends it under its own name, so the token holder removes the request of the last
 sender and not that of the reader.
 */
module ReaderUnlock {
  import opened Nodes
  import opened PageLock

  /** A node that the message reaches, with its page at that moment. */
  datatype Hop = Hop(at: NodeId, page: Page)

  /** `m` and what the handlers make of it is delivered at these nodes, the last of which has the
      token. Whatever else happens in between, the pages are those at the deliveries. */
  predicate Journey(m: Message, hops: seq<Hop>)
    decreases |hops|
  {
    && m.UnlockPage? && hops != [] && m.dst == hops[0].at
    && if hops[0].page.haveToken == hops[0].at then |hops| == 1
       else
         var sent := OnUnlock(hops[0].page, hops[0].at, m.sender).sent;
         |sent| == 1 && Journey(sent[0], hops[1..])
  }

  function Last(hops: seq<Hop>): Hop
    requires hops != []
  {
    hops[|hops| - 1]
  }

  /** What the handler of the token holder does in the end. */
  function Arrival(m: Message, hops: seq<Hop>): Effect
    requires Journey(m, hops)
    decreases |hops|
  {
    var e := OnUnlock(hops[0].page, hops[0].at, m.sender);
    if |hops| == 1 then e else Arrival(e.sent[0], hops[1..])
  }

  /** The name under which the message arrives. */
  function Sender(reader: NodeId, hops: seq<Hop>): NodeId {
    if |hops| <= 1 then reader else hops[|hops| - 2].at
  }

  lemma {:induction false} ArrivalIs(m: Message, hops: seq<Hop>)
    requires Journey(m, hops)
    ensures Last(hops).page.haveToken == Last(hops).at
    ensures Arrival(m, hops) == LocalUnlock(Last(hops).page, Last(hops).at, Sender(m.sender, hops))
    decreases |hops|
  {
    hide LocalUnlock;
    if |hops| > 1 {
      ArrivalIs(OnUnlock(hops[0].page, hops[0].at, m.sender).sent[0], hops[1..]);
    }
  }

  /** The token holder takes off the list the first request of the last sender, and the writer
      that then comes first; every other request stays. */
  lemma JourneyConserves(m: Message, hops: seq<Hop>)
    requires Journey(m, hops)
    ensures var rs, x := Last(hops).page.requests, Sender(m.sender, hops);
      multiset(rs) == multiset(Arrival(m, hops).page.requests) + FirstOf(rs, x) + LeadingWriter(Remove(rs, x))
  {
    ArrivalIs(m, hops);
    LocalUnlockConserves(Last(hops).page, Last(hops).at, Sender(m.sender, hops));
  }

  lemma {:induction false} FirstOfIs(rs: seq<Request>, x: NodeId, r: NodeId)
    requires Request(r, Write) !in rs && Request(r, Read) in rs
    ensures FirstOf(rs, x)[Request(r, Read)] == if x == r then 1 else 0
  {
    assert rs == [rs[0]] + rs[1..] && rs[0] in rs;
    if rs[0].who == x {
      assert rs[0] == Request(x, rs[0].mode);
      assert rs[0].mode == Write ==> rs[0] == Request(x, Write);
      assert FirstOf(rs, x) == multiset{rs[0]};
    } else {
      if Request(r, Read) in rs[1..] {
        FirstOfIs(rs[1..], x, r);
      } else {
        assert rs[0] == Request(r, Read);
        OthersFirst(rs[1..], x, r);
      }
    }
  }

  lemma {:induction false} OthersFirst(rs: seq<Request>, x: NodeId, r: NodeId)
    requires Request(r, Read) !in rs
    ensures FirstOf(rs, x)[Request(r, Read)] == 0
  {
    if rs != [] && rs[0].who != x {
      OthersFirst(rs[1..], x, r);
    }
  }

  /** The unlock of a reader takes its request off the token holder's list if and only if the
      reader was the last to send the message, which it is when nobody had to pass it on. */
  lemma ReaderRemovedIff(reader: NodeId, hops: seq<Hop>)
    requires hops != [] && Journey(UnlockPage(hops[0].at, reader), hops)
    requires multiset(Last(hops).page.requests)[Request(reader, Read)] == 1 && Request(reader, Write) !in Last(hops).page.requests
    ensures Request(reader, Read) !in Arrival(UnlockPage(hops[0].at, reader), hops).page.requests
       <==> |hops| == 1 || hops[|hops| - 2].at == reader
  {
    hide Arrival, Journey, FirstOf, Remove;
    var m := UnlockPage(hops[0].at, reader);
    var rs, x, after := Last(hops).page.requests, Sender(reader, hops), Arrival(m, hops).page.requests;
    JourneyConserves(m, hops);
    assert Request(reader, Read) in rs;
    FirstOfIs(rs, x, reader);
    assert LeadingWriter(Remove(rs, x))[Request(reader, Read)] == 0;
    assert multiset(rs)[Request(reader, Read)] == multiset(after)[Request(reader, Read)] + FirstOf(rs, x)[Request(reader, Read)];
    assert Request(reader, Read) in after <==> Request(reader, Read) in multiset(after);
  }

  /** A reader whose unlock is passed on by a node that reads as well: the wrong request goes. */
  lemma ForwardedUnlockMisses()
    ensures exists reader, hops, m ::
      && Journey(m, hops) && m.sender == reader
      && multiset(Last(hops).page.requests)[Request(reader, Read)] == 1
      && Request(reader, Read) in Arrival(m, hops).page.requests
  {
    var R, F, H := Node("r", 1), Node("f", 2), Node("h", 3);
    var holder := Page(Reading, [Request(F, Read), Request(R, Read)], H, false, false, false);
    var passer := Page(Reading, [], H, false, false, false);
    var hops, m := [Hop(F, passer), Hop(H, holder)], UnlockPage(F, R);
    assert hops[1..] == [Hop(H, holder)];
    assert OnUnlock(passer, F, R).sent == [UnlockPage(H, F)];
    assert Journey(UnlockPage(H, F), hops[1..]);
    assert Journey(m, hops);
    assert Request(R, Read) in holder.requests && multiset(holder.requests)[Request(R, Read)] == 1;
    ReaderRemovedIff(R, hops);
  }
}
