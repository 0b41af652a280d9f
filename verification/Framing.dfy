/**
 Messages on a byte stream: each is preceded by its length, and both sides loop because the
 system may transfer fewer bytes than asked for.
 */
module Framing {
  import opened Wire

  /** Lengths are counted with an `int`; an empty message is never sent. */
  predicate Sendable(m: seq<Byte>) {
    0 < |m| < 0x8000_0000
  }

  predicate AllSendable(ms: seq<seq<Byte>>) {
    forall k :: 0 <= k < |ms| ==> Sendable(ms[k])
  }

  function Frame(m: seq<Byte>): seq<Byte> {
    EncodeNum(|m|, SIZE_T) + m
  }

  function Frames(ms: seq<seq<Byte>>): seq<Byte> {
    if ms == [] then [] else Frame(ms[0]) + Frames(ms[1..])
  }

  /** The bytes that were sent and not yet received; the sender closes it after a whole message. */
  class Stream {
    var bytes: seq<Byte>

    /** `send`: the system takes some of the bytes. */
    method Send(data: seq<Byte>) returns (n: nat)
      requires data != []
      modifies this
      ensures 0 < n <= |data| && bytes == old(bytes) + data[..n]
    {
      n :| 0 < n <= |data|;
      bytes := bytes + data[..n];
    }

    /** `recv`: the system delivers some of the bytes, none only at the end of the stream. */
    method Recv(size: nat) returns (data: seq<Byte>)
      requires size > 0
      modifies this
      ensures data + bytes == old(bytes) && |data| <= size
      ensures data == [] <==> old(bytes) == []
    {
      if bytes == [] {
        return [];
      }
      var n: nat :| 0 < n <= size && n <= |bytes|;
      data := bytes[..n];
      bytes := bytes[n..];
    }

    method SendAll(data: seq<Byte>)
      requires data != []
      modifies this
      ensures bytes == old(bytes) + data
    {
      var seek := Send(data);
      while seek < |data|
        invariant 0 < seek <= |data| && bytes == old(bytes) + data[..seek]
      {
        var n := Send(data[seek..]);
        assert data[..seek + n] == data[..seek] + data[seek..][..n];
        seek := seek + n;
      }
      assert data[..seek] == data;
    }

    method SendMessage(m: seq<Byte>)
      requires Sendable(m)
      modifies this
      ensures bytes == old(bytes) + Frame(m)
    {
      SendAll(EncodeNum(|m|, SIZE_T));
      SendAll(m);
      assert old(bytes) + EncodeNum(|m|, SIZE_T) + m == old(bytes) + Frame(m);
    }

    /** The first `steps` iterations of the loop of `Recv_all`, on any stream: `exited` says that
        the loop was left. A stream that ends inside the message is read to its end and then
        read again and again. */
    method RecvSteps(size: nat, steps: nat) returns (data: seq<Byte>, exited: bool)
      requires size > 0
      modifies this
      ensures data + bytes == old(bytes) && |data| <= size
      ensures exited ==> |data| == if old(bytes) == [] then 0 else size
      ensures steps >= size ==> (exited <==> old(bytes) == [] || size <= |old(bytes)|)
      ensures 0 < |old(bytes)| < size ==> !exited && (steps >= |old(bytes)| ==> data == old(bytes))
    {
      data, exited := [], false;
      for k := 0 to steps
        invariant data + bytes == old(bytes) && |data| <= size
        invariant exited ==> |data| == if old(bytes) == [] then 0 else size
        invariant !exited ==> |data| < size && (k > 0 ==> data != []) && (bytes == [] || k <= |data|)
      {
        if !exited {
          ghost var before := bytes;
          var more := Recv(size - |data|);
          assert data + before == (data + more) + bytes;
          if more == [] && data == [] {
            exited := true;
          } else {
            data := data + more;
            exited := !(size - |data| > 0);
          }
        }
      }
      assert bytes == [] ==> data == data + bytes;
    }

    /** `Recv_all` where its loop ends: returns no bytes at the end of the stream, otherwise as
        many as asked for. */
    method RecvAll(size: nat) returns (data: seq<Byte>)
      requires size > 0 && (bytes == [] || size <= |bytes|)
      modifies this
      ensures data + bytes == old(bytes) && |data| == if old(bytes) == [] then 0 else size
    {
      var exited;
      data, exited := RecvSteps(size, size);
    }

    /** The server's loop on one connection, given that the bytes are the frames of `sent`. */
    method Receive(ghost sent: seq<seq<Byte>>) returns (got: seq<seq<Byte>>)
      requires bytes == Frames(sent) && AllSendable(sent)
      modifies this
      ensures got == sent && bytes == []
    {
      got := [];
      while true
        invariant |got| <= |sent| && got == sent[..|got|] && bytes == Frames(sent[|got|..])
        decreases |sent| - |got|
      {
        ghost var k := |got|;
        FramesFrom(sent, k);
        var field := RecvAll(SIZE_T);
        if field == [] {
          return;
        }
        Prefix(field, bytes, EncodeNum(|sent[k]|, SIZE_T), sent[k] + Frames(sent[k + 1..]));
        Widths();
        NumRoundTrip(|sent[k]|, SIZE_T);
        var m := RecvAll(DecodeNum(field));
        Prefix(m, bytes, sent[k], Frames(sent[k + 1..]));
        got := got + [m];
      }
    }
  }

  // --- When the loop of `Recv_all` ends.

  /** The loop with `seek` bytes read and `left` bytes still to come before the stream ends. */
  datatype Loop = Reading(seek: nat, left: nat) | Exited(seek: nat)

  /** `recv` may return `n`. */
  predicate MayReturn(size: nat, r: Loop, n: nat) {
    r.Reading? && if r.left == 0 then n == 0 else 0 < n <= r.left && r.seek + n <= size
  }

  /** One iteration. */
  function Iterate(size: nat, r: Loop, n: nat): Loop
    requires MayReturn(size, r, n)
  {
    if n == 0 && r.seek == 0 then Exited(0)
    else if size - (r.seek + n) > 0 then Reading(r.seek + n, r.left - n)
    else Exited(r.seek + n)
  }

  predicate IsReading(size: nat, r: Loop, ns: seq<nat>)
    decreases |ns|
  {
    ns == [] || (MayReturn(size, r, ns[0]) && IsReading(size, Iterate(size, r, ns[0]), ns[1..]))
  }

  function AfterReading(size: nat, r: Loop, ns: seq<nat>): Loop
    requires IsReading(size, r, ns)
    decreases |ns|
  {
    if ns == [] then r else AfterReading(size, Iterate(size, r, ns[0]), ns[1..])
  }

  /** On a short stream the loop never ends, and `seek` never passes the bytes there were. */
  lemma {:induction false} ShortStreamNeverExits(size: nat, r: Loop, ns: seq<nat>)
    requires r.Reading? && r.seek + r.left < size && r.seek + r.left > 0 && IsReading(size, r, ns)
    ensures var t := AfterReading(size, r, ns); t.Reading? && t.seek + t.left == r.seek + r.left
    decreases |ns|
  {
    if ns != [] {
      ShortStreamNeverExits(size, Iterate(size, r, ns[0]), ns[1..]);
    }
  }

  /** Otherwise it ends after at most as many iterations as bytes are asked for. */
  lemma {:induction false} LongStreamExits(size: nat, r: Loop, ns: seq<nat>)
    requires r.Reading? && r.seek < size <= r.seek + r.left && IsReading(size, r, ns)
    ensures |ns| <= size - r.seek
    ensures |ns| == size - r.seek ==> AfterReading(size, r, ns) == Exited(size)
    decreases |ns|
  {
    if ns != [] {
      var t := Iterate(size, r, ns[0]);
      if t.Reading? {
        LongStreamExits(size, t, ns[1..]);
      } else {
        NothingAfterExit(size, t.seek, ns[1..]);
      }
    }
  }

  /** Some way of cutting the stream. */
  lemma {:induction false} OneByOne(size: nat, r: Loop) returns (ns: seq<nat>)
    requires r.Reading? && r.seek < size <= r.seek + r.left
    ensures IsReading(size, r, ns) && AfterReading(size, r, ns) == Exited(size)
    decreases size - r.seek
  {
    var t := Iterate(size, r, 1);
    if t.Reading? {
      ns := OneByOne(size, t);
      assert ([1] + ns)[1..] == ns;
      ns := [1] + ns;
    } else {
      ns := [1];
    }
  }

  /** With these bytes before the end of the stream, `ns` takes the loop to its exit. */
  predicate ReadsToExit(size: nat, left: nat, ns: seq<nat>) {
    IsReading(size, Reading(0, left), ns) && AfterReading(size, Reading(0, left), ns).Exited?
  }

  lemma SomeReadingExits(size: nat, left: nat) returns (ns: seq<nat>)
    requires size > 0 && (left == 0 || size <= left)
    ensures ReadsToExit(size, left, ns)
  {
    if left == 0 {
      ns := [0];
      assert [0][1..] == [];
      assert Iterate(size, Reading(0, 0), 0) == Exited(0);
    } else {
      ns := OneByOne(size, Reading(0, left));
    }
  }

  /** `Recv_all` can reach its exit if and only if the stream is at its end or holds all the
      bytes asked for. */
  lemma RecvExitsIff(size: nat, left: nat)
    requires size > 0
    ensures (exists ns :: ReadsToExit(size, left, ns)) <==> left == 0 || size <= left
  {
    if left == 0 || size <= left {
      var ns := SomeReadingExits(size, left);
    } else {
      forall ns ensures !ReadsToExit(size, left, ns) {
        if IsReading(size, Reading(0, left), ns) { ShortStreamNeverExits(size, Reading(0, left), ns); }
      }
    }
  }

  /** And then it does reach it, however the bytes come: it cannot go on for longer. */
  lemma RecvIsBounded(size: nat, left: nat, ns: seq<nat>)
    requires size > 0 && (left == 0 || size <= left) && IsReading(size, Reading(0, left), ns)
    ensures |ns| <= size
  {
    if left > 0 {
      LongStreamExits(size, Reading(0, left), ns);
    } else if ns != [] {
      assert Iterate(size, Reading(0, 0), ns[0]) == Exited(0);
      NothingAfterExit(size, 0, ns[1..]);
    }
  }

  lemma NothingAfterExit(size: nat, seek: nat, ns: seq<nat>)
    requires IsReading(size, Exited(seek), ns)
    ensures ns == []
  {}

  /** Three bytes of a length field: from the second iteration on `seek` stays at 3. */
  lemma {:induction false} StuckAtThree(k: nat)
    ensures var ns := [3] + seq(k, _ => 0);
      IsReading(SIZE_T, Reading(0, 3), ns) && AfterReading(SIZE_T, Reading(0, 3), ns) == Reading(3, 0)
  {
    var zeros := seq(k, _ => 0);
    assert ([3] + zeros)[1..] == zeros;
    StuckWithZeros(k);
  }

  lemma {:induction false} StuckWithZeros(k: nat)
    ensures var ns := seq(k, _ => 0);
      IsReading(SIZE_T, Reading(3, 0), ns) && AfterReading(SIZE_T, Reading(3, 0), ns) == Reading(3, 0)
  {
    if k > 0 {
      assert seq(k, _ => 0)[1..] == seq(k - 1, _ => 0);
      StuckWithZeros(k - 1);
    }
  }

  // --- Frames.

  lemma FramesFrom(ms: seq<seq<Byte>>, k: nat)
    requires k <= |ms|
    ensures k == |ms| ==> Frames(ms[k..]) == [] && ms[..k] == ms
    ensures k < |ms| ==> Frames(ms[k..]) == EncodeNum(|ms[k]|, SIZE_T) + (ms[k] + Frames(ms[k + 1..]))
    ensures k < |ms| ==> |Frames(ms[k..])| >= SIZE_T && ms[..k + 1] == ms[..k] + [ms[k]]
  {
    hide EncodeNum;
    if k < |ms| {
      var rest := ms[k..];
      assert rest[1..] == ms[k + 1..] && rest[0] == ms[k];
      assert Frames(rest) == Frame(rest[0]) + Frames(rest[1..]);
      Regroup(EncodeNum(|ms[k]|, SIZE_T), ms[k], Frames(ms[k + 1..]));
      assert ms[..k + 1] == ms[..k] + [ms[k]];
    } else {
      assert ms[k..] == [] && ms[..k] == ms;
    }
  }

  lemma Regroup(a: seq<Byte>, b: seq<Byte>, c: seq<Byte>)
    ensures (a + b) + c == a + (b + c)
  {}

  /** Equal bytes split at the same place have equal parts. */
  lemma Prefix(a: seq<Byte>, b: seq<Byte>, c: seq<Byte>, d: seq<Byte>)
    requires a + b == c + d && |a| == |c|
    ensures a == c && b == d
  {
    assert a == (a + b)[..|a|] && c == (c + d)[..|c|];
    assert b == (a + b)[|a|..] && d == (c + d)[|c|..];
  }

  /** However the stream is cut, the receiver gets the messages that were sent, in order. */
  method Exchange(ms: seq<seq<Byte>>) returns (got: seq<seq<Byte>>)
    requires AllSendable(ms)
    ensures got == ms
  {
    hide Frame;
    var stream := new Stream;
    stream.bytes := [];
    for i := 0 to |ms|
      invariant stream.bytes == Frames(ms[..i])
      invariant fresh(stream)
    {
      stream.SendMessage(ms[i]);
      FramesAppend(ms[..i], ms[i]);
      assert ms[..i + 1] == ms[..i] + [ms[i]];
    }
    assert ms[..|ms|] == ms;
    got := stream.Receive(ms);
  }

  lemma {:induction false} FramesAppend(ms: seq<seq<Byte>>, m: seq<Byte>)
    ensures Frames(ms + [m]) == Frames(ms) + Frame(m)
  {
    hide Frame;
    if ms == [] {
      assert ms + [m] == [m] && [m][1..] == [];
    } else {
      FramesAppend(ms[1..], m);
      assert (ms + [m])[1..] == ms[1..] + [m];
      assert Frame(ms[0]) + (Frames(ms[1..]) + Frame(m)) == Frame(ms[0]) + Frames(ms[1..]) + Frame(m);
    }
  }
}
