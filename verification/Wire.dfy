/**
 The bytes of numbers, node identifiers, lock requests and the DELEGATE message. A `size_t` has
 eight bytes, an `int` and an `enum` four, all little-endian; a host name has 46 bytes.
 */
module Wire {
  import opened PageLock

  type Byte = b: int | 0 <= b < 256

  const HOST_SIZE: nat := 46
  const NODEID_SIZE: nat := 50
  const REQUEST_SIZE: nat := 54
  const SIZE_T: nat := 8

  /** `sizeof(struct message)`: the type, the sender with two bytes of padding, four of padding. */
  const HEADER_SIZE: nat := 64

  datatype Peer = Peer(host: seq<Byte>, port: int) {
    predicate Valid() {
      |host| == HOST_SIZE && -0x8000_0000 <= port < 0x8000_0000
    }
  }

  /** A lock request as it travels. */
  datatype Waiting = Waiting(mode: LockType, who: Peer)

  predicate ValidRequests(rs: seq<Waiting>) {
    forall k :: 0 <= k < |rs| ==> rs[k].who.Valid()
  }

  // --- Numbers.

  function Pow256(w: nat): (r: nat)
    ensures r > 0
  {
    if w == 0 then 1 else 256 * Pow256(w - 1)
  }

  function EncodeNum(v: nat, w: nat): (r: seq<Byte>)
    ensures |r| == w
    decreases w
  {
    if w == 0 then [] else [v % 256] + EncodeNum(v / 256, w - 1)
  }

  function DecodeNum(b: seq<Byte>): nat {
    if b == [] then 0 else b[0] + 256 * DecodeNum(b[1..])
  }

  lemma {:induction false} NumRoundTrip(v: nat, w: nat)
    requires v < Pow256(w)
    ensures DecodeNum(EncodeNum(v, w)) == v
    decreases w
  {
    if w > 0 {
      NumRoundTrip(v / 256, w - 1);
      assert EncodeNum(v, w)[1..] == EncodeNum(v / 256, w - 1);
    }
  }

  lemma Widths()
    ensures Pow256(4) == 0x1_0000_0000 && Pow256(8) == 0x1_0000_0000_0000_0000
  {
    assert Pow256(2) == 0x1_0000;
    assert Pow256(4) == 256 * (256 * Pow256(2));
    assert Pow256(6) == 256 * (256 * Pow256(4));
    assert Pow256(8) == 256 * (256 * Pow256(6));
  }

  /** An `int` in two's complement. */
  function EncodeInt(v: int): (r: seq<Byte>)
    requires -0x8000_0000 <= v < 0x8000_0000
    ensures |r| == 4
  {
    EncodeNum(if v < 0 then v + 0x1_0000_0000 else v, 4)
  }

  function DecodeInt(b: seq<Byte>): int {
    var v := DecodeNum(b);
    if v < 0x8000_0000 then v else v - 0x1_0000_0000
  }

  lemma IntRoundTrip(v: int)
    requires -0x8000_0000 <= v < 0x8000_0000
    ensures DecodeInt(EncodeInt(v)) == v
  {
    Widths();
    NumRoundTrip(if v < 0 then v + 0x1_0000_0000 else v, 4);
  }

  // --- Nodes and requests.

  function EncodeNode(p: Peer): (r: seq<Byte>)
    requires p.Valid()
    ensures |r| == NODEID_SIZE
  {
    p.host + EncodeInt(p.port)
  }

  function DecodeNode(b: seq<Byte>): (p: Peer)
    requires |b| == NODEID_SIZE
    ensures |p.host| == HOST_SIZE
  {
    Peer(b[..HOST_SIZE], DecodeInt(b[HOST_SIZE..]))
  }

  lemma NodeRoundTrip(p: Peer)
    requires p.Valid()
    ensures DecodeNode(EncodeNode(p)) == p
  {
    IntRoundTrip(p.port);
    assert EncodeNode(p)[HOST_SIZE..] == EncodeInt(p.port);
  }

  function EncodeRequest(r: Waiting): (b: seq<Byte>)
    requires r.who.Valid()
    ensures |b| == REQUEST_SIZE
  {
    EncodeInt(if r.mode == Read then 0 else 1) + EncodeNode(r.who)
  }

  function DecodeRequest(b: seq<Byte>): Waiting
    requires |b| == REQUEST_SIZE
  {
    Waiting(if DecodeInt(b[..4]) == 0 then Read else Write, DecodeNode(b[4..]))
  }

  lemma RequestRoundTrip(r: Waiting)
    requires r.who.Valid()
    ensures DecodeRequest(EncodeRequest(r)) == r
  {
    IntRoundTrip(if r.mode == Read then 0 else 1);
    NodeRoundTrip(r.who);
    assert EncodeRequest(r)[..4] == EncodeInt(if r.mode == Read then 0 else 1);
    assert EncodeRequest(r)[4..] == EncodeNode(r.who);
  }

  // --- Copying into a buffer at a cursor.

  /** `src` replaces the bytes of `buf` from `at` on. */
  function Splice(buf: seq<Byte>, at: nat, src: seq<Byte>): (r: seq<Byte>)
    requires at + |src| <= |buf|
    ensures |r| == |buf|
  {
    buf[..at] + src + buf[at + |src|..]
  }

  /** The bytes `b` are in `src` from `at` on. */
  predicate At(src: seq<Byte>, at: nat, b: seq<Byte>) {
    at + |b| <= |src| && src[at..at + |b|] == b
  }

  lemma AtSplit(src: seq<Byte>, at: nat, a: seq<Byte>, b: seq<Byte>)
    requires At(src, at, a + b)
    ensures At(src, at, a) && At(src, at + |a|, b)
  {
    var c := src[at..at + |a| + |b|];
    assert src[at..at + |a|] == c[..|a|] == a;
    assert src[at + |a|..at + |a| + |b|] == c[|a|..] == b;
  }

  lemma SpliceTwice(buf: seq<Byte>, at: nat, a: seq<Byte>, b: seq<Byte>)
    requires at + |a| + |b| <= |buf|
    ensures Splice(Splice(buf, at, a), at + |a|, b) == Splice(buf, at, a + b)
  {}

  method Memcpy(dest: array<Byte>, at: nat, src: seq<Byte>) returns (next: nat)
    requires at + |src| <= dest.Length
    modifies dest
    ensures next == at + |src| && dest[..] == Splice(old(dest[..]), at, src)
  {
    for i := 0 to |src|
      invariant forall k :: at <= k < at + i ==> dest[k] == src[k - at]
      invariant forall k :: 0 <= k < at || at + i <= k < dest.Length ==> dest[k] == old(dest[k])
    {
      dest[at + i] := src[i];
    }
    return at + |src|;
  }

  method SerializeNode(dest: array<Byte>, at: nat, p: Peer) returns (next: nat)
    requires p.Valid() && at + NODEID_SIZE <= dest.Length
    modifies dest
    ensures next == at + NODEID_SIZE && dest[..] == Splice(old(dest[..]), at, EncodeNode(p))
  {
    var c := Memcpy(dest, at, p.host);
    next := Memcpy(dest, c, EncodeInt(p.port));
    SpliceTwice(old(dest[..]), at, p.host, EncodeInt(p.port));
  }

  method SerializeRequest(dest: array<Byte>, at: nat, r: Waiting) returns (next: nat)
    requires r.who.Valid() && at + REQUEST_SIZE <= dest.Length
    modifies dest
    ensures next == at + REQUEST_SIZE && dest[..] == Splice(old(dest[..]), at, EncodeRequest(r))
  {
    var mode := EncodeInt(if r.mode == Read then 0 else 1);
    var c := Memcpy(dest, at, mode);
    next := SerializeNode(dest, c, r.who);
    SpliceTwice(old(dest[..]), at, mode, EncodeNode(r.who));
  }

  method UnserializeNode(src: seq<Byte>, at: nat) returns (p: Peer, next: nat)
    requires at + NODEID_SIZE <= |src|
    ensures next == at + NODEID_SIZE
    ensures forall q: Peer :: q.Valid() && src[at..next] == EncodeNode(q) ==> p == q
  {
    p := Peer(src[at..at + HOST_SIZE], DecodeInt(src[at + HOST_SIZE..at + NODEID_SIZE]));
    next := at + NODEID_SIZE;
    assert src[at..next][..HOST_SIZE] == src[at..at + HOST_SIZE];
    assert src[at..next][HOST_SIZE..] == src[at + HOST_SIZE..next];
    assert p == DecodeNode(src[at..next]);
    forall q: Peer | q.Valid() && src[at..next] == EncodeNode(q) ensures p == q { NodeRoundTrip(q); }
  }

  method UnserializeRequest(src: seq<Byte>, at: nat) returns (r: Waiting, next: nat)
    requires at + REQUEST_SIZE <= |src|
    ensures next == at + REQUEST_SIZE
    ensures forall q: Waiting :: q.who.Valid() && At(src, at, EncodeRequest(q)) ==> r == q
  {
    var mode := DecodeInt(src[at..at + 4]);
    var who: Peer;
    who, next := UnserializeNode(src, at + 4);
    r := Waiting(if mode == 0 then Read else Write, who);
    forall q: Waiting | q.who.Valid() && At(src, at, EncodeRequest(q)) ensures r == q {
      RequestRoundTrip(q);
      assert src[at..next] == EncodeRequest(q);
      assert src[at..next][..4] == src[at..at + 4];
      assert src[at..next][4..] == src[at + 4..next];
      assert EncodeRequest(q)[4..] == EncodeNode(q.who);
    }
  }

  // --- The DELEGATE message: a header in the layout of the structure, then the packed delegate.

  datatype Delegate = Delegate(kind: nat, sender: Peer, delegate: Peer)

  /** `pad` are the bytes of the header that belong to no field. */
  function EncodeHeader(kind: nat, sender: Peer, pad: seq<Byte>): (r: seq<Byte>)
    requires sender.Valid() && |pad| == 6
    ensures |r| == HEADER_SIZE
  {
    EncodeNum(kind, SIZE_T) + sender.host + pad[..2] + EncodeInt(sender.port) + pad[2..]
  }

  function EncodeDelegate(m: Delegate, pad: seq<Byte>): (r: seq<Byte>)
    requires m.sender.Valid() && m.delegate.Valid() && |pad| == 6
    ensures |r| == HEADER_SIZE + NODEID_SIZE
  {
    EncodeHeader(m.kind, m.sender, pad) + EncodeNode(m.delegate)
  }

  function DecodeDelegate(b: seq<Byte>): Delegate
    requires |b| == HEADER_SIZE + NODEID_SIZE
  {
    Delegate(DecodeNum(b[..8]), Peer(b[8..54], DecodeInt(b[56..60])), DecodeNode(b[64..]))
  }

  lemma DelegateRoundTrip(m: Delegate, pad: seq<Byte>)
    requires m.sender.Valid() && m.delegate.Valid() && |pad| == 6 && m.kind < 0x1_0000_0000_0000_0000
    ensures DecodeDelegate(EncodeDelegate(m, pad)) == m
  {
    hide EncodeNum, DecodeNum, EncodeInt, DecodeInt, EncodeNode, DecodeNode, Pow256;
    Widths();
    NumRoundTrip(m.kind, SIZE_T);
    IntRoundTrip(m.sender.port);
    NodeRoundTrip(m.delegate);
    var b, h := EncodeDelegate(m, pad), EncodeHeader(m.kind, m.sender, pad);
    HeaderFields(EncodeNum(m.kind, SIZE_T), m.sender.host, pad[..2], EncodeInt(m.sender.port), pad[2..], h);
    assert b[..8] == h[..8] && b[8..54] == h[8..54] && b[56..60] == h[56..60];
    assert b[64..] == EncodeNode(m.delegate);
  }

  lemma HeaderFields(a: seq<Byte>, b: seq<Byte>, c: seq<Byte>, d: seq<Byte>, e: seq<Byte>, h: seq<Byte>)
    requires |a| == 8 && |b| == 46 && |c| == 2 && |d| == 4 && |e| == 4 && h == a + b + c + d + e
    ensures h[..8] == a && h[8..54] == b && h[56..60] == d
  {}
}
