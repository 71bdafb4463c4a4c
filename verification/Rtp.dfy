/** RTP packets as byte strings: the big-endian packers and the fixed 12-byte header
    (section 5.1 of RFC 3550) that every packet of the proxy starts with. */
module Rtp {
  import opened Wrappers

  type uint7 = x: int | 0 <= x < 0x80 witness 0
  type byte = x: int | 0 <= x < 0x100 witness 0
  type uint16 = x: int | 0 <= x < 0x1_0000 witness 0
  type uint32 = x: int | 0 <= x < 0x1_0000_0000 witness 0

  const SSRC: uint32 := 8472857
  const FIRST_BYTE: byte := 0x80
  const H264: uint7 := 96
  const PCMA: uint7 := 8

  /** Sequence numbers are C's `uint16_t`: adding wraps around. */
  function Advance(sn: uint16, n: nat): uint16 {
    (sn + n) % 0x1_0000
  }

  function Encode16(i: uint16): seq<byte> {
    [i / 0x100, i % 0x100]
  }

  function Encode32(i: uint32): seq<byte> {
    [i / 0x100_0000, i / 0x1_0000 % 0x100, i / 0x100 % 0x100, i % 0x100]
  }

  // A receiver's reading of network byte order, the partner of the two packers.
  function Decode16(b: seq<byte>): uint16
    requires |b| == 2
  {
    0x100 * (b[0] as int) + b[1]
  }

  function Decode32(b: seq<byte>): uint32
    requires |b| == 4
  {
    0x100_0000 * (b[0] as int) + 0x1_0000 * (b[1] as int) + 0x100 * (b[2] as int) + b[3]
  }

  lemma EncodingsAreInverse(i: uint16, j: uint32)
    ensures Decode16(Encode16(i)) == i
    ensures Decode32(Encode32(j)) == j
  {
    var a, b, c := j / 0x100_0000, j / 0x1_0000, j / 0x100;
    assert b / 0x100 == a;
    assert c / 0x100 == b;
  }

  /** `src >> i` for the four shift amounts the packing loop uses. */
  function ShiftRight(src: uint32, i: nat): (r: uint32)
    requires i in {0, 8, 16, 24}
  {
    if i == 24 then src / 0x100_0000 else if i == 16 then src / 0x1_0000 else if i == 8 then src / 0x100 else src
  }

  /** Overwrites `buf` from `at` on with two bytes, high byte first. */
  method PackI16(buf: array<byte>, at: nat, i: uint16)
    requires at + 2 <= buf.Length
    modifies buf
    ensures Decode16(buf[at..at + 2]) == i
    ensures buf[..] == old(buf[..at]) + Encode16(i) + old(buf[at + 2..])
  {
    var step := at;
    buf[step] := i / 0x100;
    step := step + 1;
    buf[step] := i % 0x100;
    assert buf[at..at + 2] == Encode16(i);
  }

  /** Overwrites `buf` from `at` on with four bytes, high byte first. */
  method Pack32I(buf: array<byte>, at: nat, src: uint32)
    requires at + 4 <= buf.Length
    modifies buf
    ensures Decode32(buf[at..at + 4]) == src
    ensures buf[..] == old(buf[..at]) + Encode32(src) + old(buf[at + 4..])
  {
    var step, i := at, 24;
    while i >= 0
      invariant i in {-8, 0, 8, 16, 24} && step == at + (24 - i) / 8
      invariant forall k :: 0 <= k < buf.Length && !(at <= k < step) ==> buf[k] == old(buf[k])
      invariant forall k :: 0 <= k < step - at ==> buf[at + k] == Encode32(src)[k]
    {
      buf[step] := ShiftRight(src, i) % 0x100;
      step := step + 1;
      i := i - 8;
    }
    assert buf[at..at + 4] == Encode32(src);
    EncodingsAreInverse(0, src);
  }

  /** `memcpy(dst + at, src + from, n)` between distinct objects. */
  method CopyBytes(dst: array<byte>, at: nat, src: array<byte>, from: nat, n: nat)
    requires dst != src
    requires at + n <= dst.Length && from + n <= src.Length
    modifies dst
    ensures dst[..] == old(dst[..at]) + src[from..from + n] + old(dst[at + n..])
  {
    forall k | 0 <= k < n {
      dst[at + k] := src[from + k];
    }
  }

  /** `0xe0`, `0x60` and `0x88` for the packets of this proxy. */
  function SecondByte(marker: bool, payloadType: uint7): byte {
    (if marker then 128 else 0) + payloadType
  }

  /** Version 2, no padding, no extension, no contributing sources; the marker is the second byte's
      high bit and the payload type the rest of it. */
  function Header(marker: bool, payloadType: uint7, sn: uint16, ts: uint32, source: uint32): (h: seq<byte>)
    ensures |h| == 12
  {
    [FIRST_BYTE, SecondByte(marker, payloadType)] + Encode16(sn) + Encode32(ts) + Encode32(source)
  }

  lemma AdvanceAdds(sn: uint16, a: nat, b: nat)
    ensures Advance(Advance(sn, a), b) == Advance(sn, a + b)
  {
  }

  /** A packet by its meaning; `Bytes` is what travels. */
  datatype Packet = Packet(marker: bool, payloadType: uint7, sn: uint16, ts: uint32, payload: seq<byte>) {
    function Bytes(): seq<byte> {
      Header(marker, payloadType, sn, ts, SSRC) + payload
    }
  }

  /** A receiver's reading of a datagram from this sender. */
  function Parse(b: seq<byte>): Option<Packet> {
    if |b| < 12 || b[0] != FIRST_BYTE || Decode32(b[8..12]) != SSRC then None
    else Some(Packet(b[1] >= 128, b[1] % 128, Decode16(b[2..4]), Decode32(b[4..8]), b[12..]))
  }

  /** Every field of the header, and the payload, survives the wire. */
  lemma ParseInvertsBytes(p: Packet)
    ensures Parse(p.Bytes()) == Some(p)
  {
    var b := p.Bytes();
    assert b[2..4] == Encode16(p.sn);
    assert b[4..8] == Encode32(p.ts);
    assert b[8..12] == Encode32(SSRC);
    assert b[12..] == p.payload;
    EncodingsAreInverse(p.sn, p.ts);
    EncodingsAreInverse(p.sn, SSRC);
  }

  /** The datagrams of a list of packets. */
  function Datagrams(ps: seq<Packet>): (ds: seq<seq<byte>>)
    ensures |ds| == |ps| && forall i :: 0 <= i < |ps| ==> ds[i] == ps[i].Bytes()
  {
    if ps == [] then [] else [ps[0].Bytes()] + Datagrams(ps[1..])
  }

  /** The packets of a list of datagrams, if all of them parse. */
  function ParseAll(ds: seq<seq<byte>>): Option<seq<Packet>> {
    if ds == [] then Some([])
    else
      match (Parse(ds[0]), ParseAll(ds[1..]))
      case (Some(p), Some(more)) => Some([p] + more)
      case _ => None
  }

  lemma {:induction false} ParseAllInvertsDatagrams(ps: seq<Packet>)
    ensures ParseAll(Datagrams(ps)) == Some(ps)
  {
    if ps != [] {
      ParseInvertsBytes(ps[0]);
      ParseAllInvertsDatagrams(ps[1..]);
      assert Datagrams(ps)[1..] == Datagrams(ps[1..]);
      assert ps == [ps[0]] + ps[1..];
    }
  }

  /** A UDP socket seen from the sender: `send_all` appends one datagram. */
  class Socket {
    var sent: seq<seq<byte>>

    constructor ()
      ensures sent == []
    {
      sent := [];
    }

    method SendAll(buf: array<byte>, size: nat)
      requires size <= buf.Length
      modifies this
      ensures sent == old(sent) + [buf[..size]]
    {
      sent := sent + [buf[..size]];
    }
  }
}
