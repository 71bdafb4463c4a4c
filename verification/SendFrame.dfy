/** The H.264 packetiser: `send_video_frame`, `send_audio_frame` and `send_dummy_rtp`.

    A NAL unit that fits the payload budget travels alone (section 5.6 of RFC 6184); a larger one
    is cut into FU-A fragments (section 5.8 of RFC 6184). The functions `Fragments` and `Rest` state
    byte for byte what the loop hands to the socket, its accounting included: the loop skips the
    NAL header without taking it off `remains`, and `buflen` leaves out the two FU bytes. */
module SendFrame {
  import opened Rtp

  const FRAGMENT_TYPE: nat := 28
  const FU_START: nat := 128
  const FU_MIDDLE: nat := 0
  const FU_END: nat := 64

  /** `(nalbyte & 0xe0) | 0x1c`: F and NRI kept, the type replaced. */
  function Indicator(nalbyte: byte): byte {
    nalbyte - nalbyte % 32 + FRAGMENT_TYPE
  }

  /** `(flag << 5) | (nalbyte & 0x1f)`, the flag already shifted. */
  function FuHeader(flag: nat, nalbyte: byte): byte
    requires flag in {FU_START, FU_MIDDLE, FU_END}
  {
    flag + nalbyte % 32
  }

  /** The payload of one fragment as the loop builds it in the buffer, before `buflen` cuts it. */
  function Fragment(flag: nat, nalbyte: byte, data: seq<byte>): seq<byte>
    requires flag in {FU_START, FU_MIDDLE, FU_END}
  {
    [Indicator(nalbyte), FuHeader(flag, nalbyte)] + data
  }

  /** The packets of the iterations after the first, entered with `remains == r`. The loop counts
      the NAL header in `r`, so only `r - 1` bytes are left, from offset `1 + |nal| - r` on. */
  function Rest(nal: seq<byte>, space: nat, r: nat, sn: uint16, ts: uint32): (ps: seq<Packet>)
    requires 3 <= space && 0 < r < |nal|
    decreases r
  {
    var from := 1 + |nal| - r;
    if r <= space - 2 then
      [Packet(true, H264, sn, ts, Fragment(FU_END, nal[0], nal[from..])[..r])]
    else
      [Packet(r <= space, H264, sn, ts,
              Fragment(FU_MIDDLE, nal[0], nal[from..from + space - 2])[..if r <= space then r else space])]
      + Rest(nal, space, r - (space - 2), Advance(sn, 1), ts)
  }

  /** Everything sent for one NAL unit. */
  function Fragments(nal: seq<byte>, space: nat, sn: uint16, ts: uint32): (ps: seq<Packet>)
    requires 3 <= space
  {
    if nal == [] then []
    else if |nal| <= space then [Packet(true, H264, sn, ts, nal)]
    else
      [Packet(false, H264, sn, ts, Fragment(FU_START, nal[0], nal[1..space - 1]))]
      + Rest(nal, space, |nal| - (space - 2), Advance(sn, 1), ts)
  }

  /** The frame's NAL unit: what follows the four bytes of start code. */
  function NalUnit(data: seq<byte>, size: nat): seq<byte>
    requires size <= |data|
  {
    if size < 4 then [] else data[4..size]
  }

  /** Zeroes the buffer and writes the twelve header bytes, as each sender does first. */
  method StartPacket(buf: array<byte>, marker: bool, payloadType: uint7, sn: uint16, ts: uint32)
    requires buf.Length >= 12
    modifies buf
    ensures buf[..12] == Header(marker, payloadType, sn, ts, SSRC)
  {
    forall k | 0 <= k < buf.Length {
      buf[k] := 0;
    }
    buf[0] := FIRST_BYTE;
    buf[1] := SecondByte(marker, payloadType);
    PackI16(buf, 2, sn);
    Pack32I(buf, 4, ts);
    Pack32I(buf, 8, SSRC);
    assert buf[..12] == Header(marker, payloadType, sn, ts, SSRC);
  }

  /** At most `n` bytes of the unit from `from` on. */
  function Window(nal: seq<byte>, from: nat, n: nat): seq<byte>
    requires from <= |nal|
  {
    if from + n <= |nal| then nal[from..from + n] else nal[from..]
  }

  /** Writes the FU indicator, the FU header and `n` source bytes behind the RTP header. What `keep`
      retains of this payload comes from the NAL unit `data[4..size]` alone, even where the copy
      itself runs past `size`. */
  method FillFragment(buf: array<byte>, data: array<byte>, size: nat, flag: nat, from: nat, n: nat, ghost keep: nat)
    requires flag in {FU_START, FU_MIDDLE, FU_END}
    requires buf != data && 4 < size <= data.Length && 4 <= from <= size
    requires 14 + n <= buf.Length && from + n <= data.Length
    requires keep <= 2 + n && keep <= 2 + (size - from)
    modifies buf
    ensures buf[..12] == old(buf[..12])
    ensures buf[12..12 + keep] == Fragment(flag, data[4], Window(data[4..size], from - 4, n))[..keep]
  {
    var bufstep := 12;
    buf[bufstep] := Indicator(data[4]);
    bufstep := bufstep + 1;
    buf[bufstep] := FuHeader(flag, data[4]);
    bufstep := bufstep + 1;
    ghost var head := buf[..14];
    assert head == old(buf[..12]) + [Indicator(data[4]), FuHeader(flag, data[4])];
    CopyBytes(buf, bufstep, data, from, n);
    ghost var all, d := buf[..], data[..];
    assert d[from..from + n] == data[from..from + n] && d[4..size] == data[4..size];
    KeptFragment(all, head[..12], flag, d, size, from, n, keep);
    assert buf[..12] == all[..12] && buf[12..12 + keep] == all[12..12 + keep];
  }

  lemma KeptFragment(all: seq<byte>, header: seq<byte>, flag: nat, d: seq<byte>, size: nat, from: nat, n: nat, keep: nat)
    requires flag in {FU_START, FU_MIDDLE, FU_END}
    requires |header| == 12 && 4 < size <= |d| && 4 <= from <= size && from + n <= |d|
    requires keep <= 2 + n && keep <= 2 + (size - from)
    requires header + [Indicator(d[4]), FuHeader(flag, d[4])] + d[from..from + n] <= all
    ensures all[..12] == header
    ensures all[12..12 + keep] == Fragment(flag, d[4], Window(d[4..size], from - 4, n))[..keep]
  {
    var two := [Indicator(d[4]), FuHeader(flag, d[4])];
    hide Indicator, FuHeader;
    var copied, window := d[from..from + n], Window(d[4..size], from - 4, n);
    assert |copied| == n && |window| == if from + n <= size then n else size - from;
    forall k | 0 <= k < keep - 2
      ensures copied[k] == window[k]
    {
      assert window[k] == d[4..size][from - 4 + k];
      assert copied[k] == d[from + k] == d[4..size][from - 4 + k];
    }
    KeptBytes(all, header, two, copied, window, keep);
  }

  /** Two payloads that agree as far as `keep` reaches. */
  lemma KeptBytes(all: seq<byte>, header: seq<byte>, two: seq<byte>, copied: seq<byte>, window: seq<byte>, keep: nat)
    requires |two| == 2 && header + two + copied <= all && keep <= 2 + |copied| && keep <= 2 + |window|
    requires forall k :: 0 <= k < keep - 2 ==> copied[k] == window[k]
    ensures all[..|header|] == header && all[|header|..|header| + keep] == (two + window)[..keep]
  {
    var whole := header + (two + copied);
    assert header + two + copied == whole;
    assert all[|header|..|header| + keep] == whole[|header|..|header| + keep] == (two + copied)[..keep];
    assert (two + copied)[..keep] == (two + window)[..keep];
  }

  // ----- the loop -----

  /** What is still to be sent at the loop's head. */
  ghost function ToSend(nal: seq<byte>, space: nat, first: bool, remains: nat, sn: uint16, ts: uint32): seq<Packet>
    requires 3 <= space && (!first ==> remains < |nal|)
  {
    if first then Fragments(nal, space, sn, ts)
    else if remains == 0 then []
    else Rest(nal, space, remains, sn, ts)
  }

  lemma FirstFragmentIsNext(nal: seq<byte>, space: nat, sn: uint16, ts: uint32)
    requires 3 <= space < |nal|
    ensures ToSend(nal, space, true, |nal|, sn, ts)
         == [Packet(false, H264, sn, ts, Fragment(FU_START, nal[0], Window(nal, 1, space - 2))[..space])]
            + ToSend(nal, space, false, |nal| - (space - 2), Advance(sn, 1), ts)
  {
    var f := Fragment(FU_START, nal[0], Window(nal, 1, space - 2));
    assert |f| == space;
    hide Fragment, Window, Rest;
    assert f[..space] == f;
  }

  lemma LaterFragmentIsNext(nal: seq<byte>, space: nat, r: nat, sn: uint16, ts: uint32)
    requires 3 <= space && 0 < r < |nal|
    ensures var last := r <= space - 2;
      var taken, keep := if last then r else space - 2, if r <= space then r else space;
      var flag := if last then FU_END else FU_MIDDLE;
      ToSend(nal, space, false, r, sn, ts)
      == [Packet(r <= space, H264, sn, ts, Fragment(flag, nal[0], Window(nal, 1 + |nal| - r, taken))[..keep])]
         + ToSend(nal, space, false, r - taken, Advance(sn, 1), ts)
  {
    var from := 1 + |nal| - r;
    assert Window(nal, from, if r <= space - 2 then r else space - 2)
        == if r <= space - 2 then nal[from..] else nal[from..from + space - 2];
    hide Fragment, Window;
    if r <= space - 2 {
      var only := Rest(nal, space, r, sn, ts);
      assert only == only + [];
    }
  }

  /** The test for fragmenting: a quotient of two integers. */
  method NeedsFragmenting(space: nat, remains: nat) returns (b: bool)
    requires remains > 0
    ensures b <==> space < remains
  {
    b := space / remains < 1;
  }

  /** What is still to be sent, as datagrams. */
  ghost function Pending(nal: seq<byte>, space: nat, first: bool, remains: nat, sn: uint16, ts: uint32): seq<seq<byte>>
    requires 3 <= space && (!first ==> remains < |nal|)
  {
    Datagrams(ToSend(nal, space, first, remains, sn, ts))
  }

  lemma PendingHead(nal: seq<byte>, space: nat, first: bool, remains: nat, sn: uint16, ts: uint32,
                    p: Packet, left: nat, bytes: seq<byte>)
    requires 3 <= space && (!first ==> remains < |nal|) && left < |nal|
    requires ToSend(nal, space, first, remains, sn, ts) == [p] + ToSend(nal, space, false, left, Advance(sn, 1), ts)
    requires |bytes| >= 12 && bytes[..12] + bytes[12..] == p.Bytes()
    ensures Pending(nal, space, first, remains, sn, ts)
         == [bytes] + Pending(nal, space, false, left, Advance(sn, 1), ts)
  {
    var ps := ToSend(nal, space, first, remains, sn, ts);
    assert ps[0] == p && ps[1..] == ToSend(nal, space, false, left, Advance(sn, 1), ts);
    assert bytes == bytes[..12] + bytes[12..];
  }

  lemma PendingEnds(nal: seq<byte>, space: nat, sn: uint16, ts: uint32, end: uint16)
    requires 3 <= space
    ensures Pending(nal, space, true, |nal|, sn, ts) == Datagrams(Fragments(nal, space, sn, ts))
    ensures nal == [] ==> Fragments(nal, space, sn, ts) == []
    ensures nal != [] ==> Pending(nal, space, false, 0, end, ts) == []
  {
  }

  /** The body of the first iteration: the whole unit, or its first fragment. */
  method FirstPacket(buf: array<byte>, data: array<byte>, size: nat, buflen: nat, ghost ts: uint32, ghost sn: uint16)
    returns (left: nat, step: nat)
    requires buf != data && 15 <= buf.Length && 4 < size <= data.Length
    requires buflen == if size - 4 <= buf.Length - 12 then size - 4 + 12 else buf.Length
    requires buf[..12] == Header(size - 4 <= buf.Length - 12, H264, sn, ts, SSRC)
    modifies buf
    ensures left < size - 4 && (left > 0 ==> buf.Length - 12 < size - 4 && step == 1 + size - left)
    ensures Pending(data[4..size], buf.Length - 12, true, size - 4, sn, ts)
         == [buf[..buflen]] + Pending(data[4..size], buf.Length - 12, false, left, Advance(sn, 1), ts)
  {
    hide Fragment, Header, Pending;
    var spaceForData := buf.Length - 12;
    left, step := size - 4, 4;
    ghost var nal := data[4..size];
    ghost var p;
    var fragment := NeedsFragmenting(spaceForData, left);
    if fragment {
      step := step + 1;
      FillFragment(buf, data, size, FU_START, step, spaceForData - 2, spaceForData);
      left := left - (spaceForData - 2);
      step := step + (spaceForData - 2);
      FirstFragmentIsNext(nal, spaceForData, sn, ts);
      p := ToSend(nal, spaceForData, true, |nal|, sn, ts)[0];
      hide ToSend;
    } else {
      CopyBytes(buf, 12, data, step, left);
      left := left - left;
      p := Packet(true, H264, sn, ts, nal);
      assert buf[..12] == Header(true, H264, sn, ts, SSRC);
      assert buf[12..buflen] == nal;
    }
    assert buf[..buflen][..12] == buf[..12] && buf[..buflen][12..] == buf[12..buflen];
    PendingHead(nal, spaceForData, true, |nal|, sn, ts, p, left, buf[..buflen]);
  }

  /** The body of a later iteration: the last fragment or one in between. */
  method LaterPacket(buf: array<byte>, data: array<byte>, size: nat, buflen: nat, remains: nat, datastep: nat,
                     ghost ts: uint32, ghost sn: uint16)
    returns (left: nat, step: nat)
    requires buf != data && 15 <= buf.Length && 4 < size < data.Length
    requires 0 < remains < size - 4 && buf.Length - 12 < size - 4 && datastep == 1 + size - remains
    requires buflen == if remains <= buf.Length - 12 then remains + 12 else buf.Length
    requires buf[..12] == Header(remains <= buf.Length - 12, H264, sn, ts, SSRC)
    modifies buf
    ensures left < remains && (left > 0 ==> step == 1 + size - left)
    ensures Pending(data[4..size], buf.Length - 12, false, remains, sn, ts)
         == [buf[..buflen]] + Pending(data[4..size], buf.Length - 12, false, left, Advance(sn, 1), ts)
  {
    hide Fragment, Header, Pending, ToSend;
    var spaceForData := buf.Length - 12;
    left, step := remains, datastep;
    ghost var nal := data[4..size];
    if remains <= spaceForData - 2 {
      FillFragment(buf, data, size, FU_END, step, remains, buflen - 12);
      left := left - remains;
    } else {
      FillFragment(buf, data, size, FU_MIDDLE, step, spaceForData - 2, buflen - 12);
      left := left - (spaceForData - 2);
      step := step + (spaceForData - 2);
    }
    LaterFragmentIsNext(nal, spaceForData, remains, sn, ts);
    ghost var p := ToSend(nal, spaceForData, false, remains, sn, ts)[0];
    assert buf[..buflen][..12] == buf[..12] && buf[..buflen][12..] == buf[12..buflen];
    PendingHead(nal, spaceForData, false, remains, sn, ts, p, left, buf[..buflen]);
  }

  /** The packetising loop, for a frame that holds at least the start code. */
  method SendPackets(buf: array<byte>, data: array<byte>, size: nat, ts: uint32, sock: Socket, seqnum: uint16)
    returns (numpkts: nat)
    requires buf != data && 15 <= buf.Length
    requires 4 <= size <= data.Length && 5 <= data.Length
    requires size - 4 > buf.Length - 12 ==> size < data.Length
    modifies buf, sock
    ensures sock.sent == old(sock.sent) + Datagrams(Fragments(data[4..size], buf.Length - 12, seqnum, ts))
    ensures numpkts == |sock.sent| - |old(sock.sent)|
  {
    hide Pending;
    hide Fragments;
    var spaceForData := buf.Length - 12;
    var remains, datastep, sn, firstpacket := size - 4, 4, seqnum, true;
    ghost var nal := data[4..size];
    ghost var todo := Pending(nal, spaceForData, true, remains, seqnum, ts);
    numpkts := 0;
    while remains > 0
      invariant numpkts == |sock.sent| - |old(sock.sent)|
      invariant firstpacket ==> remains == size - 4 && datastep == 4
      invariant !firstpacket ==> 0 <= remains < size - 4
      invariant !firstpacket && remains > 0 ==> size - 4 > spaceForData && datastep == 1 + size - remains
      invariant todo == Pending(nal, spaceForData, firstpacket, remains, sn, ts)
      invariant sock.sent + todo == old(sock.sent) + Pending(nal, spaceForData, true, size - 4, seqnum, ts)
    {
      assert nal == data[4..size];
      var buflen, marker;
      if remains <= spaceForData {
        buflen, marker := remains + 12, true;
      } else {
        buflen, marker := spaceForData + 12, false;
      }
      StartPacket(buf, marker, H264, sn, ts);
      if firstpacket {
        firstpacket := false;
        remains, datastep := FirstPacket(buf, data, size, buflen, ts, sn);
      } else {
        remains, datastep := LaterPacket(buf, data, size, buflen, remains, datastep, ts, sn);
      }
      sn := Advance(sn, 1);
      ghost var sofar, next := sock.sent, Pending(nal, spaceForData, false, remains, sn, ts);
      sock.SendAll(buf, buflen);
      assert sock.sent + next == sofar + todo;
      todo := next;
      numpkts := numpkts + 1;
    }
    PendingEnds(nal, spaceForData, seqnum, ts, sn);
    assert sock.sent + [] == sock.sent;
  }

  /** Sends the frame's NAL unit and returns the number of packets. The budget is the buffer less the
      RTP header; a size below four leaves nothing to send. When the unit is fragmented the last copy
      reads one byte past it, so the allocation must hold that byte; it is never sent: the packets
      depend on the NAL unit alone. */
  method SendVideoFrame(buf: array<byte>, data: array<byte>, size: nat, ts: uint32, sock: Socket, seqnum: uint16)
    returns (numpkts: nat)
    requires buf != data && 15 <= buf.Length
    requires size <= data.Length && 5 <= data.Length
    requires size - 4 > buf.Length - 12 ==> size < data.Length
    modifies buf, sock
    ensures sock.sent == old(sock.sent) + Datagrams(Fragments(NalUnit(data[..], size), buf.Length - 12, seqnum, ts))
    ensures numpkts == |Fragments(NalUnit(old(data[..]), size), buf.Length - 12, seqnum, ts)|
  {
    numpkts := 0;
    if size > 4 {
      assert NalUnit(data[..], size) == data[4..size];
      numpkts := SendPackets(buf, data, size, ts, sock, seqnum);
    }
  }

  /** One audio packet: marker set, the whole frame as payload. */
  method SendAudioFrame(buf: array<byte>, data: array<byte>, size: nat, ts: uint32, sock: Socket, seqnum: uint16)
    returns (numpkts: nat)
    requires buf != data && size <= data.Length && size + 12 <= buf.Length
    modifies buf, sock
    ensures numpkts == 1
    ensures sock.sent == old(sock.sent) + [Packet(true, PCMA, seqnum, ts, data[..size]).Bytes()]
  {
    StartPacket(buf, true, PCMA, seqnum, ts);
    CopyBytes(buf, 12, data, 0, size);
    assert buf[..size + 12] == Header(true, PCMA, seqnum, ts, SSRC) + data[..size];
    sock.SendAll(buf, size + 12);
    numpkts := 1;
  }

  /** An empty video packet that keeps the client waiting; the caller's counter moves by one. */
  method SendDummyRtp(buf: array<byte>, sock: Socket, seqnum: uint16) returns (next: uint16)
    requires 12 <= buf.Length
    modifies buf, sock
    ensures next == Advance(seqnum, 1)
    ensures sock.sent == old(sock.sent) + [Packet(false, H264, seqnum, 0, []).Bytes()]
  {
    StartPacket(buf, false, H264, seqnum, 0);
    assert buf[..12] == Packet(false, H264, seqnum, 0, []).Bytes();
    sock.SendAll(buf, 12);
    next := Advance(seqnum, 1);
  }
}
