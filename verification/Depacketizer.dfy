/** A receiver for the packetiser's output, written from the standards alone (sections 5.6 and 5.8 of
    RFC 6184), and what it gets back from `send_video_frame`.

    Two packetisers are compared with it: `Reference`, the fragmentation the standard describes, which
    the receiver inverts for every NAL unit; and `Fragments`, the packets of the loop as written, which
    it inverts exactly when the unit is not fragmented. */
module Depacketizer {
  import opened Wrappers
  import opened Rtp
  import opened SendFrame
  import opened Division

  /** The type field of a NAL unit's header. */
  function NalType(nal: seq<byte>): nat
    requires nal != []
  {
    nal[0] % 32
  }

  predicate IsFragment(p: Packet) {
    p.payloadType == H264 && |p.payload| >= 2 && p.payload[0] % 32 == FRAGMENT_TYPE
  }

  predicate Starts(p: Packet) { IsFragment(p) && p.payload[1] / 128 == 1 }

  predicate Ends(p: Packet) { IsFragment(p) && p.payload[1] / 64 % 2 == 1 }

  /** `p` continues the fragmented unit of `prev`: the next sequence number, the same timestamp, the
      same F, NRI and type, no start bit. */
  predicate Continues(prev: Packet, p: Packet)
    requires IsFragment(prev)
  {
    && IsFragment(p) && !Starts(p)
    && p.sn == Advance(prev.sn, 1) && p.ts == prev.ts
    && p.payload[0] == prev.payload[0] && p.payload[1] % 32 == prev.payload[1] % 32
  }

  /** The data of the fragments after `prev`, up to one with the end bit that must be the last. */
  function Collect(prev: Packet, ps: seq<Packet>): Option<seq<byte>>
    requires IsFragment(prev)
    decreases |ps|
  {
    if ps == [] || !Continues(prev, ps[0]) then None
    else if Ends(ps[0]) then if |ps| == 1 then Some(ps[0].payload[2..]) else None
    else
      match Collect(ps[0], ps[1..])
      case None => None
      case Some(more) => Some(ps[0].payload[2..] + more)
  }

  /** The NAL unit that the packets of one timestamp carry, if they carry exactly one. */
  function Depacketise(ps: seq<Packet>): Option<seq<byte>> {
    if ps == [] || ps[0].payloadType != H264 || ps[0].payload == [] then None
    else if 1 <= NalType(ps[0].payload) <= 23 then if |ps| == 1 then Some(ps[0].payload) else None
    else if Starts(ps[0]) && !Ends(ps[0]) then
      var first := ps[0].payload;
      match Collect(ps[0], ps[1..])
      case None => None
      case Some(more) => Some([first[0] - first[0] % 32 + first[1] % 32] + first[2..] + more)
    else None
  }

  /** The receiver on the wire. */
  function Receive(ds: seq<seq<byte>>): Option<seq<byte>> {
    match ParseAll(ds)
    case None => None
    case Some(ps) => Depacketise(ps)
  }

  lemma FragmentReadsBack(marker: bool, flag: nat, nalbyte: byte, data: seq<byte>, sn: uint16, ts: uint32)
    requires flag in {FU_START, FU_MIDDLE, FU_END}
    ensures var p := Packet(marker, H264, sn, ts, Fragment(flag, nalbyte, data));
      && IsFragment(p) && |p.payload| == 2 + |data| && p.payload[2..] == data
      && (Starts(p) <==> flag == FU_START) && (Ends(p) <==> flag == FU_END)
      && p.payload[0] == Indicator(nalbyte) && p.payload[1] % 32 == nalbyte % 32
      && p.payload[0] - p.payload[0] % 32 + p.payload[1] % 32 == nalbyte
  {
  }

  // ----- the fragmentation of RFC 6184 -----

  /** The fragments after the first, entered with `nal[from..]` still to be sent. */
  function ReferenceRest(nal: seq<byte>, space: nat, from: nat, sn: uint16, ts: uint32): seq<Packet>
    requires 3 <= space && 0 < from < |nal|
    decreases |nal| - from
  {
    if |nal| - from <= space - 2 then [Packet(true, H264, sn, ts, Fragment(FU_END, nal[0], nal[from..]))]
    else
      [Packet(false, H264, sn, ts, Fragment(FU_MIDDLE, nal[0], nal[from..from + space - 2]))]
      + ReferenceRest(nal, space, from + space - 2, Advance(sn, 1), ts)
  }

  function Reference(nal: seq<byte>, space: nat, sn: uint16, ts: uint32): seq<Packet>
    requires 3 <= space && nal != []
  {
    if |nal| <= space then [Packet(true, H264, sn, ts, nal)]
    else
      [Packet(false, H264, sn, ts, Fragment(FU_START, nal[0], nal[1..space - 1]))]
      + ReferenceRest(nal, space, space - 1, Advance(sn, 1), ts)
  }

  lemma Splice(s: seq<byte>, a: nat, b: nat, c: nat)
    requires a <= b <= c <= |s|
    ensures s[a..c] == s[a..b] + s[b..c]
  {
  }

  lemma {:induction false} ReferenceRestCollected(nal: seq<byte>, space: nat, from: nat, prev: Packet, sn: uint16, ts: uint32)
    requires 3 <= space && 0 < from < |nal|
    requires IsFragment(prev) && sn == Advance(prev.sn, 1) && ts == prev.ts
    requires prev.payload[0] == Indicator(nal[0]) && prev.payload[1] % 32 == nal[0] % 32
    ensures Collect(prev, ReferenceRest(nal, space, from, sn, ts)) == Some(nal[from..])
    decreases |nal| - from
  {
    hide Fragment;
    var ps := ReferenceRest(nal, space, from, sn, ts);
    if |nal| - from <= space - 2 {
      FragmentReadsBack(true, FU_END, nal[0], nal[from..], sn, ts);
    } else {
      var next := from + space - 2;
      FragmentReadsBack(false, FU_MIDDLE, nal[0], nal[from..next], sn, ts);
      ReferenceRestCollected(nal, space, next, ps[0], Advance(sn, 1), ts);
      assert ps[1..] == ReferenceRest(nal, space, next, Advance(sn, 1), ts);
      assert nal[from..] == nal[from..next] + nal[next..];
    }
  }

  /** Round trip of the standard's packetiser, for every NAL unit and budget. A unit sent whole must
      have a type that the standard allows there; a fragmented one may have any. */
  lemma ReferenceRoundTrip(nal: seq<byte>, space: nat, sn: uint16, ts: uint32)
    requires 3 <= space && nal != []
    ensures Receive(Datagrams(Reference(nal, space, sn, ts))) == Some(nal)
       <==> |nal| > space || 1 <= NalType(nal) <= 23
  {
    hide Fragment, Datagrams, ParseAll;
    var ps := Reference(nal, space, sn, ts);
    ParseAllInvertsDatagrams(ps);
    if |nal| > space {
      hide ReferenceRest, Collect;
      FragmentReadsBack(false, FU_START, nal[0], nal[1..space - 1], sn, ts);
      ReferenceRestCollected(nal, space, space - 1, ps[0], Advance(sn, 1), ts);
      assert ps[1..] == ReferenceRest(nal, space, space - 1, Advance(sn, 1), ts);
      assert nal == [nal[0]] + nal[1..space - 1] + nal[space - 1..];
    }
  }

  // ----- what a list of packets looks like from outside -----

  predicate IsMarked(p: Packet) { p.marker }

  /** `f` holds of the last packet and of no other. */
  ghost predicate OnlyLast(ps: seq<Packet>, f: Packet -> bool) {
    forall i :: 0 <= i < |ps| ==> (f(ps[i]) <==> i == |ps| - 1)
  }

  lemma OnlyLastOfCons(p: Packet, ps: seq<Packet>, f: Packet -> bool)
    requires ps != []
    ensures OnlyLast([p] + ps, f) <==> !f(p) && OnlyLast(ps, f)
  {
    var all := [p] + ps;
    assert all[0] == p && forall i :: 0 <= i < |ps| ==> all[i + 1] == ps[i];
    assert forall i :: 1 <= i < |all| ==> all[i] == ps[i - 1];
  }

  /** Consecutive sequence numbers from `sn`, one timestamp, no payload beyond the budget. */
  ghost predicate Numbered(ps: seq<Packet>, space: nat, sn: uint16, ts: uint32) {
    forall i :: 0 <= i < |ps| ==> ps[i].sn == Advance(sn, i) && ps[i].ts == ts && |ps[i].payload| <= space
  }

  lemma NumberedCons(p: Packet, ps: seq<Packet>, space: nat, sn: uint16, ts: uint32)
    requires p.sn == sn && p.ts == ts && |p.payload| <= space && Numbered(ps, space, Advance(sn, 1), ts)
    ensures Numbered([p] + ps, space, sn, ts)
  {
    var all := [p] + ps;
    forall i | 0 <= i < |all|
      ensures all[i].sn == Advance(sn, i) && all[i].ts == ts && |all[i].payload| <= space
    {
      if i > 0 {
        assert Advance(Advance(sn, 1), i - 1) == Advance(sn, i);
        assert all[i] == ps[i - 1];
      }
    }
  }

  /** The bytes behind the FU header, packet after packet. */
  function Data(ps: seq<Packet>): seq<byte> {
    if ps == [] then [] else (if |ps[0].payload| >= 2 then ps[0].payload[2..] else []) + Data(ps[1..])
  }

  lemma DataOfCons(p: Packet, ps: seq<Packet>)
    ensures Data([p] + ps) == (if |p.payload| >= 2 then p.payload[2..] else []) + Data(ps)
  {
    assert ([p] + ps)[1..] == ps;
  }

  // ----- the reference packetiser, packet by packet -----

  lemma {:induction false} ReferenceRestShape(nal: seq<byte>, space: nat, from: nat, sn: uint16, ts: uint32)
    requires 3 <= space && 0 < from < |nal|
    ensures var ps := ReferenceRest(nal, space, from, sn, ts);
      && ps != [] && Numbered(ps, space, sn, ts)
      && OnlyLast(ps, IsMarked) && OnlyLast(ps, Ends)
      && forall i :: 0 <= i < |ps| ==> !Starts(ps[i])
    decreases |nal| - from
  {
    hide Fragment;
    var ps := ReferenceRest(nal, space, from, sn, ts);
    if |nal| - from <= space - 2 {
      FragmentReadsBack(true, FU_END, nal[0], nal[from..], sn, ts);
    } else {
      var next := from + space - 2;
      var more := ReferenceRest(nal, space, next, Advance(sn, 1), ts);
      FragmentReadsBack(false, FU_MIDDLE, nal[0], nal[from..next], sn, ts);
      ReferenceRestShape(nal, space, next, Advance(sn, 1), ts);
      NumberedCons(ps[0], more, space, sn, ts);
      OnlyLastOfCons(ps[0], more, IsMarked);
      OnlyLastOfCons(ps[0], more, Ends);
    }
  }

  lemma {:induction false} ReferenceRestCount(nal: seq<byte>, space: nat, from: nat, sn: uint16, ts: uint32)
    requires 3 <= space && 0 < from < |nal|
    ensures |ReferenceRest(nal, space, from, sn, ts)| == Ceiling(|nal| - from, space - 2)
    decreases |nal| - from
  {
    hide Fragment, Ceiling;
    if |nal| - from <= space - 2 {
      CeilingOfOne(|nal| - from, space - 2);
    } else {
      ReferenceRestCount(nal, space, from + space - 2, Advance(sn, 1), ts);
      CeilingStep(|nal| - from, space - 2);
    }
  }

  /** A unit beyond the budget takes `ceil((n - 1) / (space - 2))` packets. The marker is on exactly the
      last packet; of a fragmented unit the start bit is on exactly the first packet and the end bit on
      exactly the last. */
  lemma ReferenceShape(nal: seq<byte>, space: nat, sn: uint16, ts: uint32)
    requires 3 <= space && nal != []
    ensures var ps := Reference(nal, space, sn, ts);
      && |ps| == (if |nal| <= space then 1 else Ceiling(|nal| - 1, space - 2))
      && Numbered(ps, space, sn, ts) && OnlyLast(ps, IsMarked)
      && (|nal| > space ==> OnlyLast(ps, Ends) && forall i :: 0 <= i < |ps| ==> (Starts(ps[i]) <==> i == 0))
  {
    hide Fragment, Ceiling;
    if |nal| > space {
      var ps := Reference(nal, space, sn, ts);
      var more := ReferenceRest(nal, space, space - 1, Advance(sn, 1), ts);
      FragmentReadsBack(false, FU_START, nal[0], nal[1..space - 1], sn, ts);
      ReferenceRestShape(nal, space, space - 1, Advance(sn, 1), ts);
      ReferenceRestCount(nal, space, space - 1, Advance(sn, 1), ts);
      CeilingStep(|nal| - 1, space - 2);
      NumberedCons(ps[0], more, space, sn, ts);
      OnlyLastOfCons(ps[0], more, IsMarked);
      OnlyLastOfCons(ps[0], more, Ends);
      assert forall i :: 1 <= i < |ps| ==> ps[i] == more[i - 1];
    }
  }

  // ----- the loop as written -----

  /** What `remains` is when the loop enters its last iteration. */
  function LastRemains(r: nat, space: nat): nat
    requires 3 <= space && 0 < r
  {
    if r <= space - 2 then r else LastRemains(r - (space - 2), space)
  }

  lemma {:induction false} LastRemainsIs(r: nat, space: nat)
    requires 3 <= space && 0 < r
    ensures LastRemains(r, space) == (r - 1) % (space - 2) + 1
  {
    if r > space - 2 {
      LastRemainsIs(r - (space - 2), space);
      DivisionStep(r - 1 - (space - 2), space - 2);
    } else {
      QuotientIsUnique(r - 1, space - 2, 0, r - 1);
    }
  }

  lemma CutFragment(flag: nat, nalbyte: byte, data: seq<byte>, k: nat)
    requires flag in {FU_START, FU_MIDDLE, FU_END} && 2 <= k <= 2 + |data|
    ensures Fragment(flag, nalbyte, data)[..k] == Fragment(flag, nalbyte, data[..k - 2])
  {
  }

  /** The data bytes that survive `buflen` in an iteration entered with `r` remaining. */
  function Kept(nal: seq<byte>, space: nat, r: nat): seq<byte>
    requires 3 <= space && 0 < r < |nal|
  {
    var from := 1 + |nal| - r;
    if r == 1 then []
    else if r <= space - 2 then nal[from..|nal| - 1]
    else if r == space - 1 then nal[from..from + space - 3]
    else nal[from..from + space - 2]
  }

  /** One packet of the later iterations as the receiver sees it. Entered with one byte remaining the
      loop sends a fragment cut off before its FU header. */
  lemma RestHead(nal: seq<byte>, space: nat, r: nat, sn: uint16, ts: uint32)
    requires 3 <= space && 0 < r < |nal|
    ensures var ps, flag := Rest(nal, space, r, sn, ts), if r <= space - 2 then FU_END else FU_MIDDLE;
      && ps == [ps[0]] + (if r <= space - 2 then [] else Rest(nal, space, r - (space - 2), Advance(sn, 1), ts))
      && ps[0] == Packet(r <= space, H264, sn, ts, if r == 1 then [Indicator(nal[0])] else Fragment(flag, nal[0], Kept(nal, space, r)))
      && |ps[0].payload| <= space
      && (r > 1 ==> IsFragment(ps[0]) && |ps[0].payload| >= 2 && ps[0].payload[2..] == Kept(nal, space, r))
      && !Starts(ps[0]) && (Ends(ps[0]) <==> 1 < r <= space - 2)
      && ps[0].payload[0] == Indicator(nal[0]) && (r > 1 ==> ps[0].payload[1] % 32 == nal[0] % 32)
  {
    if r > 1 {
      RestHeadIsCut(nal, space, r, sn, ts);
      hide Rest, Fragment, IsFragment, Starts, Ends, Indicator, Kept;
      FragmentReadsBack(r <= space, if r <= space - 2 then FU_END else FU_MIDDLE, nal[0], Kept(nal, space, r), sn, ts);
    }
  }

  lemma RestHeadIsCut(nal: seq<byte>, space: nat, r: nat, sn: uint16, ts: uint32)
    requires 3 <= space && 1 < r < |nal|
    ensures var ps, flag := Rest(nal, space, r, sn, ts), if r <= space - 2 then FU_END else FU_MIDDLE;
      && ps == [ps[0]] + (if r <= space - 2 then [] else Rest(nal, space, r - (space - 2), Advance(sn, 1), ts))
      && ps[0] == Packet(r <= space, H264, sn, ts, Fragment(flag, nal[0], Kept(nal, space, r)))
      && |Kept(nal, space, r)| <= space - 2
  {
    hide Fragment;
    var from, last, keep := 1 + |nal| - r, r <= space - 2, if r <= space then r else space;
    var flag, data := if last then FU_END else FU_MIDDLE, if last then nal[from..] else nal[from..from + space - 2];
    CutFragment(flag, nal[0], data, keep);
    assert data[..keep - 2] == Kept(nal, space, r);
  }

  lemma KeptThenRest(nal: seq<byte>, space: nat, r: nat)
    requires 3 <= space && space - 2 < r < |nal|
    ensures var next := r - (space - 2);
      nal[1 + |nal| - r..|nal| - 1] == Kept(nal, space, r) + if next == 1 then [] else nal[1 + |nal| - next..|nal| - 1]
  {
    if r >= space {
      Splice(nal, 1 + |nal| - r, 1 + |nal| - r + space - 2, |nal| - 1);
    }
  }

  lemma {:induction false} RestCollected(nal: seq<byte>, space: nat, r: nat, prev: Packet, sn: uint16, ts: uint32)
    requires 3 <= space && 0 < r < |nal|
    requires IsFragment(prev) && sn == Advance(prev.sn, 1) && ts == prev.ts
    requires prev.payload[0] == Indicator(nal[0]) && prev.payload[1] % 32 == nal[0] % 32
    ensures Collect(prev, Rest(nal, space, r, sn, ts))
         == if LastRemains(r, space) == 1 then None else Some(nal[1 + |nal| - r..|nal| - 1])
    decreases r
  {
    hide Rest, Fragment, Kept;
    var ps := Rest(nal, space, r, sn, ts);
    RestHead(nal, space, r, sn, ts);
    if r > space - 2 {
      var next := r - (space - 2);
      RestCollected(nal, space, next, ps[0], Advance(sn, 1), ts);
      assert ps[1..] == Rest(nal, space, next, Advance(sn, 1), ts);
      KeptThenRest(nal, space, r);
    } else if r > 1 {
      assert Kept(nal, space, r) == nal[1 + |nal| - r..|nal| - 1] by { KeptOfLast(nal, space, r); }
    }
  }

  lemma KeptOfLast(nal: seq<byte>, space: nat, r: nat)
    requires 3 <= space && 1 < r < |nal| && r <= space - 2
    ensures Kept(nal, space, r) == nal[1 + |nal| - r..|nal| - 1]
  {
  }

  lemma ReceivedByRemains(nal: seq<byte>, space: nat, sn: uint16, ts: uint32)
    requires 3 <= space < |nal|
    ensures Depacketise(Fragments(nal, space, sn, ts))
         == if LastRemains(|nal|, space) == 1 then None else Some(nal[..|nal| - 1])
  {
    hide Fragment, Rest, Collect;
    var ps, r := Fragments(nal, space, sn, ts), |nal| - (space - 2);
    FragmentReadsBack(false, FU_START, nal[0], nal[1..space - 1], sn, ts);
    RestCollected(nal, space, r, ps[0], Advance(sn, 1), ts);
    assert ps[1..] == Rest(nal, space, r, Advance(sn, 1), ts);
    assert nal[..|nal| - 1] == [nal[0]] + nal[1..space - 1] + nal[space - 1..|nal| - 1];
  }

  /** What the receiver gets, for every NAL unit and budget: the unit itself when it went out whole,
      the unit less its last byte when it was fragmented, and nothing when the last fragment was left
      without its FU header, because then no packet carries the end bit. */
  lemma WhatIsReceived(nal: seq<byte>, space: nat, sn: uint16, ts: uint32)
    requires 3 <= space && nal != []
    ensures Receive(Datagrams(Fragments(nal, space, sn, ts)))
         == if |nal| <= space then (if 1 <= NalType(nal) <= 23 then Some(nal) else None)
            else if (|nal| - 1) % (space - 2) == 0 then None
            else Some(nal[..|nal| - 1])
  {
    ParseAllInvertsDatagrams(Fragments(nal, space, sn, ts));
    if |nal| > space {
      hide Depacketise, Fragments, LastRemains, ParseAll;
      ReceivedByRemains(nal, space, sn, ts);
      LastRemainsIs(|nal|, space);
    }
  }

  /** The round trip holds exactly for the units that the loop does not fragment. */
  lemma RoundTripIffNotFragmented(nal: seq<byte>, space: nat, sn: uint16, ts: uint32)
    requires 3 <= space && nal != []
    ensures Receive(Datagrams(Fragments(nal, space, sn, ts))) == Some(nal)
       <==> |nal| <= space && 1 <= NalType(nal) <= 23
  {
    WhatIsReceived(nal, space, sn, ts);
  }

  /** `BUFSIZE` less the RTP header. */
  const BUDGET := 64000 - 12

  /** At the program's own budget: every unit one byte over it comes back short, and every unit of twice
      the fragments' space and one byte not at all, where the standard's packets bring both back whole. */
  lemma FragmentedUnitComesBackShort(nal: seq<byte>, sn: uint16, ts: uint32)
    requires |nal| == BUDGET + 1 || |nal| == 2 * (BUDGET - 2) + 1
    ensures Receive(Datagrams(Fragments(nal, BUDGET, sn, ts))) == if |nal| == BUDGET + 1 then Some(nal[..BUDGET]) else None
    ensures Receive(Datagrams(Reference(nal, BUDGET, sn, ts))) == Some(nal)
  {
    hide Fragments, Reference, Receive, Datagrams;
    WhatIsReceived(nal, BUDGET, sn, ts);
    ReferenceRoundTrip(nal, BUDGET, sn, ts);
  }

  lemma {:induction false} RestData(nal: seq<byte>, space: nat, r: nat, sn: uint16, ts: uint32)
    requires 3 <= space && 0 < r < |nal|
    ensures Data(Rest(nal, space, r, sn, ts)) == if r == 1 then [] else nal[1 + |nal| - r..|nal| - 1]
    decreases r
  {
    hide Rest, Data, Kept;
    if r <= space - 2 {
      LastData(nal, space, r, sn, ts);
    } else {
      RestData(nal, space, r - (space - 2), Advance(sn, 1), ts);
      MoreData(nal, space, r, sn, ts);
      KeptThenRest(nal, space, r);
    }
  }

  lemma LastData(nal: seq<byte>, space: nat, r: nat, sn: uint16, ts: uint32)
    requires 3 <= space && 0 < r < |nal| && r <= space - 2
    ensures Data(Rest(nal, space, r, sn, ts)) == if r == 1 then [] else nal[1 + |nal| - r..|nal| - 1]
  {
    hide Rest, Fragment, Kept, Data, IsFragment, Starts, Ends, Indicator;
    RestHead(nal, space, r, sn, ts);
    DataOfCons(Rest(nal, space, r, sn, ts)[0], []);
    DataOfNone();
    if r > 1 {
      KeptOfLast(nal, space, r);
    }
  }

  lemma MoreData(nal: seq<byte>, space: nat, r: nat, sn: uint16, ts: uint32)
    requires 3 <= space && space - 2 < r < |nal|
    ensures Data(Rest(nal, space, r, sn, ts))
         == Kept(nal, space, r) + Data(Rest(nal, space, r - (space - 2), Advance(sn, 1), ts))
  {
    hide Rest, Fragment, Kept, Data, IsFragment, Starts, Ends, Indicator;
    RestHead(nal, space, r, sn, ts);
    DataOfCons(Rest(nal, space, r, sn, ts)[0], Rest(nal, space, r - (space - 2), Advance(sn, 1), ts));
  }

  lemma DataOfNone()
    ensures Data([]) == []
  {
  }

  /** Of every fragmented unit the packets carry all bytes behind the NAL header but the last,
      each once and in order. */
  lemma FragmentsData(nal: seq<byte>, space: nat, sn: uint16, ts: uint32)
    requires 3 <= space < |nal|
    ensures Data(Fragments(nal, space, sn, ts)) == nal[1..|nal| - 1]
  {
    hide Rest, Fragment, Data;
    var ps, r := Fragments(nal, space, sn, ts), |nal| - (space - 2);
    FragmentReadsBack(false, FU_START, nal[0], nal[1..space - 1], sn, ts);
    RestData(nal, space, r, Advance(sn, 1), ts);
    DataOfCons(ps[0], Rest(nal, space, r, Advance(sn, 1), ts));
    Splice(nal, 1, space - 1, |nal| - 1);
  }

  lemma {:induction false} RestCount(nal: seq<byte>, space: nat, r: nat, sn: uint16, ts: uint32)
    requires 3 <= space && 0 < r < |nal|
    ensures |Rest(nal, space, r, sn, ts)| == Ceiling(r, space - 2)
    ensures Numbered(Rest(nal, space, r, sn, ts), space, sn, ts)
    decreases r
  {
    hide Rest, Fragment, Kept, Ceiling;
    var ps := Rest(nal, space, r, sn, ts);
    RestHead(nal, space, r, sn, ts);
    if r <= space - 2 {
      CeilingOfOne(r, space - 2);
    } else {
      var more := Rest(nal, space, r - (space - 2), Advance(sn, 1), ts);
      RestCount(nal, space, r - (space - 2), Advance(sn, 1), ts);
      NumberedCons(ps[0], more, space, sn, ts);
      CeilingStep(r, space - 2);
    }
  }

  /** The number of packets: `ceil(n / (space - 2))` for a fragmented unit, which is one more than
      needed whenever `n - 1` is a multiple of `space - 2`. */
  function PacketCount(n: nat, space: nat): nat
    requires 3 <= space
  {
    if n == 0 then 0 else if n <= space then 1 else Ceiling(n, space - 2)
  }

  /** Whatever the unit, the packets carry consecutive sequence numbers from the given one on. */
  lemma FragmentsNumbered(nal: seq<byte>, space: nat, sn: uint16, ts: uint32)
    requires 3 <= space
    ensures |Fragments(nal, space, sn, ts)| == PacketCount(|nal|, space)
    ensures Numbered(Fragments(nal, space, sn, ts), space, sn, ts)
  {
    hide Rest, Fragment, Ceiling;
    if |nal| > space {
      var ps, r := Fragments(nal, space, sn, ts), |nal| - (space - 2);
      FragmentReadsBack(false, FU_START, nal[0], nal[1..space - 1], sn, ts);
      RestCount(nal, space, r, Advance(sn, 1), ts);
      NumberedCons(ps[0], Rest(nal, space, r, Advance(sn, 1), ts), space, sn, ts);
      CeilingStep(|nal|, space - 2);
    }
  }

  lemma {:induction false} RestBits(nal: seq<byte>, space: nat, r: nat, sn: uint16, ts: uint32)
    requires 3 <= space && 0 < r < |nal|
    ensures OnlyLast(Rest(nal, space, r, sn, ts), IsMarked) <==> r <= space - 2 || LastRemains(r, space) > 2
    ensures OnlyLast(Rest(nal, space, r, sn, ts), Ends) <==> LastRemains(r, space) > 1
    ensures forall p :: p in Rest(nal, space, r, sn, ts) ==> !Starts(p)
    decreases r
  {
    hide Rest, Fragment, Kept, Starts, Ends;
    var ps := Rest(nal, space, r, sn, ts);
    RestHead(nal, space, r, sn, ts);
    if r > space - 2 {
      var more := Rest(nal, space, r - (space - 2), Advance(sn, 1), ts);
      RestBits(nal, space, r - (space - 2), Advance(sn, 1), ts);
      assert more != [] by { RestHead(nal, space, r - (space - 2), Advance(sn, 1), ts); }
      OnlyLastOfCons(ps[0], more, IsMarked);
      OnlyLastOfCons(ps[0], more, Ends);
    }
  }

  lemma BitsByRemains(nal: seq<byte>, space: nat, sn: uint16, ts: uint32)
    requires 3 <= space < |nal|
    ensures var ps := Fragments(nal, space, sn, ts);
      && (OnlyLast(ps, IsMarked) <==> LastRemains(|nal|, space) > 2)
      && (OnlyLast(ps, Ends) <==> LastRemains(|nal|, space) > 1)
      && forall i :: 0 <= i < |ps| ==> (Starts(ps[i]) <==> i == 0)
  {
    hide Rest, Fragment, OnlyLast;
    var ps, r := Fragments(nal, space, sn, ts), |nal| - (space - 2);
    var more := Rest(nal, space, r, Advance(sn, 1), ts);
    FragmentReadsBack(false, FU_START, nal[0], nal[1..space - 1], sn, ts);
    RestHead(nal, space, r, Advance(sn, 1), ts);
    RestBits(nal, space, r, Advance(sn, 1), ts);
    OnlyLastOfCons(ps[0], more, IsMarked);
    OnlyLastOfCons(ps[0], more, Ends);
    forall i | 0 <= i < |ps|
      ensures Starts(ps[i]) <==> i == 0
    {
      if i > 0 {
        assert ps[i] == more[i - 1] && more[i - 1] in more;
      }
    }
  }

  /** The marker is on exactly the last packet unless the unit is fragmented and leaves one or two
      bytes, by the loop's count, for its last iteration: then the packet before is marked too. Of a
      fragmented unit the start bit is on exactly the first packet, and the end bit on exactly the
      last unless `n - 1` is a multiple of `space - 2`, when it is on none. */
  lemma MarkerAndFragmentBits(nal: seq<byte>, space: nat, sn: uint16, ts: uint32)
    requires 3 <= space && nal != []
    ensures var ps := Fragments(nal, space, sn, ts);
      && (OnlyLast(ps, IsMarked) <==> |nal| <= space || (|nal| - 1) % (space - 2) >= 2)
      && (|nal| > space ==>
            && (OnlyLast(ps, Ends) <==> (|nal| - 1) % (space - 2) != 0)
            && forall i :: 0 <= i < |ps| ==> (Starts(ps[i]) <==> i == 0))
  {
    if |nal| > space {
      hide Fragments, OnlyLast, Starts, LastRemains;
      BitsByRemains(nal, space, sn, ts);
      LastRemainsIs(|nal|, space);
    }
  }

  /** The loop sends the packets of the standard exactly when it does not fragment. */
  lemma MatchesReferenceIffNotFragmented(nal: seq<byte>, space: nat, sn: uint16, ts: uint32)
    requires 3 <= space && nal != []
    ensures Fragments(nal, space, sn, ts) == Reference(nal, space, sn, ts) <==> |nal| <= space
  {
    hide Fragment, Rest, Receive;
    if |nal| > space {
      WhatIsReceived(nal, space, sn, ts);
      ReferenceRoundTrip(nal, space, sn, ts);
    }
  }
}
