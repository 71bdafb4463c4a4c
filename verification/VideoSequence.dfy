/** The video sequence counter of the event loop, `rtpseqno_video`. Frames move it by the number of
    packets sent, dummy packets by one, and each parameter set by one whatever it took to send it. */
module VideoSequence {
  import opened Rtp
  import opened SendFrame
  import opened Depacketizer
  import Division

  datatype Send = Frame(nal: seq<byte>, ts: uint32) | ParameterSet(ps: seq<byte>) | Dummy

  function Packets(s: Send, space: nat, sn: uint16): seq<Packet>
    requires 3 <= space
  {
    match s
    case Frame(nal, ts) => Fragments(nal, space, sn, ts)
    case ParameterSet(ps) => Fragments(ps, space, sn, 0)
    case Dummy => [Packet(false, H264, sn, 0, [])]
  }

  function Next(s: Send, space: nat, sn: uint16): uint16
    requires 3 <= space
  {
    if s.Frame? then Advance(sn, |Packets(s, space, sn)|) else Advance(sn, 1)
  }

  function Run(sends: seq<Send>, space: nat, sn: uint16): seq<Packet>
    requires 3 <= space
  {
    if sends == [] then []
    else Packets(sends[0], space, sn) + Run(sends[1..], space, Next(sends[0], space, sn))
  }

  function After(sends: seq<Send>, space: nat, sn: uint16): uint16
    requires 3 <= space
  {
    if sends == [] then sn else After(sends[1..], space, Next(sends[0], space, sn))
  }

  ghost predicate Consecutive(ps: seq<Packet>, sn: uint16) {
    forall i :: 0 <= i < |ps| ==> ps[i].sn == Advance(sn, i)
  }

  predicate FitsOnePacket(s: Send, space: nat) {
    s.ParameterSet? ==> 1 <= |s.ps| <= space
  }

  lemma OnePacketIff(n: nat, space: nat)
    requires 3 <= space
    ensures PacketCount(n, space) == 1 <==> 1 <= n <= space
  {
    if n > space {
      Division.CeilingStep(n, space - 2);
      if n - (space - 2) > space - 2 {
        Division.CeilingStep(n - (space - 2), space - 2);
      } else {
        Division.CeilingOfOne(n - (space - 2), space - 2);
      }
    }
  }

  /** A parameter set moves the counter by what it sends. */
  predicate MovesRight(s: Send, space: nat)
    requires 3 <= space
  {
    s.ParameterSet? ==> PacketCount(|s.ps|, space) % 0x1_0000 == 1
  }

  /** The counter names the next unused number after a send exactly when a parameter set takes one
      packet (or one more than a multiple of 65536). */
  lemma CounterFollowsIff(s: Send, space: nat, sn: uint16)
    requires 3 <= space
    ensures Consecutive(Packets(s, space, sn), sn)
    ensures Next(s, space, sn) == Advance(sn, |Packets(s, space, sn)|)
       <==> MovesRight(s, space)
  {
    hide Fragments, PacketCount, Advance;
    match s
    case Frame(nal, ts) => FragmentsNumbered(nal, space, sn, ts);
    case ParameterSet(ps) =>
      FragmentsNumbered(ps, space, sn, 0);
      OneOnIff(sn, PacketCount(|ps|, space));
    case Dummy => NothingIsConsecutive(sn);
  }

  lemma OneOnIff(sn: uint16, n: nat)
    ensures Advance(sn, 1) == Advance(sn, n) <==> n % 0x1_0000 == 1
  {
  }

  lemma ConsecutiveAppend(a: seq<Packet>, b: seq<Packet>, sn: uint16)
    requires Consecutive(a, sn) && Consecutive(b, Advance(sn, |a|))
    ensures Consecutive(a + b, sn)
    ensures Advance(Advance(sn, |a|), |b|) == Advance(sn, |a + b|)
  {
    hide Advance;
    AdvanceAdds(sn, |a|, |b|);
    forall i | 0 <= i < |a + b|
      ensures (a + b)[i].sn == Advance(sn, i)
    {
      if i >= |a| {
        assert (a + b)[i] == b[i - |a|];
        AdvanceAdds(sn, |a|, i - |a|);
      }
    }
  }

  lemma OnePacketCounts(s: Send, space: nat, sn: uint16)
    requires 3 <= space && FitsOnePacket(s, space)
    ensures Consecutive(Packets(s, space, sn), sn)
    ensures Next(s, space, sn) == Advance(sn, |Packets(s, space, sn)|)
  {
    hide Packets, Next, PacketCount;
    CounterFollowsIff(s, space, sn);
    if s.ParameterSet? {
      OnePacketIff(|s.ps|, space);
    }
  }

  /** What goes out for a parameter set of one packet: the set itself, whole and marked, at timestamp zero; and for
      a dummy an empty packet without the marker. */
  lemma SmallSendsAre(ps: seq<byte>, space: nat, sn: uint16)
    requires 3 <= space && 1 <= |ps| <= space
    ensures Packets(ParameterSet(ps), space, sn) == [Packet(true, 96, sn, 0, ps)]
    ensures Packets(Dummy, space, sn) == [Packet(false, 96, sn, 0, [])]
  {
  }

  /** Between seedings, over any list of sends whose parameter sets take one packet each, all video
      packets are numbered consecutively, wrapping at 65536, and the counter follows the last one. */
  lemma {:induction false} RunIsConsecutive(sends: seq<Send>, space: nat, sn: uint16)
    requires 3 <= space
    requires forall s :: s in sends ==> FitsOnePacket(s, space)
    ensures Consecutive(Run(sends, space, sn), sn)
    ensures After(sends, space, sn) == Advance(sn, |Run(sends, space, sn)|)
  {
    hide Packets, Next, Consecutive;
    if sends == [] {
      assert Consecutive([], sn) by { NothingIsConsecutive(sn); }
    } else {
      var s, next := sends[0], Next(sends[0], space, sn);
      assert s in sends;
      OnePacketCounts(s, space, sn);
      RunIsConsecutive(sends[1..], space, next);
      ConsecutiveAppend(Packets(s, space, sn), Run(sends[1..], space, next), sn);
    }
  }

  ghost predicate NextIsUnused(sends: seq<Send>, space: nat, sn: uint16)
    requires 3 <= space
  {
    After(sends, space, sn) == Advance(sn, |Run(sends, space, sn)|)
  }

  lemma SendFollowsIff(sends: seq<Send>, s: Send, space: nat, sn: uint16)
    requires 3 <= space && NextIsUnused(sends, space, sn)
    ensures NextIsUnused(sends + [s], space, sn) <==> MovesRight(s, space)
  {
    hide Packets, Next, Run, After, PacketCount;
    var n, a := After(sends, space, sn), |Run(sends, space, sn)|;
    RunOfSnoc(sends, s, space, sn);
    CounterFollowsIff(s, space, n);
    assert Advance(Advance(sn, a), |Packets(s, space, n)|) == Advance(sn, a + |Packets(s, space, n)|);
  }

  /** Over every run of sends: the counter is the next unused number all along exactly if every parameter set
      takes one packet, or one more than a multiple of 65536. */
  lemma {:induction false} CounterFollowsRunIff(sends: seq<Send>, space: nat, sn: uint16)
    requires 3 <= space
    ensures (forall k :: 0 <= k <= |sends| ==> NextIsUnused(sends[..k], space, sn))
       <==> forall s :: s in sends ==> MovesRight(s, space)
    decreases |sends|
  {
    hide NextIsUnused, MovesRight;
    if sends == [] {
      assert NextIsUnused(sends[..0], space, sn) by { NothingSent(space, sn); }
    } else {
      var n := |sends| - 1;
      var before, s := sends[..n], sends[n];
      CounterFollowsRunIff(before, space, sn);
      assert sends == before + [s] && sends[..n + 1] == sends;
      assert forall k :: 0 <= k <= n ==> sends[..k] == before[..k];
      assert before[..n] == before;
      if NextIsUnused(before, space, sn) {
        SendFollowsIff(before, s, space, sn);
      }
      assert forall x :: x in sends <==> x in before || x == s;
    }
  }

  lemma NothingSent(space: nat, sn: uint16)
    requires 3 <= space
    ensures NextIsUnused([], space, sn)
  {
  }

  lemma NothingIsConsecutive(sn: uint16)
    ensures Consecutive([], sn) && Advance(sn, 0) == sn
  {
  }

  /** An empty parameter set sends nothing and still moves the counter: whatever the budget and the number,
      the packet behind it leaves a gap. */
  lemma EmptyParameterSetLeavesGap(space: nat, sn: uint16)
    requires 3 <= space
    ensures var ps := Run([Dummy, ParameterSet([]), Dummy], space, sn);
      |ps| == 2 && ps[0].sn == sn && ps[1].sn == Advance(sn, 2)
  {
    var next := Advance(Advance(sn, 1), 1);
    assert Packets(ParameterSet([]), space, Advance(sn, 1)) == [];
    assert Run([Dummy], space, next) == Packets(Dummy, space, next) + [];
    assert [Dummy, ParameterSet([]), Dummy][1..] == [ParameterSet([]), Dummy];
    assert [ParameterSet([]), Dummy][1..] == [Dummy];
  }

  lemma {:induction false} RunOfSnoc(sends: seq<Send>, s: Send, space: nat, sn: uint16)
    requires 3 <= space
    ensures Run(sends + [s], space, sn) == Run(sends, space, sn) + Packets(s, space, After(sends, space, sn))
    ensures After(sends + [s], space, sn) == Next(s, space, After(sends, space, sn))
  {
    hide Packets, Next;
    if sends == [] {
      assert (sends + [s])[1..] == [];
    } else {
      assert (sends + [s])[1..] == sends[1..] + [s];
      RunOfSnoc(sends[1..], s, space, Next(sends[0], space, sn));
    }
  }

  lemma {:induction false} DatagramsOfAppend(a: seq<Packet>, b: seq<Packet>)
    ensures Datagrams(a + b) == Datagrams(a) + Datagrams(b)
  {
    if a == [] {
      assert a + b == b;
    } else {
      assert (a + b)[1..] == a[1..] + b;
      DatagramsOfAppend(a[1..], b);
    }
  }

  /** The event loop's sending side: its buffer, the video socket and the counter. The ghost fields
      record the sends since the last seeding. */
  class VideoSender {
    var rtpseqno: uint16
    const sendbuf: array<byte>
    const videofd: Socket
    ghost var seed: uint16
    ghost var log: seq<Send>
    ghost var base: nat

    /** What went out since the seeding is the run of the log, and the counter is where the run ends. */
    ghost predicate Valid()
      reads this, videofd
    {
      && 15 <= sendbuf.Length && base <= |videofd.sent|
      && videofd.sent[base..] == Datagrams(Run(log, sendbuf.Length - 12, seed))
      && rtpseqno == After(log, sendbuf.Length - 12, seed)
    }

    constructor (bufsize: nat, random: nat)
      requires 15 <= bufsize
      ensures Valid() && log == [] && seed == random % 1000000 % 0x1_0000
      ensures sendbuf.Length == bufsize && fresh(sendbuf) && fresh(videofd)
    {
      rtpseqno := random % 1000000 % 0x1_0000;
      sendbuf := new byte[bufsize];
      videofd := new Socket();
      seed, log, base := random % 1000000 % 0x1_0000, [], 0;
    }

    /** What each send does, for the contracts below. */
    twostate predicate Sent(s: Send)
      reads this, videofd
    {
      && Valid() && log == old(log) + [s] && seed == old(seed) && base == old(base)
      && 15 <= sendbuf.Length
      && videofd.sent == old(videofd.sent) + Datagrams(Packets(s, sendbuf.Length - 12, old(rtpseqno)))
    }

    ghost method Record(s: Send, sent: seq<seq<byte>>, sn: uint16)
      requires 15 <= sendbuf.Length && base <= |sent|
      requires sent[base..] == Datagrams(Run(log, sendbuf.Length - 12, seed))
      requires sn == After(log, sendbuf.Length - 12, seed)
      requires videofd.sent == sent + Datagrams(Packets(s, sendbuf.Length - 12, sn))
      requires rtpseqno == Next(s, sendbuf.Length - 12, sn)
      modifies `log
      ensures Valid() && log == old(log) + [s]
    {
      hide Run, After, Packets, Next, Datagrams;
      var space := sendbuf.Length - 12;
      RunOfSnoc(log, s, space, seed);
      DatagramsOfAppend(Run(log, space, seed), Packets(s, space, sn));
      assert videofd.sent[base..] == sent[base..] + Datagrams(Packets(s, space, sn));
      log := log + [s];
    }

    method SendFrameEvent(data: array<byte>, size: nat, ts: uint32)
      requires Valid() && data != sendbuf && 5 <= data.Length
      requires size <= data.Length && (size - 4 > sendbuf.Length - 12 ==> size < data.Length)
      modifies this, sendbuf, videofd
      ensures Sent(Frame(NalUnit(old(data[..]), size), ts))
    {
      ghost var s, sent, sn := Frame(NalUnit(data[..], size), ts), videofd.sent, rtpseqno;
      var n := SendVideoFrame(sendbuf, data, size, ts, videofd, rtpseqno);
      rtpseqno := Advance(rtpseqno, n);
      Record(s, sent, sn);
    }

    /** `create_sprop_frame` and the send. The frame holds the parameter set and no more, so one that is
        empty or needs fragmenting would have the packetiser read past it. */
    method SendParameterSet(ps: seq<byte>)
      requires Valid() && 1 <= |ps| <= sendbuf.Length - 12
      modifies this, sendbuf, videofd
      ensures Sent(ParameterSet(ps))
    {
      ghost var sent, sn := videofd.sent, rtpseqno;
      var data := new byte[|ps| + 4];
      forall k | 0 <= k < |ps| {
        data[k + 4] := ps[k];
      }
      assert NalUnit(data[..], |ps| + 4) == ps;
      var _ := SendVideoFrame(sendbuf, data, |ps| + 4, 0, videofd, rtpseqno);
      rtpseqno := Advance(rtpseqno, 1);
      Record(ParameterSet(ps), sent, sn);
    }

    method SendDummy()
      requires Valid()
      modifies this, sendbuf, videofd
      ensures Sent(Dummy)
    {
      ghost var sent, sn := videofd.sent, rtpseqno;
      rtpseqno := SendDummyRtp(sendbuf, videofd, rtpseqno);
      assert Datagrams([]) == [];
      Record(Dummy, sent, sn);
    }

    /** TEARDOWN draws a new number. */
    method Reseed(random: nat)
      requires Valid()
      modifies this
      ensures Valid() && log == [] && seed == (random % 1000000 + 7) % 0x1_0000
      ensures rtpseqno == seed && base == |videofd.sent|
    {
      rtpseqno := (random % 1000000 + 7) % 0x1_0000;
      seed, log, base := rtpseqno, [], |videofd.sent|;
    }

    /** The state of every sender that has only sent frames, dummies and parameter sets of one packet:
        a receiver reads consecutive numbers off the wire. */
    lemma WireIsConsecutive()
      requires Valid() && forall s :: s in log ==> FitsOnePacket(s, sendbuf.Length - 12)
      ensures ParseAll(videofd.sent[base..]).Some?
      ensures Consecutive(ParseAll(videofd.sent[base..]).value, seed)
      ensures rtpseqno == Advance(seed, |videofd.sent| - base)
    {
      hide Run, ParseAll, Consecutive, Datagrams;
      RunIsConsecutive(log, sendbuf.Length - 12, seed);
      ParseAllInvertsDatagrams(Run(log, sendbuf.Length - 12, seed));
      assert |videofd.sent[base..]| == |Run(log, sendbuf.Length - 12, seed)|;
    }
  }
}
