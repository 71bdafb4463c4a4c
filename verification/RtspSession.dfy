/** The RTSP client state of `start_server` over whole runs: which requests are answered in which state,
    and with which CSeq. A run's history is kept in `log`. */
module RtspSession {
  import opened Wrappers
  import opened CStrings
  import opened Rtsp

  datatype ClientState = NOCLIENT | CLICONNECTED | SDPSENT | SETUPCOMPLETE

  /** What has happened: a client was accepted, a request was answered, the client record was reset. */
  datatype Entry = Accepted | Answered(m: RTSPMsg, reply: string) | Reset

  /** The client record, the message variable that survives from one readiness to the next, and the log. */
  datatype Session = Session(state: ClientState, cseq: int, session: int, setupsreceived: nat, rtspmsg: RTSPMsg,
                             log: seq<Entry>)

  /** What `select` reports: a connection, a message on the client's socket (with the clock and the random
      number its reply may need), or its end. */
  datatype Event = Accept | Receive(m: RTSPMsg, date: string, random: nat) | Disconnect

  const VIDEO_PORT := 50508
  const AUDIO_PORT := 50510

  function Answer(s: Session, reply: string): Session {
    s.(log := s.log + [Answered(s.rtspmsg, reply)])
  }

  /** `init_client`. */
  function InitClient(s: Session): Session {
    s.(state := NOCLIENT, cseq := 0, session := 0, setupsreceived := 0, log := s.log + [Reset])
  }

  /** The answer to a SETUP: an RTP port and the next one for RTCP. */
  function SetupText(m: RTSPMsg, session: int, port: int): string {
    Print(SetupReply(m, session, port, port + 1))
  }

  /** The switch over the client state, for the message in `rtspmsg`. */
  function Dispatch(s: Session, date: string, random: nat): Session {
    var m := s.rtspmsg;
    match s.state
    case CLICONNECTED =>
      if m.msgType == OPTIONS then Answer(s, OptionsReply(m)).(cseq := m.cseq + 1)
      else if m.msgType == DESCRIBE then
        Answer(s, Print(DescribeReply(s.cseq, date))).(cseq := s.cseq + 1, state := SDPSENT)
      else s
    case SDPSENT =>
      if m.msgType == SETUP then
        var n, session := s.setupsreceived + 1, random % 1000000;
        var port := if n < 2 then AUDIO_PORT else VIDEO_PORT;
        Answer(s, SetupText(m, session, port))
          .(setupsreceived := n, session := session, state := if n < 2 then SDPSENT else SETUPCOMPLETE)
      else s
    case SETUPCOMPLETE => if m.msgType == PLAY then Answer(s, Print(PlayReply(m, date))) else s
    case NOCLIENT => s
  }

  /** Only an accepted client's socket is watched; a date is one line. */
  predicate Enabled(s: Session, e: Event) {
    e.Accept? || (s.state != NOCLIENT && (e.Receive? ==> CrFree(e.date)))
  }

  /** One readiness of a descriptor. A disconnect leaves the previous message in place, and it is looked at
      again: a TEARDOWN resets the record once more. */
  function Step(s: Session, e: Event): Session {
    match e
    case Accept => if s.state == NOCLIENT then s.(state := CLICONNECTED, log := s.log + [Accepted]) else s
    case Disconnect =>
      if s.rtspmsg.msgType == TEARDOWN then InitClient(s) else s.(state := NOCLIENT)
    case Receive(m, date, random) =>
      var t := s.(rtspmsg := m);
      if m.msgType == TEARDOWN then InitClient(Answer(t, Print(TeardownReply(m)))) else Dispatch(t, date, random)
  }

  function Start(garbage: RTSPMsg): Session {
    Session(NOCLIENT, 0, 0, 0, garbage, [Reset])
  }

  function Run(garbage: RTSPMsg, es: seq<Event>): Session {
    if es == [] then Start(garbage) else Step(Run(garbage, es[..|es| - 1]), es[|es| - 1])
  }

  ghost predicate CanRun(garbage: RTSPMsg, es: seq<Event>) {
    es == [] || (CanRun(garbage, es[..|es| - 1]) && Enabled(Run(garbage, es[..|es| - 1]), es[|es| - 1]))
  }

  // ----- histories -----

  /** How many requests of a type were answered since the last entry equal to `mark`. */
  function Since(log: seq<Entry>, t: MsgType, mark: Entry): nat {
    if log == [] || log[|log| - 1] == mark then 0
    else Since(log[..|log| - 1], t, mark)
         + if log[|log| - 1].Answered? && log[|log| - 1].m.msgType == t then 1 else 0
  }

  /** The CSeq that the next reply to DESCRIBE carries: one more than that of the last answered OPTIONS,
      plus the DESCRIBEs answered since; counted from zero after a reset. */
  function NextCSeq(log: seq<Entry>): int {
    if log == [] || log[|log| - 1].Reset? then 0
    else
      var e, before := log[|log| - 1], log[..|log| - 1];
      if e.Answered? && e.m.msgType == OPTIONS then e.m.cseq + 1
      else if e.Answered? && e.m.msgType == DESCRIBE then NextCSeq(before) + 1
      else NextCSeq(before)
  }

  lemma SinceOfSnoc(log: seq<Entry>, e: Entry, t: MsgType, mark: Entry)
    ensures Since(log + [e], t, mark)
         == if e == mark then 0 else Since(log, t, mark) + if e.Answered? && e.m.msgType == t then 1 else 0
    ensures NextCSeq(log + [e])
         == if e.Reset? then 0
            else if e.Answered? && e.m.msgType == OPTIONS then e.m.cseq + 1
            else if e.Answered? && e.m.msgType == DESCRIBE then NextCSeq(log) + 1
            else NextCSeq(log)
  {
    assert (log + [e])[..|log|] == log;
  }

  /** The answered PLAYs of a history: each with a DESCRIBE and a SETUP of its own client before it, and two
      SETUPs since the record was last reset; with exactly two of its own client unless that client found
      earlier SETUPs in the record, and then with exactly one. */
  ghost predicate PlaysInOrder(log: seq<Entry>) {
    forall i :: 0 <= i < |log| && log[i].Answered? && log[i].m.msgType == PLAY ==> PlayInOrder(log[..i])
  }

  predicate PlayInOrder(before: seq<Entry>) {
    var own, all := Since(before, SETUP, Accepted), Since(before, SETUP, Reset);
    && Since(before, DESCRIBE, Accepted) >= 1
    && own >= 1 && all >= 2 && all >= own
    && (own == 2 <==> all == own)
    && (own != 2 ==> own == 1)
  }

  /** The first SETUP since the record was reset is for audio, every further one for video. */
  function PortFor(before: seq<Entry>): int {
    if Since(before, SETUP, Reset) == 0 then AUDIO_PORT else VIDEO_PORT
  }

  /** The replies of a history: a DESCRIBE is answered with the record's CSeq, a SETUP with the ports that the
      SETUPs since the reset call for. */
  ghost predicate RepliesRight(log: seq<Entry>) {
    forall i :: 0 <= i < |log| && log[i].Answered? ==> ReplyRight(log[..i], log[i].m, log[i].reply)
  }

  ghost predicate ReplyRight(before: seq<Entry>, m: RTSPMsg, reply: string) {
    match m.msgType
    case OPTIONS => reply == OptionsReply(m)
    case DESCRIBE => exists date :: CrFree(date) && reply == Print(DescribeReply(NextCSeq(before), date))
    case SETUP => exists session :: reply == SetupText(m, session, PortFor(before))
    case PLAY => exists date :: CrFree(date) && reply == Print(PlayReply(m, date))
    case TEARDOWN => reply == Print(TeardownReply(m))
    case OK => false
  }

  ghost predicate SessionInv(s: Session) {
    && s.cseq == NextCSeq(s.log)
    && s.setupsreceived == Since(s.log, SETUP, Reset)
    && (s.state == CLICONNECTED ==> Since(s.log, DESCRIBE, Accepted) == 0 == Since(s.log, SETUP, Accepted))
    && (s.state == SDPSENT || s.state == SETUPCOMPLETE ==>
          Since(s.log, DESCRIBE, Accepted) == 1 && Since(s.log, SETUP, Accepted) <= s.setupsreceived)
    && (s.state == SDPSENT ==> Since(s.log, SETUP, Accepted) == 0 || s.setupsreceived < 2)
    && (s.state == SETUPCOMPLETE ==>
          && s.setupsreceived >= 2 && Since(s.log, SETUP, Accepted) >= 1
          && (Since(s.log, SETUP, Accepted) == 1 || s.setupsreceived == 2))
    && PlaysInOrder(s.log) && RepliesRight(s.log)
  }

  lemma LogGrows(log: seq<Entry>, e: Entry)
    requires PlaysInOrder(log) && RepliesRight(log)
    requires e.Answered? ==> ReplyRight(log, e.m, e.reply) && (e.m.msgType == PLAY ==> PlayInOrder(log))
    ensures PlaysInOrder(log + [e]) && RepliesRight(log + [e])
  {
    hide PlayInOrder, ReplyRight;
    var longer := log + [e];
    forall i | 0 <= i < |longer| && longer[i].Answered?
      ensures ReplyRight(longer[..i], longer[i].m, longer[i].reply)
      ensures longer[i].m.msgType == PLAY ==> PlayInOrder(longer[..i])
    {
      if i < |log| {
        assert longer[..i] == log[..i] && longer[i] == log[i];
      } else {
        assert longer[..i] == log;
      }
    }
  }

  /** The counts that the invariant speaks of, after one more entry. */
  lemma CountsAfter(log: seq<Entry>, e: Entry)
    ensures NextCSeq(log + [e])
         == if e.Reset? then 0
            else if e.Answered? && e.m.msgType == OPTIONS then e.m.cseq + 1
            else if e.Answered? && e.m.msgType == DESCRIBE then NextCSeq(log) + 1
            else NextCSeq(log)
    ensures Since(log + [e], SETUP, Reset)
         == if e == Reset then 0 else Since(log, SETUP, Reset) + if e.Answered? && e.m.msgType == SETUP then 1 else 0
    ensures Since(log + [e], SETUP, Accepted)
         == if e == Accepted then 0 else Since(log, SETUP, Accepted) + if e.Answered? && e.m.msgType == SETUP then 1 else 0
    ensures Since(log + [e], DESCRIBE, Accepted)
         == if e == Accepted then 0 else Since(log, DESCRIBE, Accepted) + if e.Answered? && e.m.msgType == DESCRIBE then 1 else 0
  {
    SinceOfSnoc(log, e, SETUP, Reset);
    SinceOfSnoc(log, e, SETUP, Accepted);
    SinceOfSnoc(log, e, DESCRIBE, Accepted);
  }

  lemma ResetKeepsInv(s: Session)
    requires PlaysInOrder(s.log) && RepliesRight(s.log)
    ensures SessionInv(InitClient(s))
  {
    hide PlaysInOrder, RepliesRight, NextCSeq, Since;
    LogGrows(s.log, Reset);
    CountsAfter(s.log, Reset);
  }

  lemma DispatchKeepsInv(s: Session, date: string, random: nat)
    requires SessionInv(s) && CrFree(date)
    ensures SessionInv(Dispatch(s, date, random))
  {
    hide PlaysInOrder, RepliesRight, NextCSeq, Since, Print, OptionsReply, DescribeReply, SetupText, PlayReply, CrFree;
    var r := Dispatch(s, date, random);
    if r.log != s.log {
      var e := r.log[|s.log|];
      assert r.log == s.log + [e];
      CountsAfter(s.log, e);
      assert e.m == s.rtspmsg;
      assert s.state == SDPSENT ==> e.reply == SetupText(s.rtspmsg, r.session, PortFor(s.log));
      LogGrows(s.log, e);
    }
  }

  lemma StepKeepsInv(s: Session, e: Event)
    requires SessionInv(s) && Enabled(s, e)
    ensures SessionInv(Step(s, e))
  {
    hide PlaysInOrder, RepliesRight, NextCSeq, Since, Dispatch, Print, TeardownReply;
    match e
    case Accept =>
      if s.state == NOCLIENT {
        LogGrows(s.log, Accepted);
        CountsAfter(s.log, Accepted);
      }
    case Disconnect => ResetKeepsInv(s);
    case Receive(m, date, random) =>
      var t := s.(rtspmsg := m);
      if m.msgType == TEARDOWN {
        LogGrows(s.log, Answered(m, Print(TeardownReply(m))));
        ResetKeepsInv(Answer(t, Print(TeardownReply(m))));
      } else {
        DispatchKeepsInv(t, date, random);
      }
  }

  lemma {:induction false} RunKeepsInv(garbage: RTSPMsg, es: seq<Event>)
    requires CanRun(garbage, es)
    ensures SessionInv(Run(garbage, es))
  {
    hide SessionInv;
    if es == [] {
      StartHoldsInv(garbage);
    } else {
      RunKeepsInv(garbage, es[..|es| - 1]);
      StepKeepsInv(Run(garbage, es[..|es| - 1]), es[|es| - 1]);
    }
  }

  lemma StartHoldsInv(garbage: RTSPMsg)
    ensures SessionInv(Start(garbage))
  {
  }

  /** Over every run: each answered PLAY is preceded, since its client was accepted, by an answered DESCRIBE
      and at least one answered SETUP, and since the last reset by at least two SETUPs; there are two since
      the acceptance exactly if no SETUP of an earlier client was still counted. */
  lemma PlaysAreInOrder(garbage: RTSPMsg, es: seq<Event>)
    requires CanRun(garbage, es)
    ensures PlaysInOrder(Run(garbage, es).log)
  {
    RunKeepsInv(garbage, es);
  }

  lemma Extend(garbage: RTSPMsg, es: seq<Event>, e: Event)
    ensures Run(garbage, es + [e]) == Step(Run(garbage, es), e)
    ensures CanRun(garbage, es + [e]) <==> CanRun(garbage, es) && Enabled(Run(garbage, es), e)
  {
    hide Step;
    assert (es + [e])[..|es|] == es;
  }

  lemma Take(garbage: RTSPMsg, es: seq<Event>, e: Event) returns (more: seq<Event>, s: Session)
    requires CanRun(garbage, es) && Enabled(Run(garbage, es), e)
    ensures CanRun(garbage, more) && s == Run(garbage, more) == Step(Run(garbage, es), e) && SessionInv(s)
  {
    hide Step, Enabled, SessionInv;
    more := es + [e];
    Extend(garbage, es, e);
    s := Run(garbage, more);
    RunKeepsInv(garbage, more);
  }

  /** Over every run, the ports in the answer to a SETUP: audio if it is the first since the record was reset,
      whoever sent it, and video otherwise; the client reads them behind its own Transport value. */
  lemma PortsAreTold(garbage: RTSPMsg, es: seq<Event>, i: nat)
    requires CanRun(garbage, es) && i < |Run(garbage, es).log|
    requires var e := Run(garbage, es).log[i]; e.Answered? && e.m.msgType == SETUP
    ensures var log := Run(garbage, es).log;
      var port := if Since(log[..i], SETUP, Reset) == 0 then 50510 else 50508;
      && (exists session :: log[i].reply == SetupText(log[i].m, session, port))
      && (Printable(log[i].m) && F_TRANSPORT in log[i].m.fields ==>
            && Parse(log[i].reply).Parsed?
            && Parse(log[i].reply).msg.transport
               == log[i].m.transport + (";server_port=" + PrintInt(port) + "-" + PrintInt(port + 1)))
  {
    hide CanRun, Run, Since, NextCSeq, PlaysInOrder, Print, SetupReply, Printable, Parse, PrintInt;
    RunKeepsInv(garbage, es);
    var log := Run(garbage, es).log;
    assert ReplyRight(log[..i], log[i].m, log[i].reply);
    var session :| log[i].reply == SetupText(log[i].m, session, PortFor(log[..i]));
    var port := PortFor(log[..i]);
    if Printable(log[i].m) && F_TRANSPORT in log[i].m.fields {
      SetupReplyTellsPorts(log[i].m, session, port, port + 1);
    }
  }

  /** A new client connects and is answered a DESCRIBE and a SETUP. */
  lemma ConnectAndSetup(garbage: RTSPMsg, es: seq<Event>) returns (more: seq<Event>, s: Session)
    requires CanRun(garbage, es) && Run(garbage, es).state == NOCLIENT
    ensures CanRun(garbage, more) && s == Run(garbage, more) && SessionInv(s)
    ensures s.setupsreceived == Run(garbage, es).setupsreceived + 1 && s.rtspmsg.msgType == SETUP
    ensures s.state == if s.setupsreceived < 2 then SDPSENT else SETUPCOMPLETE
    ensures Since(s.log, SETUP, Accepted) == 1
    ensures var port := if s.setupsreceived < 2 then AUDIO_PORT else VIDEO_PORT;
      s.log != [] && s.log[|s.log| - 1] == Answered(s.rtspmsg, SetupText(s.rtspmsg, s.session, port))
  {
    hide Print, PlaysInOrder, RepliesRight, DescribeReply, SetupText, NextCSeq, Since, CanRun, Run;
    var m := ZERO.(msgType := DESCRIBE);
    more, s := Take(garbage, es, Accept);
    var log := s.log;
    more, s := Take(garbage, more, Receive(m, "", 0));
    CountsAfter(log, s.log[|log|]);
    log := s.log;
    more, s := Take(garbage, more, Receive(m.(msgType := SETUP), "", 0));
    CountsAfter(log, s.log[|log|]);
  }

  /** The count of SETUPs outlives its client: one that vanishes after its first SETUP leaves the next one
      to reach PLAY after a single SETUP of its own, whose answer names the video ports. */
  lemma SetupCountOutlivesClient(garbage: RTSPMsg)
    ensures exists es :: CanRun(garbage, es) && Run(garbage, es).state == SETUPCOMPLETE
                         && Since(Run(garbage, es).log, SETUP, Accepted) == 1 && ToldVideo(Run(garbage, es))
  {
    assert CanRun(garbage, []) && Run(garbage, []) == Start(garbage);
    hide CanRun, Run, Since, SessionInv, SetupText;
    var es, s := ConnectAndSetup(garbage, []);
    es, s := Take(garbage, es, Disconnect);
    es, s := ConnectAndSetup(garbage, es);
  }

  /** The last thing that happened is the answer to a SETUP, with the video ports. */
  predicate ToldVideo(s: Session) {
    && s.log != []
    && s.log[|s.log| - 1] == Answered(s.rtspmsg, SetupText(s.rtspmsg, s.session, VIDEO_PORT))
    && s.rtspmsg.msgType == SETUP
  }

  // ----- what is answered, from the events alone -----

  /** What the events so far come to: is a client connected, has its DESCRIBE been answered, how many SETUPs of its own,
      and how many since the last TEARDOWN. */
  datatype Tally = Tally(connected: bool, described: bool, own: nat, all: nat)

  /** Whether a request is answered: OPTIONS and DESCRIBE until the DESCRIBE, SETUP from then on until the client has one
      of its own and two have been counted, PLAY from then on, TEARDOWN always, anything else never. */
  predicate IsAnswered(y: Tally, t: MsgType) {
    match t
    case OPTIONS => !y.described
    case DESCRIBE => !y.described
    case SETUP => y.described && (y.own == 0 || y.all < 2)
    case PLAY => y.described && y.own > 0 && y.all >= 2
    case TEARDOWN => true
    case OK => false
  }

  function TallyOf(es: seq<Event>): Tally {
    if es == [] then Tally(false, false, 0, 0)
    else
      var y := TallyOf(es[..|es| - 1]);
      match es[|es| - 1]
      case Accept => if y.connected then y else Tally(true, false, 0, y.all)
      case Disconnect => y.(connected := false)
      case Receive(m, _, _) =>
        if m.msgType == TEARDOWN then Tally(false, y.described, y.own, 0)
        else if m.msgType == DESCRIBE && IsAnswered(y, DESCRIBE) then y.(described := true)
        else if m.msgType == SETUP && IsAnswered(y, SETUP) then y.(own := y.own + 1, all := y.all + 1)
        else y
  }

  /** The record agrees with the events. After a TEARDOWN nothing is counted until the next SETUP. */
  ghost predicate Tallied(s: Session, y: Tally) {
    && (s.state == NOCLIENT <==> !y.connected)
    && (y.connected ==> (s.state == CLICONNECTED <==> !y.described))
    && (y.connected ==> (s.state == SETUPCOMPLETE <==> y.described && y.own > 0 && y.all >= 2))
    && s.setupsreceived == y.all
    && (y.connected && !y.described ==> y.own == 0)
    && (s.rtspmsg.msgType == TEARDOWN ==> y.all == 0)
  }

  lemma StepIsTallied(garbage: RTSPMsg, es: seq<Event>, e: Event)
    requires CanRun(garbage, es + [e]) && Tallied(Run(garbage, es), TallyOf(es))
    ensures Tallied(Run(garbage, es + [e]), TallyOf(es + [e]))
  {
    Extend(garbage, es, e);
    TallyOfSnoc(es, e);
    hide Run, CanRun, TallyOf, Print, OptionsReply, DescribeReply, SetupText, PlayReply, TeardownReply;
  }

  lemma TallyOfSnoc(es: seq<Event>, e: Event)
    ensures TallyOf(es + [e]) ==
      var y := TallyOf(es);
      match e
      case Accept => if y.connected then y else Tally(true, false, 0, y.all)
      case Disconnect => y.(connected := false)
      case Receive(m, _, _) =>
        if m.msgType == TEARDOWN then Tally(false, y.described, y.own, 0)
        else if m.msgType == DESCRIBE && IsAnswered(y, DESCRIBE) then y.(described := true)
        else if m.msgType == SETUP && IsAnswered(y, SETUP) then y.(own := y.own + 1, all := y.all + 1)
        else y
  {
    assert (es + [e])[..|es|] == es;
  }

  lemma {:induction false} RunIsTallied(garbage: RTSPMsg, es: seq<Event>)
    requires CanRun(garbage, es)
    ensures Tallied(Run(garbage, es), TallyOf(es))
  {
    if es == [] {
    } else {
      RunIsTallied(garbage, es[..|es| - 1]);
      assert es == es[..|es| - 1] + [es[|es| - 1]];
      StepIsTallied(garbage, es[..|es| - 1], es[|es| - 1]);
    }
  }

  /** In every run the next request is answered, once, exactly if the events before it call for that; otherwise nothing
      is sent. After the answer to a TEARDOWN the record is reset. */
  lemma RequestIsAnsweredIff(garbage: RTSPMsg, es: seq<Event>, m: RTSPMsg, date: string, random: nat)
    requires CanRun(garbage, es + [Receive(m, date, random)])
    ensures var log, after := Run(garbage, es).log, Run(garbage, es + [Receive(m, date, random)]).log;
      if IsAnswered(TallyOf(es), m.msgType) then
        && |log| < |after| && after[..|log|] == log && after[|log|].Answered? && after[|log|].m == m
        && after[|log| + 1..] == if m.msgType == TEARDOWN then [Reset] else []
      else after == log
  {
    Extend(garbage, es, Receive(m, date, random));
    RunIsTallied(garbage, es);
    hide Run, CanRun, TallyOf, Print, OptionsReply, DescribeReply, SetupText, PlayReply, TeardownReply;
    assert Enabled(Run(garbage, es), Receive(m, date, random));
  }

  /** A connection is served exactly if no client is connected, and a client is disconnected by its own end or its
      TEARDOWN. */
  lemma ConnectionIsServedIff(garbage: RTSPMsg, es: seq<Event>)
    requires CanRun(garbage, es)
    ensures CanRun(garbage, es + [Accept])
    ensures var log, after := Run(garbage, es).log, Run(garbage, es + [Accept]).log;
      after == if TallyOf(es).connected then log else log + [Accepted]
  {
    Extend(garbage, es, Accept);
    RunIsTallied(garbage, es);
    hide Run, CanRun, TallyOf;
  }

  function Ask(t: MsgType): Event {
    Receive(ZERO.(msgType := t), "", 0)
  }

  /** The shortest session reaches its PLAY: OPTIONS, DESCRIBE, two SETUPs and PLAY are all answered. */
  lemma SessionIsAnswered()
    ensures IsAnswered(TallyOf([Accept]), OPTIONS)
    ensures IsAnswered(TallyOf([Accept, Ask(OPTIONS)]), DESCRIBE)
    ensures IsAnswered(TallyOf([Accept, Ask(OPTIONS), Ask(DESCRIBE)]), SETUP)
    ensures IsAnswered(TallyOf([Accept, Ask(OPTIONS), Ask(DESCRIBE), Ask(SETUP)]), SETUP)
    ensures IsAnswered(TallyOf([Accept, Ask(OPTIONS), Ask(DESCRIBE), Ask(SETUP), Ask(SETUP)]), PLAY)
  {
    NothingTallied();
    hide TallyOf;
    Tallies([], Accept, [Accept]);
    Tallies([Accept], Ask(OPTIONS), [Accept, Ask(OPTIONS)]);
    Tallies([Accept, Ask(OPTIONS)], Ask(DESCRIBE), [Accept, Ask(OPTIONS), Ask(DESCRIBE)]);
    Tallies([Accept, Ask(OPTIONS), Ask(DESCRIBE)], Ask(SETUP), [Accept, Ask(OPTIONS), Ask(DESCRIBE), Ask(SETUP)]);
    Tallies([Accept, Ask(OPTIONS), Ask(DESCRIBE), Ask(SETUP)], Ask(SETUP),
            [Accept, Ask(OPTIONS), Ask(DESCRIBE), Ask(SETUP), Ask(SETUP)]);
  }

  lemma NothingTallied()
    ensures TallyOf([]) == Tally(false, false, 0, 0)
  {
  }

  /** One more event, for `SessionIsAnswered`. */
  lemma Tallies(es: seq<Event>, e: Event, more: seq<Event>)
    requires more == es + [e]
    ensures var y := TallyOf(es);
      && (e == Accept && !y.connected ==> TallyOf(more) == Tally(true, false, 0, y.all))
      && (e == Ask(OPTIONS) ==> TallyOf(more) == y)
      && (e == Ask(DESCRIBE) && !y.described ==> TallyOf(more) == y.(described := true))
      && (e == Ask(SETUP) && IsAnswered(y, SETUP) ==> TallyOf(more) == y.(own := y.own + 1, all := y.all + 1))
  {
    TallyOfSnoc(es, e);
  }

  /** The requests whose reply carries a CSeq that can be read: OPTIONS, SETUP and PLAY are printed back, so
      they must have one and be printable; the replies to DESCRIBE and TEARDOWN always do. */
  predicate Echoable(m: RTSPMsg) {
    match m.msgType
    case DESCRIBE => true
    case TEARDOWN => true
    case OPTIONS => Printable(m) && F_CSEQ in m.fields && F_DATA !in m.fields
    case _ => Printable(m) && F_CSEQ in m.fields
  }

  lemma RightReplyReads(before: seq<Entry>, m: RTSPMsg, reply: string)
    requires ReplyRight(before, m, reply) && Echoable(m)
    ensures Reads(reply, if m.msgType == DESCRIBE then NextCSeq(before) else m.cseq)
  {
    hide Reads, Print, Printable, OptionsReply, DescribeReply, SetupReply, PlayReply, TeardownReply, NextCSeq, CrFree;
    assert CrFree("") by { NothingIsCrFree(); }
    match m.msgType
    case DESCRIBE =>
      var date :| CrFree(date) && reply == Print(DescribeReply(NextCSeq(before), date));
      RepliesEchoCSeq(m, 0, 0, 0, date, NextCSeq(before));
    case SETUP =>
      var session :| reply == SetupText(m, session, PortFor(before));
      RepliesEchoCSeq(m, session, PortFor(before), PortFor(before) + 1, "", 0);
    case PLAY =>
      var date :| CrFree(date) && reply == Print(PlayReply(m, date));
      RepliesEchoCSeq(m, 0, 0, 0, date, 0);
    case _ => RepliesEchoCSeq(m, 0, 0, 0, "", 0);
  }

  lemma NothingIsCrFree()
    ensures CrFree("")
  {
  }

  /** Over every run, for every answered request that carries a CSeq and can be printed back: the client
      reads the request's own CSeq in the reply, except that a DESCRIBE is answered with `NextCSeq`. */
  lemma RepliesEcho(garbage: RTSPMsg, es: seq<Event>, i: nat)
    requires CanRun(garbage, es) && i < |Run(garbage, es).log| && Run(garbage, es).log[i].Answered?
    requires Echoable(Run(garbage, es).log[i].m)
    ensures var log := Run(garbage, es).log;
      Reads(log[i].reply, if log[i].m.msgType == DESCRIBE then NextCSeq(log[..i]) else log[i].m.cseq)
  {
    hide CanRun, Run, Echoable, ReplyRight, Reads, NextCSeq, PlaysInOrder;
    RunKeepsInv(garbage, es);
    var log := Run(garbage, es).log;
    assert ReplyRight(log[..i], log[i].m, log[i].reply);
    RightReplyReads(log[..i], log[i].m, log[i].reply);
  }

  /** A DESCRIBE right after an answered OPTIONS is answered with its own CSeq exactly if the client counts
      on by one. */
  lemma DescribeEchoIff(garbage: RTSPMsg, es: seq<Event>, i: nat)
    requires CanRun(garbage, es) && 0 < i < |Run(garbage, es).log|
    requires var log := Run(garbage, es).log;
      && log[i].Answered? && log[i].m.msgType == DESCRIBE
      && log[i - 1].Answered? && log[i - 1].m.msgType == OPTIONS
    ensures var log := Run(garbage, es).log;
      Reads(log[i].reply, log[i].m.cseq) <==> log[i].m.cseq == log[i - 1].m.cseq + 1
  {
    hide CanRun, Run, Printable, Parse;
    var log := Run(garbage, es).log;
    RepliesEcho(garbage, es, i);
    assert log[..i] == log[..i - 1] + [log[i - 1]];
    CountsAfter(log[..i - 1], log[i - 1]);
  }

  /** Without an OPTIONS before it a DESCRIBE is not answered with its own CSeq: a client that opens with
      DESCRIBE and CSeq 1 reads 0. */
  lemma DescribeFirstIsNotEchoed(garbage: RTSPMsg)
    ensures exists es, i :: CanRun(garbage, es) && 0 <= i < |Run(garbage, es).log| && Run(garbage, es).log[i].Answered?
                            && Run(garbage, es).log[i].m.cseq == 1 && Reads(Run(garbage, es).log[i].reply, 0)
  {
    assert CanRun(garbage, []) && Run(garbage, []) == Start(garbage);
    hide CanRun, Run, Reads, Print, DescribeReply, PlaysInOrder, RepliesRight;
    var m := ZERO.(msgType := DESCRIBE, cseq := 1, fields := {F_TYPE, F_CSEQ});
    var es, s := Take(garbage, [], Accept);
    es, s := Take(garbage, es, Receive(m, "", 0));
    RepliesEcho(garbage, es, 2);
    CountsAfter([], Reset);
    CountsAfter([Reset], Accepted);
    assert s.log[..2] == [Reset] + [Accepted] && [] + [Reset] == [Reset];
  }

  // ----- the loop's own state -----

  class RtspServer {
    var state: ClientState
    const client: Client
    var setupsreceived: nat
    var rtspmsg: RTSPMsg
    ghost var log: seq<Entry>

    ghost function View(): Session
      reads this, client
    {
      Session(state, client.cseq, client.session, setupsreceived, rtspmsg, log)
    }

    constructor (garbage: RTSPMsg)
      ensures View() == Start(garbage) && fresh(client)
    {
      state, setupsreceived, rtspmsg, log := NOCLIENT, 0, garbage, [Reset];
      client := new Client();
    }

    method InitClientRecord()
      modifies this, client
      ensures View() == InitClient(old(View()))
    {
      state, setupsreceived := NOCLIENT, 0;
      client.cseq, client.session := 0, 0;
      log := log + [Reset];
    }

    /** A connection: only one client is served. */
    method AcceptConnection() returns (served: bool)
      modifies this
      ensures View() == Step(old(View()), Accept)
      ensures served <==> old(state) == NOCLIENT
    {
      served := state == NOCLIENT;
      if served {
        state := CLICONNECTED;
        log := log + [Accepted];
      }
    }

    /** The client closed its end. */
    method ConnectionClosed()
      modifies this, client
      ensures View() == Step(old(View()), Disconnect)
    {
      state := NOCLIENT;
      if rtspmsg.msgType == TEARDOWN {
        InitClientRecord();
      }
    }

    /** A message on the client's socket: the reply, or nothing if the state does not expect it. */
    method MessageReceived(m: RTSPMsg, date: string, random: nat) returns (reply: Option<string>)
      modifies this, client
      ensures View() == Step(old(View()), Receive(m, date, random))
      ensures reply.Some? <==> exists i :: |old(log)| <= i < |log| && log[i].Answered?
      ensures reply.Some? ==> log[|old(log)|] == Answered(m, reply.value)
    {
      hide Print, OptionsReply, DescribeReply, SetupReply, PlayReply, TeardownReply;
      reply := None;
      rtspmsg := m;
      if m.msgType == TEARDOWN {
        var buf := RtspTeardown(m);
        reply := Some(buf);
        log := log + [Answered(m, buf)];
        InitClientRecord();
        assert log[|old(log)|] == Answered(m, buf);
        return;
      }
      var buf;
      match state {
        case CLICONNECTED =>
          if m.msgType == OPTIONS {
            buf := RtspOptions(m, client);
            reply := Some(buf);
          } else if m.msgType == DESCRIBE {
            state := SDPSENT;
            buf := RtspDescribe(client, date);
            reply := Some(buf);
          }
        case SDPSENT =>
          if m.msgType == SETUP {
            setupsreceived := setupsreceived + 1;
            if setupsreceived < 2 {
              buf := RtspSetup(m, client, AUDIO_PORT, AUDIO_PORT + 1, random);
            } else {
              buf := RtspSetup(m, client, VIDEO_PORT, VIDEO_PORT + 1, random);
              state := SETUPCOMPLETE;
            }
            reply := Some(buf);
          }
        case SETUPCOMPLETE =>
          if m.msgType == PLAY {
            buf := RtspPlay(m, date);
            reply := Some(buf);
          }
        case NOCLIENT =>
      }
      if reply.Some? {
        log := log + [Answered(m, reply.value)];
        assert log[|old(log)|].Answered?;
      }
    }
  }
}
