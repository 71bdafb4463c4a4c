/** The SIP side of `start_mt_server`: the table of dialogs, what each message does to it, and the audio
    frames that go out to its clients. */
module SipDialogs {
  import opened Wrappers
  import opened Rtp
  import opened CStrings
  import Sip

  const MAXCLIENTS: nat := 10

  /** `SIPClient`. `addr` is the address its last ACK came from. */
  datatype Dialog = Dialog(callid: string, sockfd: int, ackrecvd: bool, from: string, to: string, addr: int)

  type Slots = seq<Option<Dialog>>

  function Count(s: Slots): nat {
    if s == [] then 0 else Count(s[..|s| - 1]) + if s[|s| - 1].Some? then 1 else 0
  }

  function Sockets(s: Slots): set<int> {
    set i | 0 <= i < |s| && s[i].Some? :: s[i].value.sockfd
  }

  /** The first free slot, or the length. */
  function FirstFree(s: Slots): (k: nat)
    ensures k <= |s| && (forall i :: 0 <= i < k ==> s[i].Some?) && (k < |s| ==> s[k].None?)
  {
    if s == [] || s[0].None? then 0 else 1 + FirstFree(s[1..])
  }

  predicate Holds(o: Option<Dialog>, callid: string) {
    o.Some? && o.value.callid == callid
  }

  /** The first slot of the Call-ID, or the length. */
  function FirstWith(s: Slots, callid: string): (k: nat)
    ensures k <= |s| && (forall i :: 0 <= i < k ==> !Holds(s[i], callid)) && (k < |s| ==> Holds(s[k], callid))
  {
    if s == [] || Holds(s[0], callid) then 0 else 1 + FirstWith(s[1..], callid)
  }

  function HowMany(s: Slots, callid: string): nat {
    if s == [] then 0 else HowMany(s[..|s| - 1], callid) + if Holds(s[|s| - 1], callid) then 1 else 0
  }

  /** The table with its counter and its descriptor set. */
  datatype Table = Table(slots: Slots, nclients: int, fds: set<int>)

  /** What a message brings: the parsed message, the sender's address, and the socket that `udp_connected`
      opens if the message is an INVITE that is accepted. */
  datatype Message = Message(sip: Sip.SIPMsg, addr: int, rtpfd: int)

  function Handle(t: Table, m: Message): Table {
    match m.sip.msgType
    case INVITE =>
      if t.nclients < MAXCLIENTS && FirstFree(t.slots) < |t.slots| then
        var d := Dialog(m.sip.callid, m.rtpfd, false, "", "", 0);
        Table(t.slots[FirstFree(t.slots) := Some(d)], t.nclients + 1, t.fds + {m.rtpfd})
      else t
    case ACK =>
      var k := FirstWith(t.slots, m.sip.callid);
      if k < |t.slots| then
        t.(slots := t.slots[k := Some(t.slots[k].value.(ackrecvd := true, from := m.sip.from, to := m.sip.to, addr := m.addr))])
      else t
    case _ => Removed(t, m.sip.callid)
  }

  /** BYE and 200 OK: the first dialog with the Call-ID goes. */
  function Removed(t: Table, callid: string): Table {
    var k := FirstWith(t.slots, callid);
    if k < |t.slots| then Table(t.slots[k := None], t.nclients - 1, t.fds - {t.slots[k].value.sockfd}) else t
  }

  // ----- the invariant -----

  ghost predicate TableInv(t: Table) {
    && |t.slots| == MAXCLIENTS
    && t.nclients == Count(t.slots)
    && t.fds == Sockets(t.slots)
    && DistinctSockets(t.slots)
  }

  ghost predicate DistinctSockets(s: Slots) {
    forall i, j :: 0 <= i < j < |s| && s[i].Some? && s[j].Some? ==> s[i].value.sockfd != s[j].value.sockfd
  }

  lemma {:induction false} CountAfter(s: Slots, k: nat, o: Option<Dialog>)
    requires k < |s|
    ensures Count(s[k := o]) + (if s[k].Some? then 1 else 0) == Count(s) + (if o.Some? then 1 else 0)
  {
    var n := |s| - 1;
    if k < n {
      assert s[k := o][..n] == s[..n][k := o];
      CountAfter(s[..n], k, o);
    } else {
      assert s[k := o][..n] == s[..n];
    }
  }

  lemma {:induction false} CountIsBounded(s: Slots)
    ensures Count(s) <= |s|
    ensures Count(s) == |s| <==> forall i :: 0 <= i < |s| ==> s[i].Some?
  {
    if s != [] {
      CountIsBounded(s[..|s| - 1]);
      assert forall i :: 0 <= i < |s| - 1 ==> s[i] == s[..|s| - 1][i];
    }
  }

  /** An INVITE that passes the counter's test always finds a free slot. */
  lemma AcceptedFindsSlot(t: Table)
    requires TableInv(t)
    ensures t.nclients < MAXCLIENTS <==> FirstFree(t.slots) < |t.slots|
    ensures 0 <= t.nclients <= MAXCLIENTS
  {
    CountIsBounded(t.slots);
  }

  /** A new socket is not one that is already in the table: the kernel does not hand out an open
      descriptor. */
  ghost predicate Fresh(t: Table, m: Message) {
    m.sip.msgType.INVITE? ==> m.rtpfd !in t.fds
  }

  lemma HandleKeepsInv(t: Table, m: Message)
    requires TableInv(t) && Fresh(t, m)
    ensures TableInv(Handle(t, m))
  {
    hide Count, FirstFree, FirstWith;
    var t' := Handle(t, m);
    var k := if m.sip.msgType.INVITE? then FirstFree(t.slots) else FirstWith(t.slots, m.sip.callid);
    if t' != t {
      assert t'.slots == t.slots[k := t'.slots[k]];
      CountAfter(t.slots, k, t'.slots[k]);
      SocketsAfter(t.slots, k, t'.slots[k]);
    }
  }

  lemma SocketsAfter(s: Slots, k: nat, o: Option<Dialog>)
    requires k < |s|
    requires DistinctSockets(s)
    ensures Sockets(s[k := o]) == Sockets(s) - (if s[k].Some? then {s[k].value.sockfd} else {})
                                  + (if o.Some? then {o.value.sockfd} else {})
  {
    var s' := s[k := o];
    forall x | x in Sockets(s) && !(s[k].Some? && x == s[k].value.sockfd)
      ensures x in Sockets(s')
    {
      var i :| 0 <= i < |s| && s[i].Some? && s[i].value.sockfd == x;
      assert s'[i] == s[i];
    }
    if o.Some? {
      assert s'[k] == o;
    }
    forall i | 0 <= i < |s| && i != k && s[i].Some?
      ensures s[i].value.sockfd in Sockets(s)
      ensures s[k].Some? ==> s[i].value.sockfd != s[k].value.sockfd
    {
    }
  }

  function Free(n: nat): Slots {
    seq(n, _ => None)
  }

  const EMPTY := Table(Free(MAXCLIENTS), 0, {})

  function Run(ms: seq<Message>): Table {
    if ms == [] then EMPTY else Handle(Run(ms[..|ms| - 1]), ms[|ms| - 1])
  }

  ghost predicate FreshRun(ms: seq<Message>) {
    ms == [] || (FreshRun(ms[..|ms| - 1]) && Fresh(Run(ms[..|ms| - 1]), ms[|ms| - 1]))
  }

  lemma {:induction false} NoDialogs(n: nat)
    ensures Count(Free(n)) == 0
  {
    if n > 0 {
      assert Free(n)[..n - 1] == Free(n - 1);
      NoDialogs(n - 1);
    }
  }

  /** Over every run of messages: the counter is the number of occupied slots and at most `MAXCLIENTS`,
      the descriptor set is exactly their sockets, and the counter's test finds a slot if there is one. */
  lemma {:induction false} RunKeepsInv(ms: seq<Message>)
    requires FreshRun(ms)
    ensures var t := Run(ms);
      TableInv(t) && 0 <= t.nclients <= MAXCLIENTS && (t.nclients < MAXCLIENTS <==> FirstFree(t.slots) < |t.slots|)
  {
    if ms == [] {
      NoDialogs(MAXCLIENTS);
    } else {
      RunKeepsInv(ms[..|ms| - 1]);
      HandleKeepsInv(Run(ms[..|ms| - 1]), ms[|ms| - 1]);
    }
    AcceptedFindsSlot(Run(ms));
  }

  /** What is sent back: 200 OK to an INVITE that is accepted, and to every BYE. */
  function Reply(t: Table, m: Message): Option<string> {
    if (m.sip.msgType.INVITE? && t.nclients < MAXCLIENTS) || m.sip.msgType.BYE? then Sip.Print(Sip.OkFor(m.sip)) else None
  }

  // ----- what a run of messages leaves open -----

  /** Counted from the messages alone: how often the Call-ID has been accepted and not ended since. */
  function Opened(ms: seq<Message>, callid: string): nat
    decreases |ms|, 1
  {
    if ms == [] then 0
    else
      var before, m := ms[..|ms| - 1], ms[|ms| - 1];
      var n := Opened(before, callid);
      if m.sip.callid != callid then n
      else
        match m.sip.msgType
        case INVITE => if InUse(before) < MAXCLIENTS then n + 1 else n
        case ACK => n
        case _ => if n > 0 then n - 1 else 0
  }

  /** And how many dialogs are open in all. */
  function InUse(ms: seq<Message>): nat
    decreases |ms|, 0
  {
    if ms == [] then 0
    else
      var before, m := ms[..|ms| - 1], ms[|ms| - 1];
      var n := InUse(before);
      match m.sip.msgType
      case INVITE => if n < MAXCLIENTS then n + 1 else n
      case ACK => n
      case _ => if Opened(before, m.sip.callid) > 0 && n > 0 then n - 1 else n
  }

  lemma {:induction false} HowManyAfter(s: Slots, k: nat, o: Option<Dialog>, callid: string)
    requires k < |s|
    ensures HowMany(s[k := o], callid) + (if Holds(s[k], callid) then 1 else 0)
         == HowMany(s, callid) + (if Holds(o, callid) then 1 else 0)
  {
    var n := |s| - 1;
    if k < n {
      assert s[k := o][..n] == s[..n][k := o];
      HowManyAfter(s[..n], k, o, callid);
    } else {
      assert s[k := o][..n] == s[..n];
    }
  }

  lemma {:induction false} NoneHold(s: Slots, callid: string)
    ensures HowMany(s, callid) == 0 <==> forall i :: 0 <= i < |s| ==> !Holds(s[i], callid)
  {
    if s != [] {
      NoneHold(s[..|s| - 1], callid);
      assert forall i :: 0 <= i < |s| - 1 ==> s[i] == s[..|s| - 1][i];
    }
  }

  /** What one message does to the number of slots with a Call-ID, and to the counter. */
  lemma HandleCounts(t: Table, m: Message, callid: string)
    requires TableInv(t)
    ensures var n, t' := HowMany(t.slots, callid), Handle(t, m);
      HowMany(t'.slots, callid) ==
        if m.sip.callid != callid || m.sip.msgType.ACK? then n
        else if m.sip.msgType.INVITE? then (if t.nclients < MAXCLIENTS then n + 1 else n)
        else if n > 0 then n - 1 else 0
    ensures Handle(t, m).nclients ==
        if m.sip.msgType.INVITE? then (if t.nclients < MAXCLIENTS then t.nclients + 1 else t.nclients)
        else if m.sip.msgType.ACK? || HowMany(t.slots, m.sip.callid) == 0 then t.nclients
        else t.nclients - 1
  {
    hide HowMany, Count, FirstFree, FirstWith;
    AcceptedFindsSlot(t);
    NoneHold(t.slots, m.sip.callid);
    var t' := Handle(t, m);
    var k := if m.sip.msgType.INVITE? then FirstFree(t.slots) else FirstWith(t.slots, m.sip.callid);
    if k < |t.slots| && t' != t {
      assert t'.slots == t.slots[k := t'.slots[k]];
      HowManyAfter(t.slots, k, t'.slots[k], callid);
    }
  }

  lemma {:induction false} FreeHolds(n: nat, callid: string)
    ensures HowMany(Free(n), callid) == 0
  {
    if n > 0 {
      assert Free(n)[..n - 1] == Free(n - 1);
      FreeHolds(n - 1, callid);
    }
  }

  /** Over every run of messages the table holds what their history says: each Call-ID as often as it was
      accepted and not yet ended, and the counter counts them all. */
  lemma {:induction false} RunHoldsOpened(ms: seq<Message>, callid: string)
    requires FreshRun(ms)
    ensures HowMany(Run(ms).slots, callid) == Opened(ms, callid) && Run(ms).nclients == InUse(ms)
    decreases |ms|
  {
    hide HowMany, TableInv, Handle;
    if ms == [] {
      FreeHolds(MAXCLIENTS, callid);
    } else {
      var before, m := ms[..|ms| - 1], ms[|ms| - 1];
      RunKeepsInv(before);
      RunHoldsOpened(before, callid);
      RunHoldsOpened(before, m.sip.callid);
      HandleCounts(Run(before), m, callid);
      SomeAreOpen(before, m.sip.callid);
    }
  }

  lemma SomeAreOpen(ms: seq<Message>, callid: string)
    requires FreshRun(ms)
    ensures HowMany(Run(ms).slots, callid) > 0 ==> Run(ms).nclients > 0
  {
    RunKeepsInv(ms);
    hide HowMany;
    var s := Run(ms).slots;
    NoneHold(s, callid);
    SomeCounted(s);
  }

  lemma {:induction false} SomeCounted(s: Slots)
    ensures (exists i :: 0 <= i < |s| && s[i].Some?) ==> Count(s) > 0
  {
    if s != [] {
      SomeCounted(s[..|s| - 1]);
      assert forall i :: 0 <= i < |s| - 1 ==> s[i] == s[..|s| - 1][i];
    }
  }

  /** Which messages are answered, counted from the messages alone: an INVITE exactly while fewer than ten dialogs are
      open, a BYE always, an ACK and a 200 OK never. Of a parsed text the sender reads a 200 OK with its own
      Call-ID, if it sent one. */
  lemma MessageIsAnsweredIff(ms: seq<Message>, buffer: string, addr: int, rtpfd: int)
    requires FreshRun(ms) && Sip.Parse(buffer).Parsed?
    ensures var m := Sip.Parse(buffer).msg;
      var reply := Reply(Run(ms), Message(m, addr, rtpfd));
      && (reply.Some? <==> (m.msgType == Sip.INVITE && InUse(ms) < 10) || m.msgType == Sip.BYE)
      && (reply.Some? ==>
            && Sip.Parse(reply.value).Parsed? && Sip.Parse(reply.value).msg.msgType == Sip.SIPOK
            && (Sip.Parse(reply.value).msg.callid == m.callid <==> m.callid != ""))
  {
    var m := Sip.Parse(buffer).msg;
    RunHoldsOpened(ms, m.callid);
    hide Run, InUse, HowMany, FreshRun, Sip.Parse, Sip.Print, Sip.OkFor;
    if m.msgType == Sip.INVITE || m.msgType == Sip.BYE {
      Sip.ReplyReadsBack(buffer);
    }
  }

  /** After any run, a BYE ends its dialog exactly if the Call-ID was not open twice, by an INVITE that was
      accepted again: of two slots with it only the first goes. */
  lemma ByeEndsDialogIff(ms: seq<Message>, bye: Message)
    requires FreshRun(ms) && (bye.sip.msgType == Sip.BYE || bye.sip.msgType == Sip.SIPOK)
    ensures var s := Run(ms + [bye]).slots;
      (forall i :: 0 <= i < |s| ==> !Holds(s[i], bye.sip.callid)) <==> Opened(ms, bye.sip.callid) <= 1
  {
    var after, callid := ms + [bye], bye.sip.callid;
    assert after[..|after| - 1] == ms && after[|after| - 1] == bye;
    RunHoldsOpened(after, callid);
    hide Run, HowMany, FreshRun;
    NoneHold(Run(after).slots, callid);
  }

  /** A retransmitted INVITE is accepted again: the BYE leaves one of the two slots taken. */
  lemma RetransmittedInviteOutlivesBye(invite: Sip.SIPMsg, addr: int, rtpfd: int, other: int)
    requires invite.msgType == Sip.INVITE && rtpfd != other
    ensures var ms := [Message(invite, addr, rtpfd), Message(invite, addr, other)];
      var t := Run(ms + [Message(invite.(msgType := Sip.BYE), addr, 0)]);
      FreshRun(ms) && t.nclients == 1 && HowMany(t.slots, invite.callid) == 1
  {
    var one, two := Message(invite, addr, rtpfd), Message(invite, addr, other);
    var bye := Message(invite.(msgType := Sip.BYE), addr, 0);
    var first, ms, all := [one], [one, two], [one, two] + [bye];
    assert first[..0] == [] && ms[..1] == first && all[..2] == ms;
    assert FreshRun([]) && FreshRun(first) by {
      assert Run([]) == EMPTY;
    }
    RunKeepsInv([]);
    assert Run(first).fds == {rtpfd};
    assert FreshRun(ms) && FreshRun(all);
    assert Opened(first, invite.callid) == 1 && InUse(first) == 1;
    assert Opened(ms, invite.callid) == 2 && InUse(ms) == 2;
    RunHoldsOpened(all, invite.callid);
  }

  // ----- one dialog over a run of messages -----

  /** How a Call-ID stands: not open, invited on a socket, or acknowledged, with what its last ACK brought. */
  datatype Standing = Closed | Invited(fd: int) | Confirmed(fd: int, from: string, to: string, addr: int)

  /** Counted from the messages alone: an INVITE opens it, an ACK confirms it and a BYE or 200 OK closes it. */
  function StandingOf(ms: seq<Message>, callid: string): Standing {
    if ms == [] then Closed
    else
      var before, m := ms[..|ms| - 1], ms[|ms| - 1];
      var was := StandingOf(before, callid);
      if m.sip.callid != callid then was
      else
        match m.sip.msgType
        case INVITE => if InUse(before) < MAXCLIENTS then Invited(m.rtpfd) else was
        case ACK => if was.Closed? then Closed else Confirmed(was.fd, m.sip.from, m.sip.to, m.addr)
        case _ => Closed
  }

  /** The Call-ID is never accepted again while it is open. */
  ghost predicate OnceOpen(ms: seq<Message>, callid: string) {
    ms == [] ||
      var before, m := ms[..|ms| - 1], ms[|ms| - 1];
      && OnceOpen(before, callid)
      && (m.sip.callid == callid && m.sip.msgType.INVITE? && InUse(before) < MAXCLIENTS ==> Opened(before, callid) == 0)
  }

  predicate Stands(d: Dialog, st: Standing) {
    match st
    case Closed => false
    case Invited(fd) => d.sockfd == fd && !d.ackrecvd
    case Confirmed(fd, from, to, addr) => d.sockfd == fd && d.ackrecvd && d.from == from && d.to == to && d.addr == addr
  }

  lemma {:induction false} OnceIsAtMostOne(ms: seq<Message>, callid: string)
    requires OnceOpen(ms, callid)
    ensures Opened(ms, callid) <= 1
  {
    if ms != [] {
      OnceIsAtMostOne(ms[..|ms| - 1], callid);
    }
  }

  lemma {:induction false} HoldersAreCounted(s: Slots, callid: string, i: nat)
    requires i < |s| && Holds(s[i], callid)
    ensures HowMany(s, callid) >= 1
  {
    var n := |s| - 1;
    if i < n {
      assert s[..n][i] == s[i];
      HoldersAreCounted(s[..n], callid, i);
    }
  }

  lemma {:induction false} OneHolder(s: Slots, callid: string, i: nat, j: nat)
    requires i < j < |s| && Holds(s[i], callid) && Holds(s[j], callid)
    ensures HowMany(s, callid) >= 2
  {
    var n := |s| - 1;
    assert s[..n][i] == s[i];
    if j < n {
      assert s[..n][j] == s[j];
      OneHolder(s[..n], callid, i, j);
    } else {
      HoldersAreCounted(s[..n], callid, i);
    }
  }

  lemma UniqueHolder(s: Slots, callid: string)
    requires HowMany(s, callid) <= 1
    ensures forall i, j :: 0 <= i < |s| && 0 <= j < |s| && Holds(s[i], callid) && Holds(s[j], callid) ==> i == j
  {
    hide HowMany;
    forall i, j | 0 <= i < j < |s| && Holds(s[i], callid) && Holds(s[j], callid)
      ensures false
    {
      OneHolder(s, callid, i, j);
    }
  }

  /** All slots of the Call-ID stand as given. */
  ghost predicate AllStand(s: Slots, callid: string, st: Standing) {
    forall i :: 0 <= i < |s| && Holds(s[i], callid) ==> Stands(s[i].value, st)
  }

  /** A message for another Call-ID leaves its slots as they are. */
  lemma OthersStay(t: Table, m: Message, callid: string)
    requires TableInv(t) && m.sip.callid != callid
    ensures forall i :: 0 <= i < |t.slots| && Holds(Handle(t, m).slots[i], callid) ==> t.slots[i] == Handle(t, m).slots[i]
    ensures |Handle(t, m).slots| == |t.slots|
  {
    hide FirstFree, FirstWith, TableInv;
  }

  lemma OwnMessageStands(t: Table, m: Message, was: Standing)
    requires TableInv(t) && HowMany(t.slots, m.sip.callid) <= 1 && AllStand(t.slots, m.sip.callid, was)
    requires m.sip.msgType.INVITE? && t.nclients < MAXCLIENTS ==> HowMany(t.slots, m.sip.callid) == 0
    ensures AllStand(Handle(t, m).slots, m.sip.callid,
      match m.sip.msgType
      case INVITE => if t.nclients < MAXCLIENTS then Invited(m.rtpfd) else was
      case ACK => if was.Closed? then Closed else Confirmed(was.fd, m.sip.from, m.sip.to, m.addr)
      case _ => Closed)
  {
    hide HowMany, FirstFree, FirstWith, Count;
    var callid := m.sip.callid;
    UniqueHolder(t.slots, callid);
    NoneHold(t.slots, callid);
    AcceptedFindsSlot(t);
  }

  /** Over every run of messages in which a Call-ID is not accepted again while it is open, its slot stands as the
      messages say: on the socket opened for its INVITE, acknowledged exactly if an ACK came since, and then with
      the From, To and address of the last one. */
  lemma {:induction false} RunStandsAsSaid(ms: seq<Message>, callid: string)
    requires FreshRun(ms) && OnceOpen(ms, callid)
    ensures AllStand(Run(ms).slots, callid, StandingOf(ms, callid))
    ensures StandingOf(ms, callid).Closed? <==> Opened(ms, callid) == 0
  {
    if ms == [] {
      FreeHolds(MAXCLIENTS, callid);
    } else {
      var before, m := ms[..|ms| - 1], ms[|ms| - 1];
      RunStandsAsSaid(before, callid);
      RunKeepsInv(before);
      RunHoldsOpened(before, callid);
      OnceIsAtMostOne(before, callid);
      hide TableInv, HowMany, Handle, Stands;
      if m.sip.callid != callid {
        OthersStay(Run(before), m, callid);
      } else {
        OwnMessageStands(Run(before), m, StandingOf(before, callid));
      }
    }
  }

  /** From text to table: an ACK with the Call-ID of an open dialog acknowledges the first slot that holds it, with the
      values that the text was parsed to, and leaves every other slot alone. */
  lemma AckTextAcknowledges(ms: seq<Message>, buffer: string, addr: int, rtpfd: int) returns (k: nat)
    requires FreshRun(ms) && Find(buffer, "\r\n\r\n").Some? && StartsWith(buffer, "ACK") && Sip.Parse(buffer).Parsed?
    requires Opened(ms, Sip.Parse(buffer).msg.callid) > 0
    ensures var m := Sip.Parse(buffer).msg;
      var s, s' := Run(ms).slots, Run(ms + [Message(m, addr, rtpfd)]).slots;
      && |s'| == |s| && k < |s| && Holds(s[k], m.callid) && (forall i :: 0 <= i < k ==> !Holds(s[i], m.callid))
      && s'[k] == Some(Dialog(m.callid, s[k].value.sockfd, true, m.from, m.to, addr))
      && forall i :: 0 <= i < |s| && i != k ==> s'[i] == s[i]
  {
    var m := Sip.Parse(buffer).msg;
    Sip.TypeIsRead(buffer);
    var ack := Message(m, addr, rtpfd);
    assert (ms + [ack])[..|ms|] == ms;
    RunHoldsOpened(ms, m.callid);
    NoneHold(Run(ms).slots, m.callid);
    hide Run, HowMany, Sip.Parse, Find, FirstWith;
    assert Run(ms + [ack]) == Handle(Run(ms), ack) by { RunOfSnoc(ms, ack); }
    k := FirstWith(Run(ms).slots, m.callid);
  }

  lemma RunOfSnoc(ms: seq<Message>, m: Message)
    ensures Run(ms + [m]) == Handle(Run(ms), m)
  {
    assert (ms + [m])[..|ms|] == ms;
  }

  /** A request that the parser does not support, REGISTER say, takes a slot: what the parser leaves
      behind is an INVITE without a Call-ID. */
  lemma UnsupportedTakesSlot(t: Table, buffer: string, addr: int, rtpfd: int)
    requires TableInv(t) && t.nclients < MAXCLIENTS && Sip.Parse(buffer).Unsupported?
    ensures var t' := Handle(t, Message(Sip.Parse(buffer).msg, addr, rtpfd));
      t'.nclients == t.nclients + 1 && HowMany(t'.slots, "") > 0
  {
    hide Sip.Parse, HowMany;
    assert Sip.Parse(buffer).msg == Sip.ZERO by { UnsupportedIsZero(buffer); }
    AcceptedFindsSlot(t);
    var t' := Handle(t, Message(Sip.Parse(buffer).msg, addr, rtpfd));
    assert Holds(t'.slots[FirstFree(t.slots)], "");
    NoneHold(t'.slots, "");
  }

  lemma UnsupportedIsZero(buffer: string)
    requires Sip.Parse(buffer).Unsupported?
    ensures Sip.Parse(buffer).msg == Sip.ZERO
  {
    hide Sip.TypeOf, Sip.ApplyLine, Sip.PortIn;
  }

  // ----- audio -----

  predicate Acked(o: Option<Dialog>) {
    o.Some? && o.value.ackrecvd
  }

  function CountAcked(s: Slots): nat {
    if s == [] then 0 else CountAcked(s[..|s| - 1]) + if Acked(s[|s| - 1]) then 1 else 0
  }

  /** One datagram on one socket. */
  datatype Datagram = Datagram(sockfd: int, packet: Packet)

  /** One audio frame to the acknowledged clients, first slot first, each packet with the next number. */
  function FanOut(s: Slots, sn: uint16, ts: uint32, data: seq<byte>): seq<Datagram> {
    if s == [] then []
    else
      var n := |s| - 1;
      FanOut(s[..n], sn, ts, data)
      + if Acked(s[n]) then [Datagram(s[n].value.sockfd, Packet(true, PCMA, Advance(sn, CountAcked(s[..n])), ts, data))] else []
  }

  /** Each acknowledged slot gets exactly one packet of the frame, nothing else is sent, and the numbers
      are consecutive from the counter on. */
  lemma {:induction false} FanOutReaches(s: Slots, sn: uint16, ts: uint32, data: seq<byte>)
    ensures var ds := FanOut(s, sn, ts, data);
      && |ds| == CountAcked(s)
      && (forall j :: 0 <= j < |ds| ==> ds[j].packet == Packet(true, PCMA, Advance(sn, j), ts, data))
      && (forall i :: 0 <= i < |s| && Acked(s[i]) ==>
            CountAcked(s[..i]) < |ds| && ds[CountAcked(s[..i])].sockfd == s[i].value.sockfd)
  {
    if s != [] {
      var n := |s| - 1;
      FanOutReaches(s[..n], sn, ts, data);
      assert s[..n][..n] == s[..n];
      forall i | 0 <= i < |s| && Acked(s[i])
        ensures CountAcked(s[..i]) < |FanOut(s, sn, ts, data)|
        ensures FanOut(s, sn, ts, data)[CountAcked(s[..i])].sockfd == s[i].value.sockfd
      {
        if i < n {
          assert s[..n][i] == s[i] && s[..n][..i] == s[..i];
        }
      }
    }
  }

  lemma {:induction false} CountAckedBounded(s: Slots)
    ensures CountAcked(s) <= |s|
  {
    if s != [] {
      CountAckedBounded(s[..|s| - 1]);
    }
  }

  lemma FanOutGrows(s: Slots, k: nat, sn: uint16, ts: uint32, data: seq<byte>)
    requires k < |s|
    ensures FanOut(s[..k + 1], sn, ts, data) == FanOut(s[..k], sn, ts, data)
      + if Acked(s[k]) then [Datagram(s[k].value.sockfd, Packet(true, PCMA, Advance(sn, CountAcked(s[..k])), ts, data))] else []
    ensures CountAcked(s[..k + 1]) == CountAcked(s[..k]) + if Acked(s[k]) then 1 else 0
  {
    assert s[..k + 1][..k] == s[..k];
  }

  lemma FanOutToNobody(sn: uint16, ts: uint32, data: seq<byte>)
    ensures FanOut([], sn, ts, data) == [] && CountAcked([]) == 0
  {
  }

  // ----- audio over whole runs -----

  /** The whole of the SIP side. `seed` is the number drawn last, and `base` says how much had been sent then. */
  datatype Service = Service(table: Table, rtpseqno: uint16, sent: seq<Datagram>, seed: uint16, base: nat)

  /** A message, an audio frame taken off the queue, or the new numbers that an RTSP TEARDOWN draws: nine more
      than the video's. */
  datatype Event = Arrives(m: Message) | Audio(ts: uint32, data: seq<byte>) | Reseeded(random: nat)

  function AudioSeed(random: nat): uint16 {
    ((random % 1000000 + 7) % 0x1_0000 + 9) % 0x1_0000
  }

  lemma SeedIs(random: nat)
    ensures AudioSeed(random) == (random % 1000000 + 16) % 0x1_0000
  {
  }

  function Step(s: Service, e: Event): Service {
    match e
    case Arrives(m) => s.(table := Handle(s.table, m))
    case Audio(ts, data) =>
      s.(sent := s.sent + FanOut(s.table.slots, s.rtpseqno, ts, data),
         rtpseqno := Advance(s.rtpseqno, CountAcked(s.table.slots)))
    case Reseeded(random) => s.(rtpseqno := AudioSeed(random), seed := AudioSeed(random), base := |s.sent|)
  }

  function Started(random: nat): Service {
    Service(EMPTY, random % 1000000 % 0x1_0000, [], random % 1000000 % 0x1_0000, 0)
  }

  function Continue(s: Service, es: seq<Event>): Service {
    if es == [] then s else Step(Continue(s, es[..|es| - 1]), es[|es| - 1])
  }

  function Serve(random: nat, es: seq<Event>): Service {
    Continue(Started(random), es)
  }

  ghost predicate FreshEvent(s: Service, e: Event) {
    e.Arrives? ==> Fresh(s.table, e.m)
  }

  ghost predicate CanServe(random: nat, es: seq<Event>) {
    es == [] || (CanServe(random, es[..|es| - 1]) && FreshEvent(Serve(random, es[..|es| - 1]), es[|es| - 1]))
  }

  /** The packets sent since the last seeding are numbered consecutively from the seed on, and the counter is the
      next number. */
  ghost predicate ServiceInv(s: Service) {
    && TableInv(s.table) && s.base <= |s.sent|
    && (forall i :: s.base <= i < |s.sent| ==> s.sent[i].packet.sn == Advance(s.seed, i - s.base))
    && s.rtpseqno == Advance(s.seed, |s.sent| - s.base)
  }

  lemma AdvanceByNothing(sn: uint16)
    ensures Advance(sn, 0) == sn
  {
  }

  lemma StepKeepsService(s: Service, e: Event)
    requires ServiceInv(s) && FreshEvent(s, e)
    ensures ServiceInv(Step(s, e))
  {
    hide TableInv, Handle, FanOut, CountAcked, Advance;
    match e
    case Arrives(m) => HandleKeepsInv(s.table, m);
    case Audio(ts, data) =>
      FanOutReaches(s.table.slots, s.rtpseqno, ts, data);
      var more, n := FanOut(s.table.slots, s.rtpseqno, ts, data), |s.sent| - s.base;
      forall j | 0 <= j <= |more|
        ensures Advance(s.rtpseqno, j) == Advance(s.seed, n + j)
      {
        AdvanceAdds(s.seed, n, j);
      }
      forall i | s.base <= i < |s.sent + more|
        ensures (s.sent + more)[i].packet.sn == Advance(s.seed, i - s.base)
      {
        if i >= |s.sent| {
          assert (s.sent + more)[i] == more[i - |s.sent|];
        }
      }
    case Reseeded(random) => AdvanceByNothing(AudioSeed(random));
  }

  /** Over every interleaving of messages, audio frames and seedings: the audio packets that leave on all the
      clients' sockets together are numbered consecutively from the last seed on, wrapping at 65536. */
  lemma {:induction false} AudioIsConsecutive(random: nat, es: seq<Event>)
    requires CanServe(random, es)
    ensures ServiceInv(Serve(random, es))
  {
    if es == [] {
      NoDialogs(MAXCLIENTS);
    } else {
      hide ServiceInv, Step, FreshEvent;
      AudioIsConsecutive(random, es[..|es| - 1]);
      StepKeepsService(Serve(random, es[..|es| - 1]), es[|es| - 1]);
    }
  }

  // ----- one client's stream -----

  /** The packets that go out on one socket. */
  function Heard(ds: seq<Datagram>, fd: int): seq<Packet> {
    if ds == [] then []
    else Heard(ds[..|ds| - 1], fd) + if ds[|ds| - 1].sockfd == fd then [ds[|ds| - 1].packet] else []
  }

  lemma {:induction false} HeardOfAppend(a: seq<Datagram>, b: seq<Datagram>, fd: int)
    ensures Heard(a + b, fd) == Heard(a, fd) + Heard(b, fd)
  {
    if b == [] {
      assert a + b == a;
    } else {
      assert (a + b)[..|a + b| - 1] == a + b[..|b| - 1];
      HeardOfAppend(a, b[..|b| - 1], fd);
    }
  }

  lemma HeardOfOne(d: Datagram, fd: int)
    ensures Heard([d], fd) == if d.sockfd == fd then [d.packet] else []
  {
    assert [d][..0] == [];
    assert Heard([], fd) == [];
  }

  lemma FanOutOfLast(s: Slots, sn: uint16, ts: uint32, data: seq<byte>, fd: int)
    requires s != []
    ensures var n := |s| - 1;
      Heard(FanOut(s, sn, ts, data), fd) == Heard(FanOut(s[..n], sn, ts, data), fd)
        + if Acked(s[n]) && s[n].value.sockfd == fd then [Packet(true, PCMA, Advance(sn, CountAcked(s[..n])), ts, data)] else []
  {
    hide CountAcked, Heard;
    var n := |s| - 1;
    var before := FanOut(s[..n], sn, ts, data);
    if Acked(s[n]) {
      var d := Datagram(s[n].value.sockfd, Packet(true, PCMA, Advance(sn, CountAcked(s[..n])), ts, data));
      assert FanOut(s, sn, ts, data) == before + [d];
      HeardOfAppend(before, [d], fd);
      HeardOfOne(d, fd);
    } else {
      assert FanOut(s, sn, ts, data) == before;
    }
  }

  lemma {:induction false} NotHeard(s: Slots, sn: uint16, ts: uint32, data: seq<byte>, fd: int)
    requires forall i :: 0 <= i < |s| && s[i].Some? ==> s[i].value.sockfd != fd
    ensures Heard(FanOut(s, sn, ts, data), fd) == []
  {
    hide CountAcked;
    if s != [] {
      hide FanOut, Heard;
      NotHeard(s[..|s| - 1], sn, ts, data, fd);
      FanOutOfLast(s, sn, ts, data, fd);
    }
  }

  lemma HeardOfNothing(fd: int)
    ensures Heard([], fd) == []
  {
  }

  /** Of one frame an acknowledged client hears one packet, numbered by its place among them. */
  lemma {:induction false} HeardOfFrame(s: Slots, i: nat, sn: uint16, ts: uint32, data: seq<byte>)
    requires DistinctSockets(s) && i < |s| && Acked(s[i])
    ensures Heard(FanOut(s, sn, ts, data), s[i].value.sockfd)
         == [Packet(true, PCMA, Advance(sn, CountAcked(s[..i])), ts, data)]
  {
    hide Heard, FanOut, CountAcked;
    var n, fd := |s| - 1, s[i].value.sockfd;
    FanOutOfLast(s, sn, ts, data, fd);
    if i == n {
      NotHeard(s[..n], sn, ts, data, fd);
    } else {
      assert s[..n][i] == s[i] && s[..n][..i] == s[..i];
      HeardOfFrame(s[..n], i, sn, ts, data);
    }
  }

  /** The packets a run of audio frames adds on one socket. */
  function HeardOver(s: Service, es: seq<Event>, fd: int): seq<Packet> {
    var s' := Continue(s, es);
    if |s.sent| <= |s'.sent| then Heard(s'.sent[|s.sent|..], fd) else []
  }

  lemma AudioStep(s: Service, es: seq<Event>, fd: int)
    requires es != [] && es[|es| - 1].Audio? && s.sent <= Continue(s, es[..|es| - 1]).sent
    ensures var before, e, s' := es[..|es| - 1], es[|es| - 1], Continue(s, es);
      var t := Continue(s, before);
      && s'.table == t.table && s.sent <= s'.sent
      && s'.rtpseqno == Advance(t.rtpseqno, CountAcked(t.table.slots))
      && HeardOver(s, es, fd) == HeardOver(s, before, fd) + Heard(FanOut(t.table.slots, t.rtpseqno, e.ts, e.data), fd)
  {
    hide FanOut, CountAcked, Advance, Heard;
    var t, s' := Continue(s, es[..|es| - 1]), Continue(s, es);
    var more := FanOut(t.table.slots, t.rtpseqno, es[|es| - 1].ts, es[|es| - 1].data);
    assert s'.sent == t.sent + more;
    assert s'.sent[|s.sent|..] == t.sent[|s.sent|..] + more;
    HeardOfAppend(t.sent[|s.sent|..], more, fd);
  }

  /** What a client hears of a run of audio frames: every frame once, in order, its numbers as far apart as there
      are acknowledged clients. */
  lemma {:induction false} ClientHears(s: Service, es: seq<Event>, i: nat)
    requires DistinctSockets(s.table.slots) && i < |s.table.slots| && Acked(s.table.slots[i])
    requires forall j :: 0 <= j < |es| ==> es[j].Audio?
    ensures Continue(s, es).table == s.table && s.sent <= Continue(s, es).sent
    ensures Continue(s, es).rtpseqno == Advance(s.rtpseqno, Offset(|es|, CountAcked(s.table.slots), 0))
    ensures var a, k := CountAcked(s.table.slots), CountAcked(s.table.slots[..i]);
      var heard := HeardOver(s, es, s.table.slots[i].value.sockfd);
      |heard| == |es| && forall j :: 0 <= j < |es| ==> heard[j] == HeardAt(s.rtpseqno, es[j], Offset(j, a, k))
    decreases |es|
  {
    var fd, a, k := s.table.slots[i].value.sockfd, CountAcked(s.table.slots), CountAcked(s.table.slots[..i]);
    if es == [] {
      NothingHeard(s, fd);
    } else {
      hide FanOut, CountAcked, HeardOver, Heard, Advance, Continue, DistinctSockets;
      var n := |es| - 1;
      var before, e, t := es[..n], es[n], Continue(s, es[..n]);
      ClientHears(s, before, i);
      AudioStep(s, es, fd);
      HeardOfFrame(s.table.slots, i, t.rtpseqno, e.ts, e.data);
      OneFrameOn(s.rtpseqno, n, a, k);
      var next := HeardAt(s.rtpseqno, e, Offset(n, a, k));
      assert HeardOver(s, es, fd) == HeardOver(s, before, fd) + [next];
      hide *;
      HeardGrows(HeardOver(s, before, fd), HeardOver(s, es, fd), s.rtpseqno, es, a, k);
    }
  }

  lemma HeardGrows(heard: seq<Packet>, more: seq<Packet>, sn: uint16, es: seq<Event>, a: nat, k: nat)
    requires es != [] && |heard| == |es| - 1 && forall j :: 0 <= j < |es| ==> es[j].Audio?
    requires forall j :: 0 <= j < |es| - 1 ==> heard[j] == HeardAt(sn, es[..|es| - 1][j], Offset(j, a, k))
    requires more == heard + [HeardAt(sn, es[|es| - 1], Offset(|es| - 1, a, k))]
    ensures |more| == |es| && forall j :: 0 <= j < |es| ==> more[j] == HeardAt(sn, es[j], Offset(j, a, k))
  {
    hide HeardAt, Offset;
  }

  lemma NothingHeard(s: Service, fd: int)
    ensures Continue(s, []) == s && HeardOver(s, [], fd) == [] && s.rtpseqno == Advance(s.rtpseqno, 0)
  {
    assert s.sent[|s.sent|..] == [];
  }

  function Offset(j: nat, a: nat, k: nat): nat {
    j * a + k
  }

  function HeardAt(sn: uint16, e: Event, n: nat): Packet
    requires e.Audio?
  {
    Packet(true, PCMA, Advance(sn, n), e.ts, e.data)
  }

  lemma OneFrameOn(sn: uint16, n: nat, a: nat, k: nat)
    ensures Advance(Advance(sn, Offset(n, a, 0)), k) == Advance(sn, Offset(n, a, k))
    ensures Advance(Advance(sn, Offset(n, a, 0)), a) == Advance(sn, Offset(n + 1, a, 0))
  {
    AdvanceAdds(sn, n * a, k);
    AdvanceAdds(sn, n * a, a);
    assert n * a + a == (n + 1) * a;
  }

  /** From every state of the service, a client's stream over a run of audio frames is numbered consecutively
      exactly if there is no more than one frame or the client is the only one acknowledged. */
  lemma ClientSeesConsecutiveIff(s: Service, es: seq<Event>, i: nat)
    requires ServiceInv(s) && i < |s.table.slots| && Acked(s.table.slots[i])
    requires forall j :: 0 <= j < |es| ==> es[j].Audio?
    ensures var heard := HeardOver(s, es, s.table.slots[i].value.sockfd);
      |heard| == |es| && (InSequence(heard) <==> |es| <= 1 || CountAcked(s.table.slots) == 1)
  {
    ClientHears(s, es, i);
    CountAckedBounded(s.table.slots);
    CountAckedIncludes(s.table.slots, i);
    hide *;
    SpacedIsInSequence(HeardOver(s, es, s.table.slots[i].value.sockfd), s.rtpseqno, es, CountAcked(s.table.slots),
                       CountAcked(s.table.slots[..i]));
  }

  lemma SpacedIsInSequence(heard: seq<Packet>, sn: uint16, es: seq<Event>, a: nat, k: nat)
    requires |heard| == |es| && 0 < a < 0x1_0000 && forall j :: 0 <= j < |es| ==> es[j].Audio?
    requires forall j :: 0 <= j < |es| ==> heard[j] == HeardAt(sn, es[j], Offset(j, a, k))
    ensures InSequence(heard) <==> |es| <= 1 || a == 1
  {
    hide Advance;
    forall j | 0 <= j < |es| - 1
      ensures heard[j + 1].sn == Advance(heard[j].sn, 1) <==> a == 1
    {
      assert (j + 1) * a + k == (j * a + k) + a;
      AdvanceAdds(sn, j * a + k, a);
      AdvanceIsInjective(heard[j].sn, a, 1);
    }
    if |es| > 1 {
      assert heard[0 + 1].sn == Advance(heard[0].sn, 1) <==> a == 1;
    }
  }

  ghost predicate InSequence(ps: seq<Packet>) {
    forall j :: 0 <= j < |ps| - 1 ==> ps[j + 1].sn == Advance(ps[j].sn, 1)
  }

  lemma AdvanceIsInjective(sn: uint16, a: nat, b: nat)
    requires a < 0x1_0000 && b < 0x1_0000
    ensures Advance(sn, a) == Advance(sn, b) <==> a == b
  {
  }

  lemma {:induction false} CountAckedIncludes(s: Slots, i: nat)
    requires i < |s| && Acked(s[i])
    ensures CountAcked(s) >= 1
  {
    var n := |s| - 1;
    if i < n {
      assert s[..n][i] == s[i];
      CountAckedIncludes(s[..n], i);
    }
  }

  /** With two acknowledged clients each of them finds gaps in its stream from the second frame on. */
  lemma TwoClientsHearGaps(s: Service, es: seq<Event>, i: nat, j: nat)
    requires ServiceInv(s) && i < j < |s.table.slots| && Acked(s.table.slots[i]) && Acked(s.table.slots[j])
    requires |es| > 1 && forall k :: 0 <= k < |es| ==> es[k].Audio?
    ensures !InSequence(HeardOver(s, es, s.table.slots[i].value.sockfd))
    ensures !InSequence(HeardOver(s, es, s.table.slots[j].value.sockfd))
  {
    ClientSeesConsecutiveIff(s, es, i);
    ClientSeesConsecutiveIff(s, es, j);
    TwoAreCounted(s.table.slots, i, j);
  }

  lemma ServeOn(random: nat, es: seq<Event>, e: Event) returns (more: seq<Event>, s: Service)
    requires CanServe(random, es) && FreshEvent(Serve(random, es), e)
    ensures CanServe(random, more) && s == Serve(random, more) == Step(Serve(random, es), e)
  {
    hide Step, FreshEvent;
    more := es + [e];
    assert more[..|more| - 1] == es && more[|more| - 1] == e;
    s := Serve(random, more);
  }

  /** Two INVITEs and their ACKs, with different Call-IDs, give such a state. */
  lemma TwoClientsAreServed()
    ensures exists es :: CanServe(0, es) && |Serve(0, es).table.slots| == MAXCLIENTS
                         && Acked(Serve(0, es).table.slots[0]) && Acked(Serve(0, es).table.slots[1])
  {
    var first, second := Sip.ZERO.(callid := "a"), Sip.ZERO.(callid := "b");
    assert CanServe(0, []) && Serve(0, []) == Started(0);
    hide CanServe, Serve, Continue, FirstFree, FirstWith, Sip.ZERO;
    var es, s := ServeOn(0, [], Arrives(Message(first, 0, 1)));
    assert s.table.slots[0].Some? && s.table.slots[1].None?;
    es, s := ServeOn(0, es, Arrives(Message(second, 0, 2)));
    assert Holds(s.table.slots[0], "a") && Holds(s.table.slots[1], "b");
    es, s := ServeOn(0, es, Arrives(Message(first.(msgType := Sip.ACK), 0, 0)));
    es, s := ServeOn(0, es, Arrives(Message(second.(msgType := Sip.ACK), 0, 0)));
  }

  lemma {:induction false} TwoAreCounted(s: Slots, i: nat, j: nat)
    requires i < j < |s| && Acked(s[i]) && Acked(s[j])
    ensures CountAcked(s) >= 2
  {
    var n := |s| - 1;
    assert s[..n][i] == s[i];
    if j < n {
      assert s[..n][j] == s[j];
      TwoAreCounted(s[..n], i, j);
    } else {
      CountAckedIncludes(s[..n], i);
    }
  }

  // ----- the loop's own state -----

  class DialogServer {
    const clientlist: array<Option<Dialog>>
    var nclients: int
    var sipmasterfds: set<int>
    var rtpseqno: uint16
    var sent: seq<Datagram>
    ghost var seed: uint16
    ghost var base: nat

    ghost predicate Valid()
      reads this, clientlist
    {
      ServiceInv(View())
    }

    ghost function Dialogs(): Table
      reads this, clientlist
    {
      Table(clientlist[..], nclients, sipmasterfds)
    }

    ghost function View(): Service
      reads this, clientlist
    {
      Service(Dialogs(), rtpseqno, sent, seed, base)
    }

    constructor (random: nat)
      ensures Valid() && View() == Started(random) && fresh(clientlist)
    {
      clientlist := new Option<Dialog>[MAXCLIENTS](_ => None);
      nclients, sipmasterfds, sent := 0, {}, [];
      rtpseqno, seed, base := random % 1000000 % 0x1_0000, random % 1000000 % 0x1_0000, 0;
      new;
      assert clientlist[..] == EMPTY.slots;
      NoDialogs(MAXCLIENTS);
    }

    /** TEARDOWN draws new numbers. */
    method Reseed(random: nat)
      requires Valid()
      modifies this
      ensures Valid() && View() == Step(old(View()), Reseeded(random))
      ensures rtpseqno == (random % 1000000 + 16) % 0x1_0000
    {
      SeedIs(random);
      var video: uint16 := (random % 1000000 + 7) % 0x1_0000;
      rtpseqno := (video + 9) % 0x1_0000;
      seed, base := rtpseqno, |sent|;
      StepKeepsService(old(View()), Reseeded(random));
    }

    /** The first slot with the Call-ID, or `MAXCLIENTS`. */
    method FindDialog(callid: string) returns (k: nat)
      requires clientlist.Length == MAXCLIENTS
      ensures k == FirstWith(clientlist[..], callid)
    {
      k := 0;
      while k < MAXCLIENTS && !Holds(clientlist[k], callid)
        invariant k <= MAXCLIENTS
        invariant FirstWith(clientlist[..], callid) == k + FirstWith(clientlist[k..], callid)
      {
        assert clientlist[k..][1..] == clientlist[k + 1..];
        k := k + 1;
      }
    }

    /** INVITE: an open counter is answered and gets the first free slot. */
    method Invite(m: Message) returns (accepted: bool, reply: Option<string>)
      requires Valid() && m.sip.msgType.INVITE? && Fresh(Dialogs(), m)
      modifies this, clientlist
      ensures Valid() && View() == Step(old(View()), Arrives(m))
      ensures accepted <==> old(nclients) < MAXCLIENTS
      ensures reply == Reply(old(Dialogs()), m)
    {
      accepted, reply := false, None;
      StepKeepsService(View(), Arrives(m));
      AcceptedFindsSlot(Dialogs());
      if nclients < MAXCLIENTS {
        accepted := true;
        var ok := Sip.CreateOk(m.sip);
        reply := Sip.WriteSip(ok);
        var client := Dialog(m.sip.callid, m.rtpfd, false, "", "", 0);
        var k := 0;
        while k < MAXCLIENTS
          invariant k <= MAXCLIENTS
          invariant FirstFree(clientlist[..]) == k + FirstFree(clientlist[k..])
        {
          if clientlist[k].None? {
            ghost var was := clientlist[..];
            assert FirstFree(was) == k;
            hide FirstFree;
            clientlist[k] := Some(client);
            assert clientlist[..] == was[k := Some(client)];
            sipmasterfds := sipmasterfds + {client.sockfd};
            nclients := nclients + 1;
            return;
          }
          assert clientlist[k..][1..] == clientlist[k + 1..];
          k := k + 1;
        }
      }
    }

    /** ACK: the dialog becomes a receiver of audio. */
    method Ack(m: Message)
      requires Valid() && m.sip.msgType.ACK?
      modifies clientlist
      ensures Valid() && View() == Step(old(View()), Arrives(m))
    {
      StepKeepsService(View(), Arrives(m));
      ghost var was := clientlist[..];
      var k := FindDialog(m.sip.callid);
      if k < MAXCLIENTS {
        clientlist[k] := Some(clientlist[k].value.(ackrecvd := true, from := m.sip.from, to := m.sip.to, addr := m.addr));
        assert clientlist[..] == was[k := clientlist[k]];
      }
    }

    /** BYE and 200 OK: the dialog's socket is closed and its slot freed. */
    method Remove(m: Message) returns (reply: Option<string>)
      requires Valid() && (m.sip.msgType.BYE? || m.sip.msgType.SIPOK?)
      modifies this, clientlist
      ensures Valid() && View() == Step(old(View()), Arrives(m))
      ensures reply == Reply(old(Dialogs()), m)
    {
      reply := None;
      if m.sip.msgType.BYE? {
        var ok := Sip.CreateOk(m.sip);
        reply := Sip.WriteSip(ok);
      }
      StepKeepsService(View(), Arrives(m));
      ghost var was := clientlist[..];
      var k := FindDialog(m.sip.callid);
      if k < MAXCLIENTS {
        sipmasterfds := sipmasterfds - {clientlist[k].value.sockfd};
        clientlist[k] := None;
        assert clientlist[..] == was[k := None];
        nclients := nclients - 1;
      }
    }

    /** One audio frame to every acknowledged client. */
    method SendAudio(ts: uint32, data: seq<byte>)
      requires Valid()
      modifies this
      ensures Valid() && View() == Step(old(View()), Audio(ts, data))
    {
      StepKeepsService(View(), Audio(ts, data));
      AdvanceByNothing(rtpseqno);
      hide FanOut, CountAcked, Advance;
      FanOutToNobody(rtpseqno, ts, data);
      var k := 0;
      while k < MAXCLIENTS
        invariant k <= MAXCLIENTS
        invariant sent == old(sent) + FanOut(clientlist[..k], old(rtpseqno), ts, data)
        invariant rtpseqno == Advance(old(rtpseqno), CountAcked(clientlist[..k]))
        invariant nclients == old(nclients) && sipmasterfds == old(sipmasterfds) && seed == old(seed) && base == old(base)
      {
        FanOutGrows(clientlist[..], k, old(rtpseqno), ts, data);
        assert clientlist[..][..k] == clientlist[..k] && clientlist[..][..k + 1] == clientlist[..k + 1];
        if clientlist[k].Some? && clientlist[k].value.ackrecvd {
          AdvanceAdds(old(rtpseqno), CountAcked(clientlist[..k]), 1);
          sent := sent + [Datagram(clientlist[k].value.sockfd, Packet(true, PCMA, rtpseqno, ts, data))];
          rtpseqno := Advance(rtpseqno, 1);
        }
        k := k + 1;
      }
      assert clientlist[..MAXCLIENTS] == clientlist[..];
    }

    /** ENDOFSTREAM: a BYE to every acknowledged client, at the address of its ACK. */
    method EndOfStream(garbage: Sip.SIPMsg) returns (byes: seq<(int, Sip.SIPMsg)>)
      requires Valid()
      ensures byes == Byes(clientlist[..], garbage)
    {
      byes := [];
      var k := 0;
      while k < MAXCLIENTS
        invariant k <= MAXCLIENTS && byes == Byes(clientlist[..k], garbage)
      {
        assert clientlist[..k + 1][..k] == clientlist[..k];
        if clientlist[k].Some? && clientlist[k].value.ackrecvd {
          var c := clientlist[k].value;
          var bye := Sip.CreateBye(Sip.Peer(c.callid, c.from, c.to), garbage);
          byes := byes + [(c.addr, bye)];
        }
        k := k + 1;
      }
      assert clientlist[..MAXCLIENTS] == clientlist[..];
    }
  }

  /** The BYE for a dialog and where it goes. */
  function ByeTo(d: Dialog, garbage: Sip.SIPMsg): (int, Sip.SIPMsg) {
    (d.addr, Sip.ByeFor(Sip.Peer(d.callid, d.from, d.to), garbage))
  }

  function Byes(s: Slots, garbage: Sip.SIPMsg): seq<(int, Sip.SIPMsg)> {
    if s == [] then []
    else
      var n := |s| - 1;
      Byes(s[..n], garbage) + if Acked(s[n]) then [ByeTo(s[n].value, garbage)] else []
  }

  ghost predicate IsByeOf(b: (int, Sip.SIPMsg), s: Slots, garbage: Sip.SIPMsg) {
    exists i :: 0 <= i < |s| && Acked(s[i]) && b == ByeTo(s[i].value, garbage)
  }

  /** One BYE goes out for each acknowledged slot, in slot order, and none for any other. */
  lemma ByesReach(s: Slots, garbage: Sip.SIPMsg)
    ensures var byes := Byes(s, garbage);
      && |byes| == CountAcked(s)
      && (forall i :: 0 <= i < |s| && Acked(s[i]) ==>
            CountAcked(s[..i]) < |byes| && byes[CountAcked(s[..i])] == ByeTo(s[i].value, garbage))
      && (forall b :: b in byes ==> IsByeOf(b, s, garbage))
  {
    EachGetsBye(s, garbage);
    NoOtherGetsBye(s, garbage);
  }

  lemma {:induction false} EachGetsBye(s: Slots, garbage: Sip.SIPMsg)
    ensures var byes := Byes(s, garbage);
      && |byes| == CountAcked(s)
      && forall i :: 0 <= i < |s| && Acked(s[i]) ==>
           CountAcked(s[..i]) < |byes| && byes[CountAcked(s[..i])] == ByeTo(s[i].value, garbage)
  {
    hide ByeTo;
    if s != [] {
      var n, byes := |s| - 1, Byes(s, garbage);
      EachGetsBye(s[..n], garbage);
      assert s[..n][..n] == s[..n];
      forall i | 0 <= i < |s| && Acked(s[i])
        ensures CountAcked(s[..i]) < |byes| && byes[CountAcked(s[..i])] == ByeTo(s[i].value, garbage)
      {
        if i < n {
          assert s[..n][i] == s[i] && s[..n][..i] == s[..i];
        }
      }
    }
  }

  lemma {:induction false} NoOtherGetsBye(s: Slots, garbage: Sip.SIPMsg)
    ensures forall b :: b in Byes(s, garbage) ==> IsByeOf(b, s, garbage)
  {
    hide ByeTo;
    if s != [] {
      var n := |s| - 1;
      NoOtherGetsBye(s[..n], garbage);
      forall b | b in Byes(s, garbage)
        ensures IsByeOf(b, s, garbage)
      {
        if b in Byes(s[..n], garbage) {
          var i :| 0 <= i < n && Acked(s[..n][i]) && b == ByeTo(s[..n][i].value, garbage);
          assert s[..n][i] == s[i];
        } else {
          assert Acked(s[n]) && b == ByeTo(s[n].value, garbage);
        }
      }
    }
  }

  /** Each client reads the BYE of its own dialog: its Call-ID, and From and To exchanged, exactly as far as they
      are not empty and have no leading blank. */
  lemma ByesAreRead(s: Slots, garbage: Sip.SIPMsg, i: nat)
    requires i < |s| && Acked(s[i])
    requires var d := s[i].value; CrFree(d.callid) && CrFree(d.from) && CrFree(d.to)
    ensures var d, k := s[i].value, CountAcked(s[..i]);
      && k < |Byes(s, garbage)| && Byes(s, garbage)[k].0 == d.addr
      && Sip.Print(Byes(s, garbage)[k].1).Some?
      && var r := Sip.Parse(Sip.Print(Byes(s, garbage)[k].1).value);
      && r.Parsed? && r.msg.msgType == Sip.BYE
      && (r.msg.callid == d.callid <==> Leads(d.callid))
      && (r.msg.from == d.to <==> Leads(d.to)) && (r.msg.to == d.from <==> Leads(d.from))
  {
    hide Byes, CountAcked, CrFree, Leads, Sip.Print, Sip.Parse, Sip.ByeFor;
    ByesReach(s, garbage);
    var d := s[i].value;
    Sip.ByeReadsBack(Sip.Peer(d.callid, d.from, d.to), garbage);
  }

  /** When the stream ends, a confirmed dialog gets its BYE at the address its last ACK came from, with that ACK's From
      and To exchanged. */
  lemma ByeGoesBack(ms: seq<Message>, callid: string, garbage: Sip.SIPMsg)
    requires FreshRun(ms) && OnceOpen(ms, callid) && StandingOf(ms, callid).Confirmed?
    ensures var st := StandingOf(ms, callid);
      exists b :: b in Byes(Run(ms).slots, garbage) && b.0 == st.addr && b.1.msgType == Sip.BYE
                  && b.1.callid == callid && b.1.from == st.to && b.1.to == st.from
  {
    RunStandsAsSaid(ms, callid);
    RunHoldsOpened(ms, callid);
    var s := Run(ms).slots;
    NoneHold(s, callid);
    ByesReach(s, garbage);
    hide Run, StandingOf, Byes, CountAcked, HowMany, FreshRun, OnceOpen, Opened;
    var i :| 0 <= i < |s| && Holds(s[i], callid);
    assert Stands(s[i].value, StandingOf(ms, callid)) && Acked(s[i]);
    var b := Byes(s, garbage)[CountAcked(s[..i])];
    assert b == ByeTo(s[i].value, garbage) && b in Byes(s, garbage);
  }
}
