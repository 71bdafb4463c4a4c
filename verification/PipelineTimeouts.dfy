/** The CHECKMEDIASTATE events that keep the loop going before the media is there, those that PLAY adds, and
    which timeouts wake a filler. */
module PipelineTimeouts {
  import opened Timeval
  import opened EventOrder
  import opened Pipeline
  import opened PipelineLocking

  /** The CHECKMEDIASTATE events of the queue. */
  function Checks(q: seq<Event>): nat {
    if q == [] then 0 else Checks(q[..|q| - 1]) + if q[|q| - 1].item.CHECKMEDIASTATE? then 1 else 0
  }

  lemma {:induction false} ChecksOfAppend(a: seq<Event>, b: seq<Event>)
    ensures Checks(a + b) == Checks(a) + Checks(b)
  {
    if b == [] {
      assert a + b == a;
    } else {
      assert (a + b)[..|a + b| - 1] == a + b[..|b| - 1];
      ChecksOfAppend(a, b[..|b| - 1]);
    }
  }

  lemma ChecksOfOne(e: Event)
    ensures Checks([e]) == if e.item.CHECKMEDIASTATE? then 1 else 0
  {
    assert [e][..0] == [];
  }

  lemma ChecksOfInsert(q: seq<Event>, e: Event)
    ensures Checks(Insert(q, e)) == Checks(q) + if e.item.CHECKMEDIASTATE? then 1 else 0
  {
    hide Position, Checks;
    var k := Position(q, e.time);
    ChecksOfAppend(q[..k] + [e], q[k..]);
    ChecksOfAppend(q[..k], [e]);
    ChecksOfOne(e);
    ChecksOfAppend(q[..k], q[k..]);
    assert q == q[..k] + q[k..];
  }

  lemma ChecksOfTail(q: seq<Event>)
    requires q != []
    ensures Checks(q) == Checks(q[1..]) + if q[0].item.CHECKMEDIASTATE? then 1 else 0
  {
    hide Checks;
    assert q == [q[0]] + q[1..];
    ChecksOfAppend([q[0]], q[1..]);
    ChecksOfOne(q[0]);
  }

  /** With the one the event loop has in its hand. */
  function Polls(s: State): nat {
    Checks(s.queue) + match s.main
      case Handling(e) => if e.item.CHECKMEDIASTATE? then 1 else 0
      case Repushing(_) => 1
      case LockedPush(_) => 1
      case OpenPush(_, _) => 1
      case _ => 0
  }

  /** Before the media is there no filler exists, and what the loop pushes are CHECKMEDIASTATE events. */
  ghost predicate PollInv(s: State) {
    && (!s.media ==> s.fillers == [])
    && (s.main.OpenPush? || s.main.Announcing? ==> s.media)
    && (s.main.OpenPush? || s.main.LockedPush? || s.main.Repushing? ==> s.main.e.item.CHECKMEDIASTATE?)
    && (!s.media && s.main.Handling? ==> s.main.e.item.CHECKMEDIASTATE?)
    && (!s.media ==> forall e :: e in s.queue ==> e.item.CHECKMEDIASTATE?)
    && (s.main.Emptying? ==> s.media)
  }

  lemma StepKeepsPollInv(s: State, l: Step)
    requires PollInv(s) && Enabled(s, l)
    ensures PollInv(Do(s, l)) && (s.media ==> Do(s, l).media)
  {
    hide Race, FrameTime, EndTime, TimeoutAt, CanWake, Insert;
    if l.LockedPushed? || l.Repushed? || l.OpenPushed? {
      InsertedAreOld(s.queue, s.main.e);
    }
  }

  lemma InsertedAreOld(q: seq<Event>, e: Event)
    ensures forall x :: x in Insert(q, e) ==> x in q || x == e
  {
  }

  /** While the media is missing no step loses a poll. */
  lemma StepKeepsPolls(s: State, l: Step)
    requires PollInv(s) && Enabled(s, l) && !Do(s, l).media
    ensures Polls(s) <= Polls(Do(s, l))
  {
    hide Race, FrameTime, EndTime, TimeoutAt, CanWake, Insert, Checks;
    if l.LockedPushed? || l.Repushed? || l.OpenPushed? {
      ChecksOfInsert(s.queue, s.main.e);
    } else if l.Pulled? && s.queue != [] {
      ChecksOfTail(s.queue);
    }
  }

  lemma {:induction false} RunKeepsPolls(s: State, ls: seq<Step>)
    requires PollInv(s) && CanRun(s, ls)
    ensures PollInv(Exec(s, ls)) && (s.media ==> Exec(s, ls).media)
    ensures !Exec(s, ls).media ==> Polls(s) <= Polls(Exec(s, ls))
    decreases |ls|
  {
    hide PollInv, Enabled, Do, Polls;
    if ls != [] {
      StepKeepsPollInv(s, ls[0]);
      RunKeepsPolls(Do(s, ls[0]), ls[1..]);
      if !Exec(s, ls).media {
        StepKeepsPolls(s, ls[0]);
      }
    }
  }

  /** Over every run, while the media is missing the number of CHECKMEDIASTATE events, queued or in the loop's
      hand, never falls: the polling that PLAY started goes on. */
  lemma PollingGoesOn(ls: seq<Step>, more: seq<Step>)
    requires CanRun(INIT, ls + more) && !Exec(INIT, ls + more).media
    ensures CanRun(INIT, ls) && Polls(Exec(INIT, ls)) <= Polls(Exec(INIT, ls + more))
    ensures Polls(Exec(INIT, ls)) > 0 && Exec(INIT, ls + more).main == Idle ==> Exec(INIT, ls + more).queue != []
  {
    SplitRun(INIT, ls, more);
    RunKeepsPolls(INIT, ls);
    hide PollInv, CanRun, Exec;
    RunKeepsPolls(Exec(INIT, ls), more);
  }

  lemma ChecksStay(s: State, l: Step)
    requires Enabled(s, l) && s.main.OpenPush? && !l.OpenPushed?
    ensures Do(s, l).main == s.main
  {
    hide Race, FrameTime, EndTime, TimeoutAt, CanWake, Insert;
  }

  /** PLAY with the media at hand: whatever the fillers do meanwhile, the loop is about to insert a CHECKMEDIASTATE
      event due 100 milliseconds after the reading of the clock, and another one after it. */
  lemma PlayArmsFirst(s: State, garbage: Timeval, now: Timeval, ls: seq<Step>)
    requires Enabled(s, Play(garbage, now)) && CanRun(Do(s, Play(garbage, now)), ls)
    requires forall l :: l in ls ==> !l.OpenPushed?
    ensures var s' := Exec(Do(s, Play(garbage, now)), ls); Due(s', 100000, now) && s'.main.more
  {
    TimesOfPlay(now);
    PushIsPending(Do(s, Play(garbage, now)), ls);
    hide Race, CanRun, Exec;
  }

  /** And when the first is in the queue, one due 2 seconds after the next reading, which is the last. */
  lemma PlayArmsSecond(s: State, now: Timeval, ls: seq<Step>)
    requires s.main.OpenPush? && s.main.more && Enabled(s, OpenPushed(now)) && CanRun(Do(s, OpenPushed(now)), ls)
    requires forall l :: l in ls ==> !l.OpenPushed?
    ensures var s' := Exec(Do(s, OpenPushed(now)), ls); Due(s', 2000000, now) && !s'.main.more
    ensures Do(s, OpenPushed(now)).queue == Insert(s.queue, s.main.e)
  {
    TimesOfPlay(now);
    PushIsPending(Do(s, OpenPushed(now)), ls);
    hide Race, CanRun, Exec, Insert;
  }

  /** The event loop is about to insert a CHECKMEDIASTATE due `micros` after `now`. */
  predicate Due(s: State, micros: int, now: Timeval) {
    s.main.OpenPush? && s.main.e.item.CHECKMEDIASTATE? && s.main.e.time.Micros() == now.Micros() + micros
  }

  /** The events the loop pushes with the mutex, and when they are due: a second after the download, 100 milliseconds
      after an early PLAY, and, handled while the media is missing, another second later. */
  lemma LockedPushesAreDue(s: State, l: Step)
    requires Enabled(s, l)
    ensures l.Announce? ==>
              var m := Do(s, l).main; m.LockedPush? && m.e.item.CHECKMEDIASTATE? && m.e.time.Micros() == l.now.Micros() + 1000000
    ensures l.EarlyPlay? ==>
              var m := Do(s, l).main; m.LockedPush? && m.e.item.CHECKMEDIASTATE? && m.e.time.Micros() == l.now.Micros() + 100000
    ensures l.Handled? ==>
              var m := Do(s, l).main;
              if s.main.e.item.CHECKMEDIASTATE? && !s.media then
                m.Repushing? && m.e.item.CHECKMEDIASTATE? && m.e.time.Micros() == l.now.Micros() + 1000000
              else m.Signalling?
    ensures l.LockedPushed? || l.Repushed? || l.OpenPushed? ==> Do(s, l).queue == Insert(s.queue, s.main.e)
  {
    hide Race, Insert, FrameTime, EndTime, CanWake;
  }

  lemma TimesOfPlay(now: Timeval)
    ensures TimeoutAt(now, 100).Micros() == now.Micros() + 100000
    ensures TimeoutAt(now, 2000).Micros() == now.Micros() + 2000000
  {
  }

  lemma {:induction false} PushIsPending(s: State, ls: seq<Step>)
    requires CanRun(s, ls) && s.main.OpenPush? && forall l :: l in ls ==> !l.OpenPushed?
    ensures Exec(s, ls).main == s.main
    decreases |ls|
  {
    hide Enabled, Do;
    if ls != [] {
      assert ls[0] in ls && forall l :: l in ls[1..] ==> l in ls;
      ChecksStay(s, ls[0]);
      PushIsPending(Do(s, ls[0]), ls[1..]);
    }
  }

  // ----- waking -----

  /** The signal that reaches filler `i`: that of a timeout that leaves the queue less than half full, or that of
      TEARDOWN. */
  predicate Wakes(s: State, l: Step, i: nat) {
    (l == SignalAndUnlock(i) && 2 * |s.queue| < QUEUESIZE) || l == TornDown(i)
  }

  lemma StepWakesIff(s: State, l: Step, i: nat)
    requires Enabled(s, l) && FillerAt(s, i, Wait)
    ensures i < |Do(s, l).fillers|
    ensures Do(s, l).fillers[i].pc.Signalled? <==> Wakes(s, l, i)
    ensures Do(s, l).fillers[i].pc.Wait? || Do(s, l).fillers[i].pc.Signalled? || Do(s, l).fillers[i].pc.Cancelled?
  {
    hide Enabled, Do, Wakes;
    if IsFillerStep(l) {
      FillerStepWakesNone(s, l, i);
    } else {
      MainStepWakesIff(s, l, i);
    }
  }

  lemma FillerStepWakesNone(s: State, l: Step, i: nat)
    requires Enabled(s, l) && IsFillerStep(l) && FillerAt(s, i, Wait)
    ensures FillerAt(Do(s, l), i, Wait) && !Wakes(s, l, i)
  {
    hide Race, FrameTime, EndTime, Insert;
  }

  lemma MainStepWakesIff(s: State, l: Step, i: nat)
    requires Enabled(s, l) && !IsFillerStep(l) && FillerAt(s, i, Wait)
    ensures i < |Do(s, l).fillers|
    ensures Do(s, l).fillers[i].pc.Signalled? <==> Wakes(s, l, i)
    ensures Do(s, l).fillers[i].pc.Wait? || Do(s, l).fillers[i].pc.Signalled? || Do(s, l).fillers[i].pc.Cancelled?
  {
    hide Race, TimeoutAt, CanWake, Insert;
  }

  /** In every run a filler that waits goes on waiting, unless TEARDOWN cancels it, until a timeout that leaves the
      queue less than half full, or a TEARDOWN, picks it. */
  ghost predicate NeverPicked(s: State, ls: seq<Step>, i: nat)
    requires CanRun(s, ls)
    decreases |ls|
  {
    ls == [] || (!Wakes(s, ls[0], i) && NeverPicked(Do(s, ls[0]), ls[1..], i))
  }

  lemma {:induction false} WaitsUntilPicked(s: State, ls: seq<Step>, i: nat)
    requires CanRun(s, ls) && i < |s.fillers| && (s.fillers[i].pc.Wait? || s.fillers[i].pc.Cancelled?) && NeverPicked(s, ls, i)
    ensures i < |Exec(s, ls).fillers|
    ensures Exec(s, ls).fillers[i].pc.Wait? || Exec(s, ls).fillers[i].pc.Cancelled?
    decreases |ls|
  {
    hide Enabled, Do, Wakes;
    if ls != [] {
      if s.fillers[i].pc.Wait? {
        StepWakesIff(s, ls[0], i);
      } else {
        CancelledStays(s, ls[0], i);
      }
      WaitsUntilPicked(Do(s, ls[0]), ls[1..], i);
    }
  }

  lemma CancelledStays(s: State, l: Step, i: nat)
    requires Enabled(s, l) && FillerAt(s, i, Cancelled)
    ensures FillerAt(Do(s, l), i, Cancelled)
  {
    hide Race, FrameTime, EndTime, TimeoutAt, CanWake, Insert;
  }
}
