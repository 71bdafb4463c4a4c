/** Locking in the pipeline: who owns the mutex, and who can be inside the queue operations at once. */
module PipelineLocking {
  import opened Timeval
  import opened EventOrder
  import opened Pipeline

  /** The filler owns the mutex by its program counter. In `Lock` it does only when it went there without
      unlocking: then it is about to lock a mutex it holds. */
  predicate Holds(f: Filler) {
    f.pc.Read? || f.pc.Pushing? || f.pc.Unlock? || ((f.pc.Test? || f.pc.Lock?) && f.mutlocked)
  }

  predicate MainHolds(pc: MainPc) {
    !pc.Idle? && !pc.OpenPush? && !pc.Announcing?
  }

  ghost predicate LockInv(s: State) {
    && (s.owner == Main <==> MainHolds(s.main))
    && (forall i :: 0 <= i < |s.fillers| ==> (s.owner == OfFiller(i) <==> Holds(s.fillers[i])))
    && (s.owner.OfFiller? ==> s.owner.i < |s.fillers|)
    && (forall i :: 0 <= i < |s.fillers| ==> FillerOk(s.fillers[i]))
  }

  predicate FillerOk(f: Filler) {
    && (f.pc.Wait? || f.pc.Signalled? || f.pc.Relock? || f.pc.Exited? || f.pc.Cancelled? ==> !f.mutlocked)
    && (f.quit && f.pc.Test? ==> !f.mutlocked)
    && (f.quit ==> f.pc.Pushing? || f.pc.Unlock? || f.pc.Test? || f.pc.Exited? || f.pc.Cancelled?)
    && (f.pc.Pushing? ==> (f.quit <==> f.pc.e.item.ENDOFSTREAM?) && !f.pc.e.item.CHECKMEDIASTATE?)
    && (!f.pc.Lock? && !f.pc.Wait? && !f.pc.Signalled? && !f.pc.Cancelled? ==> f.base.Some?)
  }

  predicate IsFillerStep(l: Step) {
    l.LockAndWait? || l.Wake? || l.TestLoop? || l.TakeLock? || l.ReadFrame? || l.ReadEnd? || l.Pushed? || l.Unlocked?
  }

  /** A filler's step changes that filler, and the mutex only if it takes or releases it itself. */
  lemma FillerChangeKeepsLockInv(s: State, s': State, i: nat)
    requires LockInv(s) && i < |s.fillers| && s'.main == s.main
    requires |s'.fillers| == |s.fillers| && forall j :: 0 <= j < |s.fillers| && j != i ==> s'.fillers[j] == s.fillers[j]
    requires FillerOk(s'.fillers[i])
    requires || (s'.owner == s.owner && Holds(s'.fillers[i]) == Holds(s.fillers[i]))
             || (s.owner == Nobody && s'.owner == OfFiller(i) && Holds(s'.fillers[i]))
             || (s.owner == OfFiller(i) && s'.owner == Nobody && !Holds(s'.fillers[i]))
    ensures LockInv(s')
  {
    hide Holds, FillerOk, MainHolds;
  }

  lemma FillerStepKeepsLockInv(s: State, l: Step)
    requires LockInv(s) && Enabled(s, l) && IsFillerStep(l)
    ensures LockInv(Do(s, l))
  {
    hide Insert, FrameTime, EndTime, Race;
    var s' := Do(s, l);
    var f, f' := s.fillers[l.i], s'.fillers[l.i];
    assert FillerOk(f) && (s.owner == OfFiller(l.i) <==> Holds(f));
    FillerChangeKeepsLockInv(s, s', l.i);
  }

  lemma SignalKeepsLockInv(s: State, woken: nat)
    requires LockInv(s)
    ensures LockInv(Signal(s, woken))
  {
    if FillerAt(s, woken, Wait) {
      assert FillerOk(s.fillers[woken]);
      FillerChangeKeepsLockInv(s, Signal(s, woken), woken);
    }
  }

  lemma MainStepKeepsLockInv(s: State, l: Step)
    requires LockInv(s) && Enabled(s, l) && !IsFillerStep(l)
    ensures LockInv(Do(s, l))
  {
    hide Insert, TimeoutAt, Race, CanWake;
    match l
    case SignalAndUnlock(woken) => SignalKeepsLockInv(s, woken);
    case TornDown(woken) => SignalKeepsLockInv(s, woken);
    case BeginTeardown =>
      assert FillerOk(s.fillers[|s.fillers| - 1]);
    case _ =>
  }

  lemma StepKeepsLockInv(s: State, l: Step)
    requires LockInv(s) && Enabled(s, l)
    ensures LockInv(Do(s, l))
  {
    hide LockInv, Enabled, Do;
    if IsFillerStep(l) {
      FillerStepKeepsLockInv(s, l);
    } else {
      MainStepKeepsLockInv(s, l);
    }
  }

  lemma FillersStay(s: State, l: Step)
    requires Enabled(s, l)
    ensures |s.fillers| <= |Do(s, l).fillers|
  {
  }

  lemma {:induction false} RunKeepsLockInv(s: State, ls: seq<Step>)
    requires LockInv(s) && CanRun(s, ls)
    ensures LockInv(Exec(s, ls))
    decreases |ls|
  {
    hide LockInv, Enabled, Do;
    if ls != [] {
      StepKeepsLockInv(s, ls[0]);
      RunKeepsLockInv(Do(s, ls[0]), ls[1..]);
    }
  }

  // ----- mutual exclusion -----

  /** In every reachable state at most one filler is inside the queue, never together with the event
      loop when that holds the mutex: the only race is with one of PLAY's unlocked pushes. */
  lemma OnlyPlayRaces(ls: seq<Step>)
    requires CanRun(INIT, ls)
    ensures var s := Exec(INIT, ls);
      && LockInv(s)
      && (Race(s) <==> s.main.OpenPush? && exists i :: 0 <= i < |s.fillers| && s.fillers[i].pc.Pushing?)
  {
    RunKeepsLockInv(INIT, ls);
    var s := Exec(INIT, ls);
    hide CanRun, Exec;
    forall i | 0 <= i < |s.fillers| && s.fillers[i].pc.Pushing?
      ensures s.owner == OfFiller(i)
    {
      assert Holds(s.fillers[i]);
    }
  }

  /** The mutex is free, or its owner is about to free it. */
  predicate Obtainable(s: State) {
    s.owner == Nobody || (s.owner.OfFiller? && FillerAt(s, s.owner.i, Unlock))
  }

  /** The filler is awake, and nothing but its own steps is needed to bring it inside `push_event`. */
  predicate WillPush(s: State, f: Filler) {
    || f.pc.Pushing? || f.pc.Read?
    || (f.pc.Relock? && Obtainable(s))
    || (|s.queue| < QUEUESIZE && !f.quit &&
          (f.pc.Unlock? || (f.pc.Test? && (f.mutlocked || Obtainable(s))) || (f.pc.Signalled? && Obtainable(s))))
  }

  ghost predicate Endangered(s: State) {
    exists i :: 0 <= i < |s.fillers| && WillPush(s, s.fillers[i])
  }

  /** The steps of a run all taken while PLAY's pushes are under way. */
  ghost predicate OpenRun(s: State, ls: seq<Step>)
    decreases |ls|
  {
    s.main.OpenPush? && (ls == [] || (Enabled(s, ls[0]) && OpenRun(Do(s, ls[0]), ls[1..])))
  }

  lemma {:induction false} OpenRunIsRun(s: State, ls: seq<Step>)
    requires OpenRun(s, ls)
    ensures CanRun(s, ls) && Exec(s, ls).main.OpenPush?
    decreases |ls|
  {
    hide Enabled, Do;
    if ls != [] {
      OpenRunIsRun(Do(s, ls[0]), ls[1..]);
    }
  }

  lemma SafeStaysSafe(s: State, l: Step)
    requires LockInv(s) && Enabled(s, l) && s.main.OpenPush? && !Endangered(s)
    ensures Do(s, l).main.OpenPush? ==> !Endangered(Do(s, l))
  {
    hide Race, Insert, FrameTime, EndTime, TimeoutAt;
    if l.OpenPushed? {
      InsertGrows(s.queue, s.main.e);
    }
  }

  lemma InsertGrows(q: seq<Event>, e: Event)
    ensures |Insert(q, e)| == |q| + 1
  {
  }

  lemma {:induction false} SafeRunHasNoRace(s: State, ls: seq<Step>)
    requires LockInv(s) && OpenRun(s, ls) && !Endangered(s)
    ensures CanRun(s, ls) && !Race(Exec(s, ls))
    decreases |ls|
  {
    OpenRunIsRun(s, ls);
    if ls == [] {
      assert forall i :: 0 <= i < |s.fillers| && s.fillers[i].pc.Pushing? ==> WillPush(s, s.fillers[i]);
    } else {
      hide LockInv, Enabled, Do, Race, Endangered;
      StepKeepsLockInv(s, ls[0]);
      SafeStaysSafe(s, ls[0]);
      SafeRunHasNoRace(Do(s, ls[0]), ls[1..]);
    }
  }

  /** The step that brings the filler closer to `push_event`: its own next one, unless another filler
      must free the mutex first. */
  ghost function Toward(s: State, i: nat): Step
    requires i < |s.fillers| && WillPush(s, s.fillers[i]) && !s.fillers[i].pc.Pushing?
  {
    var f := s.fillers[i];
    if s.owner.OfFiller? && s.owner.i != i && (f.pc.Relock? || f.pc.Signalled?) then Unlocked(s.owner.i)
    else
      match f.pc
      case Read => ReadFrame(i, Frame(0, []))
      case Relock => TakeLock(i)
      case Unlock => Unlocked(i)
      case Test => TestLoop(i)
      case _ => Wake(i, Timeval(0, 0))
  }

  /** How many steps are at most needed. */
  ghost function Distance(s: State, i: nat): nat
    requires i < |s.fillers|
  {
    var f := s.fillers[i];
    var wait := if s.owner == Nobody || s.owner == OfFiller(i) then 0 else 1;
    match f.pc
    case Pushing(_) => 0
    case Read => 1
    case Relock => 2 + wait
    case Test => if f.mutlocked then 2 else 3 + wait
    case Unlock => 5
    case _ => 3 + wait
  }

  lemma StepToward(s: State, i: nat)
    requires LockInv(s) && s.main.OpenPush? && !Race(s)
    requires i < |s.fillers| && WillPush(s, s.fillers[i])
    ensures !s.fillers[i].pc.Pushing? && Enabled(s, Toward(s, i))
    ensures var s' := Do(s, Toward(s, i));
      && s'.main == s.main && i < |s'.fillers|
      && WillPush(s', s'.fillers[i]) && Distance(s', i) < Distance(s, i)
  {
    hide FrameTime;
    var f := s.fillers[i];
    assert FillerOk(f) && (s.owner == OfFiller(i) <==> Holds(f));
    assert s.owner.OfFiller? ==> Holds(s.fillers[s.owner.i]) && FillerOk(s.fillers[s.owner.i]);
  }

  lemma {:induction false} RaceWithin(s: State, i: nat) returns (ls: seq<Step>)
    requires LockInv(s) && s.main.OpenPush?
    requires i < |s.fillers| && WillPush(s, s.fillers[i])
    ensures OpenRun(s, ls) && CanRun(s, ls) && Race(Exec(s, ls))
    decreases Distance(s, i)
  {
    hide LockInv, Enabled, Do, Race, WillPush, Distance;
    if Race(s) {
      ls := [];
    } else {
      StepToward(s, i);
      var l := Toward(s, i);
      StepKeepsLockInv(s, l);
      var more := RaceWithin(Do(s, l), i);
      ls := [l] + more;
      assert ls[1..] == more;
    }
  }

  /** While PLAY's pushes are under way a race can be reached exactly when some filler is endangering
      them. */
  lemma RaceReachableIff(s: State)
    requires LockInv(s) && s.main.OpenPush?
    ensures (exists ls :: OpenRun(s, ls) && CanRun(s, ls) && Race(Exec(s, ls))) <==> Endangered(s)
  {
    hide LockInv, Race, WillPush;
    if Endangered(s) {
      var i :| 0 <= i < |s.fillers| && WillPush(s, s.fillers[i]);
      var ls := RaceWithin(s, i);
    } else {
      forall ls | OpenRun(s, ls) && CanRun(s, ls)
        ensures !Race(Exec(s, ls))
      {
        SafeRunHasNoRace(s, ls);
      }
    }
  }

  /** Handling PLAY with the media at hand can end in a race exactly when, before it, a filler is awake
      and has room in the queue. The filler PLAY itself creates is harmless: it cannot leave its wait
      before a later signal. */
  lemma PlayRacesIff(s: State, garbage: Timeval, now: Timeval)
    requires LockInv(s) && Enabled(s, Play(garbage, now))
    ensures var s' := Do(s, Play(garbage, now));
      (exists ls :: OpenRun(s', ls) && CanRun(s', ls) && Race(Exec(s', ls))) <==> Endangered(s)
  {
    var s' := Do(s, Play(garbage, now));
    StepKeepsLockInv(s, Play(garbage, now));
    RaceReachableIff(s');
    PlayEndangers(s, garbage, now);
  }

  lemma PlayEndangers(s: State, garbage: Timeval, now: Timeval)
    requires LockInv(s) && Enabled(s, Play(garbage, now))
    ensures Endangered(Do(s, Play(garbage, now))) <==> Endangered(s)
  {
    hide Race;
    var s' := Do(s, Play(garbage, now));
    assert forall i :: 0 <= i < |s.fillers| ==> s'.fillers[i] == s.fillers[i];
    forall i | 0 <= i < |s.fillers|
      ensures WillPush(s, s.fillers[i]) <==> WillPush(s', s'.fillers[i])
    {
    }
  }

  /** A run that handles PLAY, with the media at hand, only while no filler is awake with room to push. */
  ghost predicate GuardedRun(s: State, ls: seq<Step>)
    decreases |ls|
  {
    ls == [] || (Enabled(s, ls[0]) && (ls[0].Play? ==> !Endangered(s)) && GuardedRun(Do(s, ls[0]), ls[1..]))
  }

  lemma {:induction false} GuardedRunFrom(s: State, ls: seq<Step>)
    requires LockInv(s) && GuardedRun(s, ls) && (s.main.OpenPush? ==> !Endangered(s))
    ensures CanRun(s, ls) && LockInv(Exec(s, ls)) && !Race(Exec(s, ls))
    decreases |ls|
  {
    if ls == [] {
      if s.main.OpenPush? {
        SafeRunHasNoRace(s, []);
      } else {
        NoRaceOtherwise(s);
      }
    } else {
      hide LockInv, Do, Race, Endangered;
      var l := ls[0];
      StepKeepsLockInv(s, l);
      if l.Play? {
        PlayEndangers(s, l.garbage, l.now);
      } else if s.main.OpenPush? {
        SafeStaysSafe(s, l);
      } else {
        NoOpenPush(s, l);
      }
      GuardedRunFrom(Do(s, l), ls[1..]);
    }
  }

  lemma NoRaceOtherwise(s: State)
    requires LockInv(s) && !s.main.OpenPush?
    ensures !Race(s)
  {
    assert forall i :: 0 <= i < |s.fillers| && s.fillers[i].pc.Pushing? ==> Holds(s.fillers[i]);
  }

  lemma NoOpenPush(s: State, l: Step)
    requires Enabled(s, l) && !l.Play? && !s.main.OpenPush?
    ensures !Do(s, l).main.OpenPush?
  {
    hide Race, Insert;
  }

  /** Mutual exclusion over all interleavings: in every guarded run no two threads are ever inside the
      queue operations together. */
  lemma GuardedRunsNeverRace(ls: seq<Step>)
    requires GuardedRun(INIT, ls)
    ensures CanRun(INIT, ls) && !Race(Exec(INIT, ls))
  {
    GuardedRunFrom(INIT, ls);
  }

  // ----- runs that show it -----

  lemma {:induction false} AppendRun(s: State, ls: seq<Step>, more: seq<Step>)
    requires CanRun(s, ls) && CanRun(Exec(s, ls), more)
    ensures CanRun(s, ls + more) && Exec(s, ls + more) == Exec(Exec(s, ls), more)
    decreases |ls|
  {
    hide Enabled, Do;
    if ls == [] {
      assert ls + more == more;
    } else {
      assert (ls + more)[1..] == ls[1..] + more;
      AppendRun(Do(s, ls[0]), ls[1..], more);
    }
  }

  lemma {:induction false} SplitRun(s: State, ls: seq<Step>, more: seq<Step>)
    requires CanRun(s, ls + more)
    ensures CanRun(s, ls) && CanRun(Exec(s, ls), more) && Exec(s, ls + more) == Exec(Exec(s, ls), more)
    decreases |ls|
  {
    hide Enabled, Do;
    if ls == [] {
      assert ls + more == more;
    } else {
      assert (ls + more)[1..] == ls[1..] + more;
      SplitRun(Do(s, ls[0]), ls[1..], more);
    }
  }

  lemma Take(ls: seq<Step>, l: Step) returns (more: seq<Step>, s: State)
    requires CanRun(INIT, ls) && Enabled(Exec(INIT, ls), l)
    ensures CanRun(INIT, more) && s == Exec(INIT, more) == Do(Exec(INIT, ls), l)
  {
    hide Enabled, Do;
    more := ls + [l];
    s := Do(Exec(INIT, ls), l);
    assert [l][1..] == [];
    AppendRun(INIT, ls, [l]);
  }

  lemma Start()
    ensures CanRun(INIT, []) && Exec(INIT, []) == INIT
  {
  }

  const T0 := Timeval(0, 0)

  /** The download is complete, its filler waits and the first timeout is in the queue. */
  lemma FillerWaits() returns (ls: seq<Step>, s: State)
    ensures CanRun(INIT, ls) && s == Exec(INIT, ls)
    ensures s == INIT.(media := true, queue := [Check(T0, 1000)], fillers := [NewFiller(T0).(pc := Wait)])
  {
    Start();
    hide CanRun, Exec, TimeoutAt;
    ls, s := Take([], Create(T0));
    ls, s := Take(ls, LockAndWait(0));
    assert s == INIT.(media := true, main := Announcing, fillers := [NewFiller(T0).(pc := Wait)]);
    ls, s := Take(ls, Announce(T0));
    ls, s := Take(ls, LockedPushed);
  }

  /** One timeout is handled; the signal wakes filler `woken` if it waits, and nobody if nobody does. */
  lemma TimeoutSignals(ls: seq<Step>, woken: nat) returns (more: seq<Step>, s: State)
    requires CanRun(INIT, ls)
    requires var s0 := Exec(INIT, ls);
      && s0.media && s0.main == Idle && s0.owner == Nobody && 0 < |s0.queue| < QUEUESIZE / 2
      && (forall f :: f in s0.fillers ==> !f.pc.Pushing?) && CanWake(s0, woken)
    ensures CanRun(INIT, more) && s == Exec(INIT, more)
    ensures var s0 := Exec(INIT, ls);
      && s.media && s.main == Idle && s.owner == Nobody && s.queue == s0.queue[1..]
      && s.fillers == Signal(s0, woken).fillers
  {
    hide CanRun, Exec, TimeoutAt;
    more, s := Take(ls, BeginTimeout);
    more, s := Take(more, Pulled);
    more, s := Take(more, Handled(T0));
    assert CanWake(s, woken) by {
      assert forall i :: FillerAt(s, i, Wait) ==> FillerAt(Exec(INIT, ls), i, Wait);
    }
    more, s := Take(more, SignalAndUnlock(woken));
  }

  /** A race does happen: when the download is complete before PLAY arrives there are two fillers, and
      the first, woken by the timeout of the download, can push while PLAY does. */
  lemma DownloadThenPlayCanRace()
    ensures exists ls :: CanRun(INIT, ls) && Race(Exec(INIT, ls))
  {
    var ls, s := AwakeAtPlay();
    RunKeepsLockInv(INIT, ls);
    hide *;
    var more := RaceWithin(s, 0);
    AppendRun(INIT, ls, more);
  }

  /** PLAY is being handled while the filler of the download has been signalled. */
  lemma AwakeAtPlay() returns (ls: seq<Step>, s: State)
    ensures LockInv(INIT) && CanRun(INIT, ls) && s == Exec(INIT, ls)
    ensures s.main.OpenPush? && 0 < |s.fillers| && WillPush(s, s.fillers[0])
  {
    ls, s := FillerWaits();
    hide CanRun, Exec, TimeoutAt;
    assert FillerAt(s, 0, Wait);
    ls, s := TimeoutSignals(ls, 0);
    ls, s := Take(ls, Play(T0, T0));
  }
}
