/** When a filler locks the mutex it holds: never as long as one filler lives at a time, and in some run
    of two. */
module PipelineDeadlock {
  import opened Timeval
  import opened EventOrder
  import opened Pipeline
  import opened PipelineLocking

  /** The filler is about to lock the mutex it holds. */
  predicate Dead(s: State, i: nat) {
    FillerAt(s, i, Lock) && s.fillers[i].mutlocked
  }

  lemma DeadlockPersists(s: State, l: Step, i: nat)
    requires LockInv(s) && Enabled(s, l) && Dead(s, i)
    ensures Dead(Do(s, l), i) && s.owner == OfFiller(i) == Do(s, l).owner
  {
    hide Race, Insert, FrameTime, EndTime, TimeoutAt;
    assert Holds(s.fillers[i]);
    assert forall j :: 0 <= j < |s.fillers| && j != i ==> !Holds(s.fillers[j]);
  }

  /** Then the mutex is never free again: no frame is ever sent. */
  lemma {:induction false} DeadlockIsForever(s: State, ls: seq<Step>, i: nat)
    requires LockInv(s) && CanRun(s, ls) && Dead(s, i)
    ensures Dead(Exec(s, ls), i) && Exec(s, ls).owner == OfFiller(i)
    decreases |ls|
  {
    if ls == [] {
      assert Holds(s.fillers[i]);
    } else {
      hide LockInv, Enabled, Do, Dead;
      DeadlockPersists(s, ls[0], i);
      StepKeepsLockInv(s, ls[0]);
      DeadlockIsForever(Do(s, ls[0]), ls[1..], i);
    }
  }

  /** The filler finds the queue full at its test right after waking. */
  predicate FindsFull(s: State, l: Step, i: nat) {
    l == TestLoop(i) && i < |s.fillers| && s.fillers[i].mutlocked && |s.queue| >= QUEUESIZE
  }

  /** It does so somewhere in the run. */
  ghost predicate WokeToFull(s: State, ls: seq<Step>, i: nat)
    requires CanRun(s, ls)
    decreases |ls|
  {
    ls != [] && (FindsFull(s, ls[0], i) || WokeToFull(Do(s, ls[0]), ls[1..], i))
  }

  lemma FillerStepKillsIff(s: State, l: Step, i: nat)
    requires Enabled(s, l) && IsFillerStep(l) && !Dead(s, i) && (i < |s.fillers| ==> FillerOk(s.fillers[i]))
    ensures Dead(Do(s, l), i) <==> FindsFull(s, l, i)
  {
    hide Race, Insert, FrameTime, EndTime;
    assert i < |s.fillers| && l.i != i ==> Do(s, l).fillers[i] == s.fillers[i];
  }

  lemma MainStepKillsNone(s: State, l: Step, i: nat)
    requires Enabled(s, l) && !IsFillerStep(l) && !Dead(s, i)
    ensures !Dead(Do(s, l), i)
  {
    hide Race, Insert, TimeoutAt, CanWake;
  }

  lemma StepKillsIff(s: State, l: Step, i: nat)
    requires LockInv(s) && Enabled(s, l) && !Dead(s, i)
    ensures Dead(Do(s, l), i) <==> FindsFull(s, l, i)
  {
    hide Enabled, Do, Dead, FillerOk;
    if IsFillerStep(l) {
      FillerStepKillsIff(s, l, i);
    } else {
      MainStepKillsNone(s, l, i);
    }
  }

  lemma {:induction false} DeadFrom(s: State, ls: seq<Step>, i: nat)
    requires LockInv(s) && CanRun(s, ls) && !Dead(s, i)
    ensures Dead(Exec(s, ls), i) <==> WokeToFull(s, ls, i)
    decreases |ls|
  {
    hide LockInv, Enabled, Do, Dead, FindsFull;
    if ls != [] {
      var next := Do(s, ls[0]);
      StepKeepsLockInv(s, ls[0]);
      StepKillsIff(s, ls[0], i);
      if FindsFull(s, ls[0], i) {
        DeadlockIsForever(next, ls[1..], i);
      } else {
        DeadFrom(next, ls[1..], i);
      }
    }
  }

  /** A run leaves a filler locked out by itself exactly if that filler once woke to a full queue. */
  lemma DeadlockIff(ls: seq<Step>, i: nat)
    requires CanRun(INIT, ls)
    ensures Dead(Exec(INIT, ls), i) <==> WokeToFull(INIT, ls, i)
  {
    DeadFrom(INIT, ls, i);
  }

  // ----- one filler at a time -----

  predicate Live(f: Filler) {
    !f.pc.Exited? && !f.pc.Cancelled?
  }

  predicate NoneLives(s: State) {
    forall i :: 0 <= i < |s.fillers| ==> !Live(s.fillers[i])
  }

  predicate OneLives(s: State) {
    forall i, j :: 0 <= i < j < |s.fillers| ==> !(Live(s.fillers[i]) && Live(s.fillers[j]))
  }

  /** In every state of the run at most one filler has neither ended nor been cancelled. */
  ghost predicate SoloRun(s: State, ls: seq<Step>)
    decreases |ls|
  {
    OneLives(s) && (ls == [] || (Enabled(s, ls[0]) && SoloRun(Do(s, ls[0]), ls[1..])))
  }

  /** While the event loop is about to push, the filler cannot have been signalled; and once it has been,
      nothing but its own pushes makes the queue longer. */
  predicate SoloOk(f: Filler, queued: nat, main: MainPc) {
    && (main.Announcing? || main.LockedPush? || main.OpenPush? ==> f.pc.Lock? || f.pc.Wait?)
    && (f.pc.Signalled? || (f.pc.Test? && f.mutlocked) ==> queued < QUEUESIZE)
    && (f.pc.Lock? ==> !f.mutlocked)
  }

  ghost predicate SoloInv(s: State) {
    && (!s.media ==> s.fillers == []) && (s.main.Repushing? ==> !s.media)
    && (forall i :: 0 <= i < |s.fillers| && Live(s.fillers[i]) ==> SoloOk(s.fillers[i], |s.queue|, s.main))
  }

  lemma SoloFillerStep(s: State, l: Step)
    requires LockInv(s) && SoloInv(s) && OneLives(s) && Enabled(s, l) && IsFillerStep(l)
    ensures SoloInv(Do(s, l))
  {
    hide Race, Insert, FrameTime, EndTime;
    var f := s.fillers[l.i];
    assert Live(f) && SoloOk(f, |s.queue|, s.main) && FillerOk(f);
    hide LockInv;
  }

  lemma SoloMainStep(s: State, l: Step)
    requires SoloInv(s) && Enabled(s, l) && !IsFillerStep(l) && OneLives(Do(s, l))
    ensures SoloInv(Do(s, l))
  {
    hide Race, Insert, TimeoutAt, FrameTime, EndTime;
    if l.Play? {
      PlayFindsNone(s, l);
    }
  }

  /** PLAY adds a filler, so every earlier one has ended. */
  lemma PlayFindsNone(s: State, l: Step)
    requires Enabled(s, l) && l.Play? && OneLives(Do(s, l))
    ensures NoneLives(s)
  {
    hide Race;
    var fs := Do(s, l).fillers;
    assert Live(fs[|s.fillers|]);
    assert forall i :: 0 <= i < |s.fillers| ==> fs[i] == s.fillers[i];
  }

  lemma SoloStep(s: State, l: Step)
    requires LockInv(s) && SoloInv(s) && OneLives(s) && Enabled(s, l) && OneLives(Do(s, l))
    ensures LockInv(Do(s, l)) && SoloInv(Do(s, l))
  {
    hide LockInv, SoloInv, Enabled, Do, OneLives;
    StepKeepsLockInv(s, l);
    if IsFillerStep(l) {
      SoloFillerStep(s, l);
    } else {
      SoloMainStep(s, l);
    }
  }

  lemma {:induction false} SoloRunFrom(s: State, ls: seq<Step>)
    requires LockInv(s) && SoloInv(s) && SoloRun(s, ls)
    ensures GuardedRun(s, ls) && CanRun(s, ls) && SoloInv(Exec(s, ls))
    decreases |ls|
  {
    hide LockInv, SoloInv, Enabled, Do, Endangered, OneLives;
    if ls != [] {
      assert OneLives(Do(s, ls[0]));
      SoloStep(s, ls[0]);
      if ls[0].Play? {
        PlayFindsNone(s, ls[0]);
        NoneIsEndangered(s);
      }
      SoloRunFrom(Do(s, ls[0]), ls[1..]);
    }
  }

  lemma NoneIsEndangered(s: State)
    requires NoneLives(s)
    ensures !Endangered(s)
  {
  }

  /** One filler at a time is safe, over all interleavings and all frames: no two threads are ever inside
      the queue operations together, and the filler never locks the mutex it holds. */
  lemma LoneFillerIsSafe(ls: seq<Step>)
    requires SoloRun(INIT, ls)
    ensures CanRun(INIT, ls) && !Race(Exec(INIT, ls))
    ensures forall i: nat :: !Dead(Exec(INIT, ls), i)
  {
    SoloRunFrom(INIT, ls);
    GuardedRunsNeverRace(ls);
    var s := Exec(INIT, ls);
    forall i: nat
      ensures !Dead(s, i)
    {
      assert i < |s.fillers| && Live(s.fillers[i]) ==> SoloOk(s.fillers[i], |s.queue|, s.main);
    }
  }

  // ----- two fillers -----

  const WOKEN := NewFiller(T0).(pc := Signalled)

  /** A second PLAY adds a filler, and the two timeouts that follow wake both before either has run. */
  lemma TwoAreWoken() returns (ls: seq<Step>, s: State)
    ensures CanRun(INIT, ls) && s == Exec(INIT, ls)
    ensures s.media && s.main == Idle && s.owner == Nobody && s.queue == [] && s.fillers == [WOKEN, WOKEN]
  {
    ls, s := FillerWaits();
    hide CanRun, Exec, TimeoutAt;
    ls, s := Take(ls, Play(T0, T0));
    ls, s := PlayPushes(ls);
    ls, s := Take(ls, LockAndWait(1));
    assert FillerAt(s, 0, Wait) && FillerAt(s, 1, Wait);
    ls, s := TimeoutSignals(ls, 0);
    assert FillerAt(s, 1, Wait);
    ls, s := TimeoutSignals(ls, 1);
    ls, s := TimeoutSignals(ls, 0);
  }

  lemma PlayPushes(ls: seq<Step>) returns (more: seq<Step>, s: State)
    requires CanRun(INIT, ls)
    requires var s0 := Exec(INIT, ls); s0.main.OpenPush? && s0.main.more && !Race(s0) && forall f :: f in s0.fillers ==> !f.pc.Pushing?
    ensures CanRun(INIT, more) && s == Exec(INIT, more)
    ensures var s0 := Exec(INIT, ls);
      s.media == s0.media && s.main == Idle && s.owner == s0.owner && s.fillers == s0.fillers && |s.queue| == |s0.queue| + 2
  {
    hide CanRun, Exec, TimeoutAt, Insert;
    var s0 := Exec(INIT, ls);
    InsertGrows(s0.queue, s0.main.e);
    more, s := Take(ls, OpenPushed(T0));
    InsertGrows(s.queue, s.main.e);
    more, s := Take(more, OpenPushed(T0));
  }

  /** Filler 0 is awake between two frames while filler 1 has been signalled and not yet run. */
  predicate Filling(s: State) {
    && s.media && s.main == Idle && s.owner == Nobody && |s.fillers| == 2
    && s.fillers[0].pc.Test? && !s.fillers[0].mutlocked && !s.fillers[0].quit && s.fillers[0].base.Some?
    && s.fillers[1] == WOKEN && forall e :: e in s.queue ==> e.item.FRAME?
  }

  /** The filler reads a frame and pushes it; nobody else moves. */
  lemma OnePush(ls: seq<Step>, i: nat) returns (more: seq<Step>, s: State)
    requires CanRun(INIT, ls)
    requires var s0 := Exec(INIT, ls);
      && s0.main == Idle && FillerAt(s0, i, Read) && s0.fillers[i].base.Some? && !s0.fillers[i].quit
      && (forall f :: f in s0.fillers ==> !f.pc.Pushing?) && (forall e :: e in s0.queue ==> e.item.FRAME?)
    ensures CanRun(INIT, more) && s == Exec(INIT, more)
    ensures var s0 := Exec(INIT, ls);
      && s.media == s0.media && s.main == Idle && s.owner == Nobody && |s.queue| == |s0.queue| + 1
      && (forall e :: e in s.queue ==> e.item.FRAME?)
      && |s.fillers| == |s0.fillers| && (forall j :: 0 <= j < |s.fillers| && j != i ==> s.fillers[j] == s0.fillers[j])
      && FillerAt(s, i, Test) && !s.fillers[i].mutlocked && !s.fillers[i].quit && s.fillers[i].base.Some?
  {
    hide CanRun, Exec, FrameTime, Insert;
    more, s := Take(ls, ReadFrame(i, Frame(0, [])));
    more, s := InHandIsPushed(more, i);
  }

  lemma InHandIsPushed(ls: seq<Step>, i: nat) returns (more: seq<Step>, s: State)
    requires CanRun(INIT, ls)
    requires var s0 := Exec(INIT, ls);
      && s0.main == Idle && i < |s0.fillers| && s0.fillers[i].pc.Pushing? && s0.fillers[i].pc.e.item.FRAME?
      && (forall j :: 0 <= j < |s0.fillers| && j != i ==> !s0.fillers[j].pc.Pushing?)
      && (forall e :: e in s0.queue ==> e.item.FRAME?)
    ensures CanRun(INIT, more) && s == Exec(INIT, more)
    ensures var s0 := Exec(INIT, ls);
      && s.media == s0.media && s.main == Idle && s.owner == Nobody && |s.queue| == |s0.queue| + 1
      && (forall e :: e in s.queue ==> e.item.FRAME?)
      && |s.fillers| == |s0.fillers| && s.fillers == s0.fillers[i := s0.fillers[i].(pc := Test, mutlocked := false)]
  {
    hide CanRun, Exec, Insert;
    var s0 := Exec(INIT, ls);
    InsertedAre(s0.queue, s0.fillers[i].pc.e);
    more, s := Take(ls, Pushed(i));
    NobodyPushes(s0, s, i);
    hide Race;
    more, s := Take(more, Unlocked(i));
  }

  lemma NobodyPushes(s: State, s': State, i: nat)
    requires i < |s.fillers| && s'.fillers == s.fillers[i := s.fillers[i].(pc := Unlock)] && s'.main == Idle
    requires forall j :: 0 <= j < |s.fillers| && j != i ==> !s.fillers[j].pc.Pushing?
    ensures !Race(s')
  {
    assert forall j :: 0 <= j < |s'.fillers| ==> !s'.fillers[j].pc.Pushing?;
  }

  lemma InsertedAre(q: seq<Event>, e: Event)
    requires e.item.FRAME? && forall x :: x in q ==> x.item.FRAME?
    ensures |Insert(q, e)| == |q| + 1 && forall x :: x in Insert(q, e) ==> x.item.FRAME?
  {
  }

  lemma {:induction false} FillUp(ls: seq<Step>, n: nat) returns (more: seq<Step>, s: State)
    requires CanRun(INIT, ls) && Filling(Exec(INIT, ls)) && |Exec(INIT, ls).queue| <= n <= QUEUESIZE
    ensures CanRun(INIT, more) && s == Exec(INIT, more) && Filling(s) && |s.queue| == n
    decreases n - |Exec(INIT, ls).queue|
  {
    hide CanRun, Exec;
    more, s := ls, Exec(INIT, ls);
    if |s.queue| < n {
      more, s := Take(ls, TestLoop(0));
      more, s := Take(more, TakeLock(0));
      more, s := OnePush(more, 0);
      more, s := FillUp(more, n);
    }
  }

  /** Filler 0 wakes first and pushes frames until `n` are queued. */
  lemma FirstFills(n: nat) returns (ls: seq<Step>, s: State)
    requires 1 <= n <= QUEUESIZE
    ensures CanRun(INIT, ls) && s == Exec(INIT, ls) && Filling(s) && |s.queue| == n
  {
    ls, s := TwoAreWoken();
    hide CanRun, Exec;
    ls, s := Take(ls, Wake(0, T0));
    ls, s := Take(ls, TestLoop(0));
    ls, s := OnePush(ls, 0);
    ls, s := FillUp(ls, n);
  }

  /** With two fillers it happens: signalled while the queue was empty, the second wakes when the first
      has filled it. */
  lemma DeadlockIsReachable()
    ensures exists ls :: CanRun(INIT, ls) && |Exec(INIT, ls).fillers| == 2 && Dead(Exec(INIT, ls), 1)
  {
    var ls, s := FirstFills(QUEUESIZE);
    hide CanRun, Exec;
    ls, s := Take(ls, Wake(1, T0));
    ls, s := Take(ls, TestLoop(1));
  }
}
