/** The bound on the queue: how far the unlocked size test can be overrun. */
module PipelineBound {
  import opened Timeval
  import opened EventOrder
  import opened Pipeline
  import opened PipelineLocking
  import opened PipelineDeadlock

  /** The events the fillers have put in the queue. */
  function Stream(q: seq<Event>): nat {
    if q == [] then 0 else Stream(q[..|q| - 1]) + if q[|q| - 1].item.CHECKMEDIASTATE? then 0 else 1
  }

  lemma {:induction false} StreamOfAppend(a: seq<Event>, b: seq<Event>)
    ensures Stream(a + b) == Stream(a) + Stream(b)
  {
    if b == [] {
      assert a + b == a;
    } else {
      assert (a + b)[..|a + b| - 1] == a + b[..|b| - 1];
      StreamOfAppend(a, b[..|b| - 1]);
    }
  }

  lemma StreamOfInsert(q: seq<Event>, e: Event)
    ensures Stream(Insert(q, e)) == Stream(q) + if e.item.CHECKMEDIASTATE? then 0 else 1
  {
    var k := Position(q, e.time);
    StreamOfAppend(q[..k] + [e], q[k..]);
    StreamOfAppend(q[..k], [e]);
    StreamOfAppend(q[..k], q[k..]);
    assert q == q[..k] + q[k..];
    assert [e][..0] == [];
  }

  lemma {:induction false} StreamIsPart(q: seq<Event>)
    ensures Stream(q) <= |q|
  {
    if q != [] {
      StreamIsPart(q[..|q| - 1]);
    }
  }

  lemma StreamOfTail(q: seq<Event>)
    requires q != []
    ensures Stream(q[1..]) <= Stream(q)
  {
    assert q == [q[0]] + q[1..];
    StreamOfAppend([q[0]], q[1..]);
  }

  /** Past the test and not yet done pushing. */
  predicate Committed(f: Filler) {
    f.pc.Relock? || f.pc.Read? || f.pc.Pushing?
  }

  function CountCommitted(fs: seq<Filler>): nat {
    if fs == [] then 0 else CountCommitted(fs[..|fs| - 1]) + if Committed(fs[|fs| - 1]) then 1 else 0
  }

  /** The fillers that have neither ended nor been cancelled. */
  function CountLive(fs: seq<Filler>): nat {
    if fs == [] then 0 else CountLive(fs[..|fs| - 1]) + if Live(fs[|fs| - 1]) then 1 else 0
  }

  lemma {:induction false} CommittedAreLive(fs: seq<Filler>)
    ensures CountCommitted(fs) <= CountLive(fs) <= |fs|
  {
    if fs != [] {
      CommittedAreLive(fs[..|fs| - 1]);
    }
  }

  lemma {:induction false} CountAfterChange(fs: seq<Filler>, i: nat, f: Filler)
    requires i < |fs|
    ensures CountCommitted(fs[i := f]) - (if Committed(f) then 1 else 0)
         == CountCommitted(fs) - (if Committed(fs[i]) then 1 else 0)
  {
    var n := |fs| - 1;
    if i < n {
      assert fs[i := f][..n] == fs[..n][i := f];
      CountAfterChange(fs[..n], i, f);
    } else {
      assert fs[i := f][..n] == fs[..n];
    }
  }

  lemma CountAfterCreate(fs: seq<Filler>, f: Filler)
    requires f.pc.Lock?
    ensures CountCommitted(fs + [f]) == CountCommitted(fs)
  {
    assert (fs + [f])[..|fs|] == fs;
  }

  /** In no state of the run do more than `n` fillers live. */
  ghost predicate LiveAtMost(s: State, ls: seq<Step>, n: nat)
    requires CanRun(s, ls)
    decreases |ls|
  {
    CountLive(s.fillers) <= n && (ls == [] || LiveAtMost(Do(s, ls[0]), ls[1..], n))
  }

  /** Frames and end marks in the queue, and those about to come, against the fillers that live at once. What
      ended fillers left behind is in the queue, and so in the sizes that the later tests see. */
  ghost predicate BoundInv(s: State, n: nat) {
    && Stream(s.queue) + CountCommitted(s.fillers) <= QUEUESIZE - 1 + n
    && (s.main.OpenPush? || s.main.LockedPush? || s.main.Repushing? ==> s.main.e.item.CHECKMEDIASTATE?)
  }

  lemma FillerStepKeepsBound(s: State, l: Step, n: nat)
    requires BoundInv(s, n) && Enabled(s, l) && IsFillerStep(l) && LockInv(s) && CountLive(Do(s, l).fillers) <= n
    ensures BoundInv(Do(s, l), n)
  {
    hide Insert, FrameTime, EndTime, Race, LockInv, Stream, CountCommitted, CountLive;
    var s' := Do(s, l);
    CountAfterChange(s.fillers, l.i, s'.fillers[l.i]);
    if l.TestLoop? {
      CommittedAreLive(s'.fillers);
      StreamIsPart(s.queue);
    } else if l.Pushed? {
      StreamOfInsert(s.queue, s.fillers[l.i].pc.e);
      assert !s.fillers[l.i].pc.e.item.CHECKMEDIASTATE? by { FillersPushStream(s, l.i); }
    }
  }

  lemma FillersPushStream(s: State, i: nat)
    requires LockInv(s) && i < |s.fillers| && s.fillers[i].pc.Pushing?
    ensures !s.fillers[i].pc.e.item.CHECKMEDIASTATE?
  {
    assert FillerOk(s.fillers[i]);
  }

  lemma SignalKeepsCount(s: State, woken: nat)
    ensures CountCommitted(Signal(s, woken).fillers) == CountCommitted(s.fillers)
  {
    if FillerAt(s, woken, Wait) {
      CountAfterChange(s.fillers, woken, s.fillers[woken].(pc := Signalled));
    }
  }

  lemma MainStepKeepsBound(s: State, l: Step, n: nat)
    requires BoundInv(s, n) && Enabled(s, l) && !IsFillerStep(l)
    ensures BoundInv(Do(s, l), n)
  {
    hide Insert, TimeoutAt, Race, Stream, CountCommitted;
    match l
    case Create(g) => CountAfterCreate(s.fillers, NewFiller(g));
    case Play(g, _) => CountAfterCreate(s.fillers, NewFiller(g));
    case OpenPushed(_) => StreamOfInsert(s.queue, s.main.e);
    case LockedPushed => StreamOfInsert(s.queue, s.main.e);
    case Repushed => StreamOfInsert(s.queue, s.main.e);
    case Pulled =>
      if s.queue != [] {
        StreamOfTail(s.queue);
      }
    case SignalAndUnlock(woken) => SignalKeepsCount(s, woken);
    case BeginTeardown =>
      var last := |s.fillers| - 1;
      CountAfterChange(s.fillers, last, Do(s, l).fillers[last]);
    case TornDown(woken) =>
      SignalKeepsCount(s, woken);
      StreamIsPart([]);
    case _ =>
  }

  lemma {:induction false} RunKeepsBound(s: State, ls: seq<Step>, n: nat)
    requires LockInv(s) && BoundInv(s, n) && CanRun(s, ls) && LiveAtMost(s, ls, n)
    ensures BoundInv(Exec(s, ls), n)
    decreases |ls|
  {
    if ls != [] {
      hide Enabled, Do, BoundInv, LockInv, CountLive;
      StepKeepsLockInv(s, ls[0]);
      assert CountLive(Do(s, ls[0]).fillers) <= n;
      if IsFillerStep(ls[0]) {
        FillerStepKeepsBound(s, ls[0], n);
      } else {
        MainStepKeepsBound(s, ls[0], n);
      }
      RunKeepsBound(Do(s, ls[0]), ls[1..], n);
    }
  }

  /** Although the size is tested without the mutex and the push happens later: where at most `n` fillers
      live at once, the queue never holds more than `QUEUESIZE - 1 + n` frames and end marks, those of ended
      fillers included. The rest of the queue is CHECKMEDIASTATE events. */
  lemma BufferBound(ls: seq<Step>, n: nat)
    requires CanRun(INIT, ls) && LiveAtMost(INIT, ls, n)
    ensures Stream(Exec(INIT, ls).queue) <= QUEUESIZE - 1 + n
  {
    RunKeepsBound(INIT, ls, n);
  }

  lemma {:induction false} OneIsCounted(fs: seq<Filler>)
    requires forall i, j :: 0 <= i < j < |fs| ==> !(Live(fs[i]) && Live(fs[j]))
    ensures CountLive(fs) <= 1
    ensures (forall i :: 0 <= i < |fs| ==> !Live(fs[i])) ==> CountLive(fs) == 0
  {
    hide Live;
    if fs != [] {
      OneIsCounted(fs[..|fs| - 1]);
    }
  }

  lemma {:induction false} SoloIsLiveAtMost(s: State, ls: seq<Step>)
    requires SoloRun(s, ls) && CanRun(s, ls)
    ensures LiveAtMost(s, ls, 1)
    decreases |ls|
  {
    hide Enabled, Do, Live, CountLive;
    OneIsCounted(s.fillers);
    if ls != [] {
      SoloIsLiveAtMost(Do(s, ls[0]), ls[1..]);
    }
  }

  /** With one filler at a time the frames and end marks in the queue never exceed `QUEUESIZE`. */
  lemma LoneFillerIsBounded(ls: seq<Step>)
    requires SoloRun(INIT, ls)
    ensures CanRun(INIT, ls) && Stream(Exec(INIT, ls).queue) <= QUEUESIZE
  {
    LoneFillerIsSafe(ls);
    SoloIsLiveAtMost(INIT, ls);
    BufferBound(ls, 1);
  }

  // ----- the bound is met -----

  /** Fillers are never forgotten, so no state of a run has more of them than its last. */
  lemma {:induction false} LiveAtMostAll(s: State, ls: seq<Step>)
    requires CanRun(s, ls)
    ensures |s.fillers| <= |Exec(s, ls).fillers|
    ensures LiveAtMost(s, ls, |Exec(s, ls).fillers|)
    decreases |ls|
  {
    hide Enabled, Do, CountLive;
    CommittedAreLive(s.fillers);
    if ls != [] {
      LiveAtMostAll(Do(s, ls[0]), ls[1..]);
      FillersStay(s, ls[0]);
    }
  }

  lemma {:induction false} FramesAreStream(q: seq<Event>)
    requires forall e :: e in q ==> e.item.FRAME?
    ensures Stream(q) == |q|
  {
    if q != [] {
      FramesAreStream(q[..|q| - 1]);
    }
  }

  /** The first filler passes the test with one place left, and before it has the mutex the second passes
      it too. */
  lemma BothArePast() returns (ls: seq<Step>, s: State)
    ensures CanRun(INIT, ls) && s == Exec(INIT, ls)
    ensures s.main == Idle && |s.fillers| == 2 && s.fillers[0].pc.Relock? && FillerAt(s, 1, Read)
    ensures forall i :: 0 <= i < 2 ==> s.fillers[i].base.Some? && !s.fillers[i].quit
    ensures |s.queue| == QUEUESIZE - 1 && forall e :: e in s.queue ==> e.item.FRAME?
  {
    ls, s := FirstFills(QUEUESIZE - 1);
    hide CanRun, Exec;
    ls, s := Take(ls, TestLoop(0));
    ls, s := Take(ls, Wake(1, T0));
    ls, s := Take(ls, TestLoop(1));
  }

  /** The bound is met with two fillers. */
  lemma BoundIsReached()
    ensures exists ls :: CanRun(INIT, ls) && LiveAtMost(INIT, ls, 2) && Stream(Exec(INIT, ls).queue) == QUEUESIZE - 1 + 2
  {
    var ls, s := BothArePast();
    hide CanRun, Exec, Stream, LiveAtMost;
    ls, s := OnePush(ls, 1);
    ls, s := Take(ls, TakeLock(0));
    ls, s := OnePush(ls, 0);
    FramesAreStream(s.queue);
    LiveAtMostAll(INIT, ls);
  }
}
