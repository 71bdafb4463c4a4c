/** What TEARDOWN does for good: the filler it cancels makes nothing more, and once the queue is emptied
    none of its events is ever queued or dispatched again. */
module PipelineTeardown {
  import opened Timeval
  import opened EventOrder
  import opened Pipeline
  import opened PipelineLocking
  import opened PipelineFrames

  /** Filler `n` has been stopped. */
  predicate Stopped(s: State, n: nat) {
    FillerAt(s, n, Cancelled)
  }

  lemma StepKeepsStopped(s: State, l: Step, n: nat)
    requires Enabled(s, l) && Stopped(s, n)
    ensures Stopped(Do(s, l), n) && Do(s, l).fillers[n].made == s.fillers[n].made
  {
    hide Race, Insert, FrameTime, EndTime, TimeoutAt, CanWake;
  }

  lemma {:induction false} RunKeepsStopped(s: State, ls: seq<Step>, n: nat)
    requires CanRun(s, ls) && Stopped(s, n)
    ensures Stopped(Exec(s, ls), n) && Exec(s, ls).fillers[n].made == s.fillers[n].made
    decreases |ls|
  {
    hide Enabled, Do;
    if ls != [] {
      StepKeepsStopped(s, ls[0], n);
      RunKeepsStopped(Do(s, ls[0]), ls[1..], n);
    }
  }

  /** None of the filler's events is queued. */
  predicate NoneQueued(s: State, n: nat) {
    Of(n, s.queue) == []
  }

  lemma FillerQueuesNone(s: State, l: Step, n: nat)
    requires PushesOwn(s) && Enabled(s, l) && IsFillerStep(l) && Stopped(s, n) && NoneQueued(s, n)
    ensures NoneQueued(Do(s, l), n) && Do(s, l).dispatched == s.dispatched
  {
    hide Of, Insert, Race, FrameTime, EndTime;
    if l.Pushed? {
      InsertOther(n, s.queue, s.fillers[l.i].pc.e);
    }
  }

  lemma MainQueuesNone(s: State, l: Step, n: nat)
    requires PushesOwn(s) && Enabled(s, l) && !IsFillerStep(l) && NoneQueued(s, n)
    ensures NoneQueued(Do(s, l), n) && Of(n, Do(s, l).dispatched) == Of(n, s.dispatched)
  {
    hide Of, Insert, Race, TimeoutAt, CanWake;
    match l
    case OpenPushed(_) => InsertOther(n, s.queue, s.main.e);
    case LockedPushed => InsertOther(n, s.queue, s.main.e);
    case Repushed => InsertOther(n, s.queue, s.main.e);
    case Pulled =>
      if s.queue != [] {
        var head := [s.queue[0]];
        OfAppend(n, s.dispatched, head);
        assert s.queue == head + s.queue[1..];
        OfAppend(n, head, s.queue[1..]);
      }
    case TornDown(_) => OfNone(n, []);
    case _ =>
  }

  lemma StepQueuesNone(s: State, l: Step, n: nat)
    requires FrameInv(s) && Enabled(s, l) && Stopped(s, n) && NoneQueued(s, n)
    ensures NoneQueued(Do(s, l), n) && Of(n, Do(s, l).dispatched) == Of(n, s.dispatched)
  {
    assert PushesOwn(s);
    hide *;
    if IsFillerStep(l) {
      FillerQueuesNone(s, l, n);
    } else {
      MainQueuesNone(s, l, n);
    }
  }

  lemma {:induction false} RunQueuesNone(s: State, ls: seq<Step>, n: nat)
    requires FrameInv(s) && CanRun(s, ls) && Stopped(s, n) && NoneQueued(s, n)
    ensures NoneQueued(Exec(s, ls), n) && Of(n, Exec(s, ls).dispatched) == Of(n, s.dispatched)
    decreases |ls|
  {
    hide FrameInv, Enabled, Do, Stopped, NoneQueued, Of;
    if ls != [] {
      StepQueuesNone(s, ls[0], n);
      StepKeepsStopped(s, ls[0], n);
      StepKeepsFrameInv(s, ls[0]);
      RunQueuesNone(Do(s, ls[0]), ls[1..], n);
    }
  }

  /** One more step at the front of what is left of a run. */
  lemma FirstStep(s: State, l: Step, more: seq<Step>)
    requires CanRun(s, [l] + more)
    ensures Enabled(s, l) && CanRun(Do(s, l), more) && Exec(s, [l] + more) == Exec(Do(s, l), more)
  {
    assert ([l] + more)[1..] == more;
  }

  /** In every run, from the TEARDOWN on, the filler made last makes no further event. */
  lemma TeardownStopsFiller(ls: seq<Step>, more: seq<Step>)
    requires CanRun(INIT, ls + ([BeginTeardown] + more))
    ensures CanRun(INIT, ls) && Exec(INIT, ls).fillers != []
    ensures var n, s := |Exec(INIT, ls).fillers| - 1, Exec(INIT, ls + ([BeginTeardown] + more));
      && n < |s.fillers| && s.fillers[n].made == Exec(INIT, ls).fillers[n].made
      && !s.fillers[n].pc.Pushing?
  {
    hide *;
    SplitRun(INIT, ls, [BeginTeardown] + more);
    StoppedFrom(Exec(INIT, ls), more);
  }

  lemma StoppedFrom(s: State, more: seq<Step>)
    requires CanRun(s, [BeginTeardown] + more)
    ensures s.fillers != []
    ensures var n, s' := |s.fillers| - 1, Exec(s, [BeginTeardown] + more);
      n < |s'.fillers| && s'.fillers[n].made == s.fillers[n].made && !s'.fillers[n].pc.Pushing?
  {
    FirstStep(s, BeginTeardown, more);
    TeardownCancels(s);
    hide CanRun, Exec, Enabled, Do;
    RunKeepsStopped(Do(s, BeginTeardown), more, |s.fillers| - 1);
  }

  lemma TeardownCancels(s: State)
    requires Enabled(s, BeginTeardown)
    ensures s.fillers != [] && Stopped(Do(s, BeginTeardown), |s.fillers| - 1)
    ensures Do(s, BeginTeardown).fillers[|s.fillers| - 1].made == s.fillers[|s.fillers| - 1].made
  {
  }

  /** And from the moment the queue has been emptied none of its events is queued, and none is dispatched. */
  lemma TornDownIsForgotten(ls: seq<Step>, during: seq<Step>, woken: nat, more: seq<Step>)
    requires CanRun(INIT, ls + ([BeginTeardown] + (during + ([TornDown(woken)] + more))))
    ensures CanRun(INIT, ls) && Exec(INIT, ls).fillers != []
    ensures CanRun(INIT, ls + ([BeginTeardown] + during))
    ensures var n := |Exec(INIT, ls).fillers| - 1;
      var before := Exec(INIT, ls + ([BeginTeardown] + during));
      var s := Exec(INIT, ls + ([BeginTeardown] + (during + ([TornDown(woken)] + more))));
      && (forall e :: e in s.queue ==> !MadeBy(e, n))
      && Of(n, s.dispatched) == Of(n, before.dispatched)
  {
    var front, tail := ls + ([BeginTeardown] + during), [TornDown(woken)] + more;
    Regroup(ls, [BeginTeardown], during, tail);
    hide *;
    SplitRun(INIT, front, tail);
    StoppedAfter(ls, during);
    ForgottenAfter(Exec(INIT, front), woken, more, |Exec(INIT, ls).fillers| - 1);
  }

  lemma Regroup(ls: seq<Step>, l: seq<Step>, during: seq<Step>, tail: seq<Step>)
    ensures ls + (l + (during + tail)) == (ls + (l + during)) + tail
  {
  }

  lemma StoppedAfter(ls: seq<Step>, during: seq<Step>)
    requires CanRun(INIT, ls + ([BeginTeardown] + during))
    ensures CanRun(INIT, ls) && Exec(INIT, ls).fillers != []
    ensures FrameInv(Exec(INIT, ls + ([BeginTeardown] + during)))
    ensures Stopped(Exec(INIT, ls + ([BeginTeardown] + during)), |Exec(INIT, ls).fillers| - 1)
  {
    hide *;
    SplitRun(INIT, ls, [BeginTeardown] + during);
    var start := Exec(INIT, ls);
    FirstStep(start, BeginTeardown, during);
    TeardownCancels(start);
    RunKeepsStopped(Do(start, BeginTeardown), during, |start.fillers| - 1);
    InitHoldsFrameInv();
    RunKeepsFrameInv(INIT, ls + ([BeginTeardown] + during));
  }

  lemma ForgottenAfter(s: State, woken: nat, more: seq<Step>, n: nat)
    requires FrameInv(s) && Stopped(s, n) && CanRun(s, [TornDown(woken)] + more)
    ensures var s' := Exec(s, [TornDown(woken)] + more);
      (forall e :: e in s'.queue ==> !MadeBy(e, n)) && Of(n, s'.dispatched) == Of(n, s.dispatched)
  {
    hide *;
    FirstStep(s, TornDown(woken), more);
    var next := Do(s, TornDown(woken));
    EmptiedQueuesNone(s, woken, n);
    StepKeepsStopped(s, TornDown(woken), n);
    StepKeepsFrameInv(s, TornDown(woken));
    RunQueuesNone(next, more, n);
    NoneIsMadeBy(n, Exec(next, more));
  }

  lemma EmptiedQueuesNone(s: State, woken: nat, n: nat)
    requires Enabled(s, TornDown(woken))
    ensures NoneQueued(Do(s, TornDown(woken)), n) && Do(s, TornDown(woken)).dispatched == s.dispatched
  {
    OfNone(n, []);
    hide Of;
  }

  lemma NoneIsMadeBy(n: nat, s: State)
    requires NoneQueued(s, n)
    ensures forall e :: e in s.queue ==> !MadeBy(e, n)
  {
    forall e | e in s.queue
      ensures !MadeBy(e, n)
    {
      OfIsSome(n, s.queue, e);
    }
  }
}
