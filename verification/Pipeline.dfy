/** The filler threads and the event loop as a step system over the shared queue, the mutex
    `queuelock` and the condition variable `queuecond`.

    A step of a thread runs up to its next point of interference. The queue operations have a beginning
    and an end, so that two threads can be caught inside them; their effect is that of `EventOrder`. A
    state in which two threads are inside them has no further steps, because the program's behaviour
    is undefined from there on. Frames, clock readings, the choice of the thread a signal wakes and the
    initial garbage in `prev_timestamp` are parameters of the steps. A wait ends by a signal only. */
module Pipeline {
  import opened Wrappers
  import opened Timeval
  import opened EventOrder

  datatype Frame = Frame(ts: nat, data: seq<int>)

  /** What an event of the queue carries; `filler` is the thread that made it. */
  datatype Payload = FRAME(filler: nat, frame: Frame) | ENDOFSTREAM(filler: nat) | CHECKMEDIASTATE

  type Event = Entry<Payload>

  /** Where a filler is in `fill_queue`. */
  datatype Pc =
    | Lock          // at lock_mutex, on the way to the wait
    | Wait          // in pthread_cond_wait, not signalled
    | Signalled     // signalled, about to take the mutex again
    | Test          // at the test of the inner loop
    | Relock        // past the test without the mutex, at the inner lock_mutex
    | Read          // about to call get_frame
    | Pushing(e: Event)  // inside push_event
    | Unlock        // about to unlock
    | Exited
    | Cancelled

  /** `made` records the events this filler has made, oldest first. */
  datatype Filler = Filler(pc: Pc, mutlocked: bool, quit: bool, base: Option<Timeval>, last: Timeval, made: seq<Event>)

  datatype Owner = Nobody | Main | OfFiller(i: nat)

  /** Where the event loop is. */
  datatype MainPc =
    | Idle            // in select, or anywhere that leaves the queue alone
    | Announcing      // past pthread_create at the end of the download, on the way to its push
    | Pulling         // inside pull_event
    | Handling(e: Event)
    | Repushing(e: Event)
    | Signalling
    | LockedPush(e: Event)
    | OpenPush(e: Event, more: bool)  // inside one of PLAY's two pushes, without the mutex
    | Emptying        // inside empty_queue

  /** `media` is `media_downloaded`; once it is on, `mediastate` is STREAM whenever a timeout is handled.
      `removed` lists the events taken off the queue, in order; each was dispatched or discarded. */
  datatype State = State(media: bool, queue: seq<Event>, owner: Owner, main: MainPc, fillers: seq<Filler>,
                         removed: seq<Event>, dispatched: seq<Event>, discarded: seq<Event>)

  const INIT := State(false, [], Nobody, Idle, [], [], [], [])

  datatype Step =
    | Create(garbage: Timeval)                  // the end of the download: pthread_create, then one push
    | Announce(now: Timeval)                    // the mutex is taken for that push
    | EarlyPlay(now: Timeval)                   // PLAY before the media is there: one push with the mutex
    | LockedPushed                              // the end of either
    | Play(garbage: Timeval, now: Timeval)      // PLAY with the media at hand: a new filler, then two pushes
    | OpenPushed(now: Timeval)                  // the end of one of those pushes
    | BeginTimeout
    | Pulled
    | Handled(now: Timeval)
    | Repushed
    | SignalAndUnlock(woken: nat)
    | BeginTeardown
    | TornDown(woken: nat)
    | LockAndWait(i: nat)
    | Wake(i: nat, now: Timeval)
    | TestLoop(i: nat)
    | TakeLock(i: nat)
    | ReadFrame(i: nat, frame: Frame)
    | ReadEnd(i: nat)
    | Pushed(i: nat)
    | Unlocked(i: nat)

  predicate FillerAt(s: State, i: nat, pc: Pc) {
    i < |s.fillers| && s.fillers[i].pc == pc
  }

  /** Two threads inside the queue operations at once. */
  ghost predicate Race(s: State) {
    || (exists i :: 0 <= i < |s.fillers| && s.fillers[i].pc.Pushing? && InQueue(s.main))
    || exists i, j :: 0 <= i < j < |s.fillers| && s.fillers[i].pc.Pushing? && s.fillers[j].pc.Pushing?
  }

  predicate InQueue(pc: MainPc) {
    pc.Pulling? || pc.Repushing? || pc.LockedPush? || pc.OpenPush? || pc.Emptying?
  }

  /** A signal wakes one waiting filler, any, and is lost when none waits. */
  ghost predicate CanWake(s: State, woken: nat) {
    (exists i :: FillerAt(s, i, Wait)) ==> FillerAt(s, woken, Wait)
  }

  function Signal(s: State, woken: nat): State {
    if FillerAt(s, woken, Wait) then s.(fillers := s.fillers[woken := s.fillers[woken].(pc := Signalled)]) else s
  }

  function NewFiller(garbage: Timeval): Filler {
    Filler(Lock, false, false, None, garbage, [])
  }

  function SetFiller(s: State, i: nat, f: Filler): State
    requires i < |s.fillers|
  {
    s.(fillers := s.fillers[i := f])
  }

  ghost predicate Enabled(s: State, l: Step) {
    !Race(s) &&
    match l
    case Create(_) => s.main == Idle && !s.media
    case Announce(now) => s.main == Announcing && s.owner == Nobody && now.Normal()
    case EarlyPlay(now) => s.main == Idle && !s.media && s.owner == Nobody && now.Normal()
    case LockedPushed => s.main.LockedPush?
    case Play(_, now) => s.main == Idle && s.media && now.Normal()
    case OpenPushed(now) => s.main.OpenPush? && now.Normal()
    case BeginTimeout => s.main == Idle && s.owner == Nobody
    case Pulled => s.main == Pulling
    case Handled(now) => s.main.Handling? && now.Normal()
    case Repushed => s.main.Repushing?
    case SignalAndUnlock(woken) => s.main == Signalling && (|s.queue| < QUEUESIZE / 2 ==> CanWake(s, woken))
    case BeginTeardown => s.main == Idle && s.owner == Nobody && s.fillers != []
    case TornDown(woken) => s.main == Emptying && CanWake(s, woken)
    case LockAndWait(i) => FillerAt(s, i, Lock) && s.owner == Nobody
    case Wake(i, now) => FillerAt(s, i, Signalled) && s.owner == Nobody && now.Normal()
    case TestLoop(i) => FillerAt(s, i, Test)
    case TakeLock(i) => FillerAt(s, i, Relock) && s.owner == Nobody
    case ReadFrame(i, _) => FillerAt(s, i, Read) && s.fillers[i].base.Some?
    case ReadEnd(i) => FillerAt(s, i, Read)
    case Pushed(i) => i < |s.fillers| && s.fillers[i].pc.Pushing?
    case Unlocked(i) => FillerAt(s, i, Unlock)
  }

  function Check(now: Timeval, ms: nat): Event {
    Entry(TimeoutAt(now, ms), CHECKMEDIASTATE)
  }

  ghost function Do(s: State, l: Step): State
    requires Enabled(s, l)
  {
    match l
    case Create(garbage) => s.(media := true, fillers := s.fillers + [NewFiller(garbage)], main := Announcing)
    case Announce(now) => s.(owner := Main, main := LockedPush(Check(now, 1000)))
    case EarlyPlay(now) => s.(owner := Main, main := LockedPush(Check(now, 100)))
    case LockedPushed => s.(queue := Insert(s.queue, s.main.e), owner := Nobody, main := Idle)
    case Play(garbage, now) =>
      s.(fillers := s.fillers + [NewFiller(garbage)], main := OpenPush(Check(now, 100), true))
    case OpenPushed(now) =>
      s.(queue := Insert(s.queue, s.main.e), main := if s.main.more then OpenPush(Check(now, 2000), false) else Idle)
    case BeginTimeout => s.(owner := Main, main := Pulling)
    case Pulled =>
      if s.queue == [] then s.(owner := Nobody, main := Idle)
      else s.(queue := s.queue[1..], main := Handling(s.queue[0]),
              removed := s.removed + [s.queue[0]], dispatched := s.dispatched + [s.queue[0]])
    case Handled(now) =>
      s.(main := if s.main.e.item.CHECKMEDIASTATE? && !s.media then Repushing(Check(now, 1000)) else Signalling)
    case Repushed => s.(queue := Insert(s.queue, s.main.e), main := Signalling)
    case SignalAndUnlock(woken) =>
      (if |s.queue| < QUEUESIZE / 2 then Signal(s, woken) else s).(owner := Nobody, main := Idle)
    case BeginTeardown =>
      var n := |s.fillers| - 1;
      SetFiller(s, n, s.fillers[n].(pc := Cancelled, mutlocked := false)).(owner := Main, main := Emptying)
    case TornDown(woken) =>
      Signal(s, woken).(queue := [], removed := s.removed + s.queue, discarded := s.discarded + s.queue,
                        owner := Nobody, main := Idle)
    case LockAndWait(i) => SetFiller(s, i, s.fillers[i].(pc := Wait))
    case Wake(i, now) =>
      var f := s.fillers[i];
      SetFiller(s, i, f.(pc := Test, mutlocked := true, base := if f.base.None? then Some(now) else f.base))
        .(owner := OfFiller(i))
    case TestLoop(i) =>
      var f := s.fillers[i];
      SetFiller(s, i, f.(pc := if |s.queue| < QUEUESIZE && !f.quit then (if f.mutlocked then Read else Relock)
                               else if f.quit then Exited else Lock))
    case TakeLock(i) => SetFiller(s, i, s.fillers[i].(pc := Read)).(owner := OfFiller(i))
    case ReadFrame(i, frame) =>
      var f := s.fillers[i];
      var e := Entry(FrameTime(f.base.value, frame.ts), FRAME(i, frame));
      SetFiller(s, i, f.(pc := Pushing(e), last := e.time, made := f.made + [e]))
    case ReadEnd(i) =>
      var f := s.fillers[i];
      var e := Entry(EndTime(f.last), ENDOFSTREAM(i));
      SetFiller(s, i, f.(pc := Pushing(e), quit := true, made := f.made + [e]))
    case Pushed(i) =>
      SetFiller(s, i, s.fillers[i].(pc := Unlock)).(queue := Insert(s.queue, s.fillers[i].pc.e))
    case Unlocked(i) => SetFiller(s, i, s.fillers[i].(pc := Test, mutlocked := false)).(owner := Nobody)
  }

  ghost predicate CanRun(s: State, ls: seq<Step>)
    decreases |ls|
  {
    ls == [] || (Enabled(s, ls[0]) && CanRun(Do(s, ls[0]), ls[1..]))
  }

  ghost function Exec(s: State, ls: seq<Step>): State
    requires CanRun(s, ls)
    decreases |ls|
  {
    if ls == [] then s else Exec(Do(s, ls[0]), ls[1..])
  }
}
