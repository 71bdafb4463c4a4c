/** What becomes of the frames: each is queued, dispatched or discarded exactly once, and each filler's
    frames leave the queue in the order it read them, with its ENDOFSTREAM last. */
module PipelineFrames {
  import opened Timeval
  import opened EventOrder
  import opened Pipeline
  import opened PipelineLocking

  predicate MadeBy(e: Event, i: nat) {
    !e.item.CHECKMEDIASTATE? && e.item.filler == i
  }

  /** The events of filler `i`, in order. */
  function Of(i: nat, q: seq<Event>): seq<Event> {
    if q == [] then [] else Of(i, q[..|q| - 1]) + if MadeBy(q[|q| - 1], i) then [q[|q| - 1]] else []
  }

  lemma {:induction false} OfAppend(i: nat, a: seq<Event>, b: seq<Event>)
    ensures Of(i, a + b) == Of(i, a) + Of(i, b)
  {
    if b == [] {
      assert a + b == a;
    } else {
      assert (a + b)[..|a + b| - 1] == a + b[..|b| - 1];
      OfAppend(i, a, b[..|b| - 1]);
    }
  }

  lemma OfOne(i: nat, e: Event)
    ensures Of(i, [e]) == if MadeBy(e, i) then [e] else []
  {
    assert [e][..0] == [];
    assert Of(i, []) == [];
  }

  lemma {:induction false} OfIsSome(i: nat, q: seq<Event>, e: Event)
    ensures e in Of(i, q) <==> e in q && MadeBy(e, i)
  {
    if q != [] {
      OfIsSome(i, q[..|q| - 1], e);
      assert q == q[..|q| - 1] + [q[|q| - 1]];
    }
  }

  lemma OfInsert(i: nat, q: seq<Event>, e: Event)
    ensures var k := Position(q, e.time);
      && Of(i, Insert(q, e)) == Of(i, q[..k]) + (if MadeBy(e, i) then [e] else []) + Of(i, q[k..])
      && Of(i, q) == Of(i, q[..k]) + Of(i, q[k..])
  {
    hide Position, Of;
    var k := Position(q, e.time);
    OfAppend(i, q[..k] + [e], q[k..]);
    OfAppend(i, q[..k], [e]);
    OfOne(i, e);
    OfAppend(i, q[..k], q[k..]);
    assert q == q[..k] + q[k..];
  }

  /** An event of another thread does not disturb the order of filler `i`'s events. */
  lemma InsertOther(i: nat, q: seq<Event>, e: Event)
    requires !MadeBy(e, i)
    ensures Of(i, Insert(q, e)) == Of(i, q)
  {
    hide Insert, Of;
    OfInsert(i, q, e);
  }

  lemma InsertSome(i: nat, q: seq<Event>, e: Event)
    requires MadeBy(e, i)
    ensures multiset(Of(i, Insert(q, e))) == multiset(Of(i, q)) + multiset{e}
  {
    hide Insert, Of;
    OfInsert(i, q, e);
  }

  /** Whatever the order of the rest, an event ranked after all of its filler's events goes behind them. */
  lemma InsertLast(i: nat, q: seq<Event>, e: Event)
    requires MadeBy(e, i)
    requires forall x :: x in q && MadeBy(x, i) ==> TimeCmp(x.time, e.time) > 0
    ensures Of(i, Insert(q, e)) == Of(i, q) + [e]
  {
    hide TimeCmp, Position, Insert, Of;
    var k := Position(q, e.time);
    PositionIs(q, e.time);
    OfInsert(i, q, e);
    assert forall x :: x in q[k..] ==> !MadeBy(x, i);
    OfNone(i, q[k..]);
  }

  lemma {:induction false} OfNone(i: nat, q: seq<Event>)
    requires forall x :: x in q ==> !MadeBy(x, i)
    ensures Of(i, q) == []
  {
    if q != [] {
      OfNone(i, q[..|q| - 1]);
    }
  }

  /** `all` is made of `a` and `b`, each in its own order. */
  predicate Interleaves(all: seq<Event>, a: seq<Event>, b: seq<Event>) {
    if all == [] then a == [] && b == []
    else
      var n := |all| - 1;
      || (a != [] && a[|a| - 1] == all[n] && Interleaves(all[..n], a[..|a| - 1], b))
      || (b != [] && b[|b| - 1] == all[n] && Interleaves(all[..n], a, b[..|b| - 1]))
  }

  lemma InterleavesSnoc(all: seq<Event>, a: seq<Event>, b: seq<Event>, e: Event)
    requires Interleaves(all, a, b)
    ensures Interleaves(all + [e], a + [e], b) && Interleaves(all + [e], a, b + [e])
  {
    assert (all + [e])[..|all|] == all && (a + [e])[..|a|] == a && (b + [e])[..|b|] == b;
  }

  lemma {:induction false} InterleavesAppend(all: seq<Event>, a: seq<Event>, b: seq<Event>, more: seq<Event>)
    requires Interleaves(all, a, b)
    ensures Interleaves(all + more, a, b + more)
  {
    if more == [] {
      assert all + more == all && b + more == b;
    } else {
      var n := |more| - 1;
      InterleavesAppend(all, a, b, more[..n]);
      InterleavesSnoc(all + more[..n], a, b + more[..n], more[n]);
      assert all + more == all + more[..n] + [more[n]] && b + more == b + more[..n] + [more[n]];
    }
  }

  lemma {:induction false} InterleavesOf(i: nat, all: seq<Event>, a: seq<Event>, b: seq<Event>)
    requires Interleaves(all, a, b)
    ensures Interleaves(Of(i, all), Of(i, a), Of(i, b))
  {
    if all != [] {
      var n := |all| - 1;
      OfLast(i, all);
      if a != [] && a[|a| - 1] == all[n] && Interleaves(all[..n], a[..|a| - 1], b) {
        OfLast(i, a);
        hide *;
        InterleavesOf(i, all[..n], a[..|a| - 1], b);
        InterleavesSnoc(Of(i, all[..n]), Of(i, a[..|a| - 1]), Of(i, b), all[n]);
      } else {
        OfLast(i, b);
        hide *;
        InterleavesOf(i, all[..n], a, b[..|b| - 1]);
        InterleavesSnoc(Of(i, all[..n]), Of(i, a), Of(i, b[..|b| - 1]), all[n]);
      }
    }
  }

  lemma OfLast(i: nat, q: seq<Event>)
    requires q != []
    ensures var n := |q| - 1; Of(i, q) == if MadeBy(q[n], i) then Of(i, q[..n]) + [q[n]] else Of(i, q[..n])
  {
  }

  /** Nothing is lost or doubled, and without `b` the order is that of `a`. */
  lemma {:induction false} InterleavesAll(all: seq<Event>, a: seq<Event>, b: seq<Event>)
    requires Interleaves(all, a, b)
    ensures multiset(all) == multiset(a) + multiset(b)
    ensures b == [] ==> all == a
  {
    if all != [] {
      var n := |all| - 1;
      assert all == all[..n] + [all[n]];
      if a != [] && a[|a| - 1] == all[n] && Interleaves(all[..n], a[..|a| - 1], b) {
        hide Interleaves;
        InterleavesAll(all[..n], a[..|a| - 1], b);
        assert a == a[..|a| - 1] + [all[n]];
      } else {
        hide Interleaves;
        InterleavesAll(all[..n], a, b[..|b| - 1]);
        assert b == b[..|b| - 1] + [all[n]];
      }
    }
  }

  /** The event a filler is about to push. */
  function InHand(f: Filler): seq<Event> {
    if f.pc.Pushing? then [f.pc.e] else []
  }

  /** Filler `i`'s events that have been in the queue: those taken off it, then those still there. */
  function Passed(s: State, i: nat): seq<Event> {
    Of(i, s.removed) + Of(i, s.queue)
  }

  // ----- the invariant -----

  /** The record of a filler: its own frames with the times that `set_timeval` gives them, at most one
      ENDOFSTREAM, last, 10 microseconds after the last frame; and the event in hand is the last made. */
  ghost predicate RecordOk(f: Filler, i: nat) {
    && (forall k :: 0 <= k < |f.made| ==> MadeBy(f.made[k], i))
    && (f.made != [] && !f.made[0].item.ENDOFSTREAM? ==> f.base.Some?) && (f.base.Some? ==> f.base.value.Normal())
    && (forall k :: 0 <= k < |f.made| && f.made[k].item.FRAME? ==>
          f.base.Some? && f.made[k].time == FrameTime(f.base.value, f.made[k].item.frame.ts))
    && (forall k :: 0 <= k < |f.made| - 1 ==> f.made[k].item.FRAME?)
    && (f.quit <==> f.made != [] && f.made[|f.made| - 1].item.ENDOFSTREAM?)
    && (f.quit && |f.made| > 1 ==> f.made[|f.made| - 1].time == EndTime(f.made[|f.made| - 2].time))
    && (f.made != [] && !f.quit ==> f.last == f.made[|f.made| - 1].time)
    && (f.pc.Pushing? ==> f.made != [] && f.pc.e == f.made[|f.made| - 1])
  }

  /** Every event a filler made is in its hand, in the queue or taken off it, once. */
  ghost predicate Conserved(s: State, i: nat)
    requires i < |s.fillers|
  {
    multiset(s.fillers[i].made) == multiset(Passed(s, i)) + multiset(InHand(s.fillers[i]))
  }

  /** The timestamps a filler read strictly increase. */
  ghost predicate StrictReads(made: seq<Event>) {
    forall j, k :: 0 <= j < k < |made| && made[j].item.FRAME? && made[k].item.FRAME? ==>
      made[j].item.frame.ts < made[k].item.frame.ts
  }

  /** The last frame a filler read before the end has the greatest timestamp. */
  ghost predicate LastIsGreatest(made: seq<Event>) {
    forall j :: 0 <= j < |made| - 1 && made[j].item.FRAME? && made[|made| - 2].item.FRAME? ==>
      made[j].item.frame.ts <= made[|made| - 2].item.frame.ts
  }

  ghost predicate FillerInv(s: State, i: nat)
    requires i < |s.fillers|
  {
    var f := s.fillers[i];
    && RecordOk(f, i) && Conserved(s, i)
    && (StrictReads(f.made) ==> f.made == Passed(s, i) + InHand(f))
    && (f.quit && !f.pc.Pushing? && LastIsGreatest(f.made) ==> EndsLast(Passed(s, i)))
  }

  /** One ENDOFSTREAM, at the end. */
  predicate EndsLast(q: seq<Event>) {
    q != [] && q[|q| - 1].item.ENDOFSTREAM? && forall k :: 0 <= k < |q| - 1 ==> q[k].item.FRAME?
  }

  ghost predicate FrameInv(s: State) {
    && LockInv(s) && PushesOwn(s)
    && (forall i :: 0 <= i < |s.fillers| ==> FillerInv(s, i))
    && Interleaves(s.removed, s.dispatched, s.discarded)
    && (forall i :: i >= |s.fillers| ==> Passed(s, i) == [])
  }

  // ----- how a step moves the events of one filler -----

  ghost predicate PushesOwn(s: State) {
    && (forall i :: 0 <= i < |s.fillers| && s.fillers[i].pc.Pushing? ==> MadeBy(s.fillers[i].pc.e, i))
    && (s.main.OpenPush? || s.main.LockedPush? || s.main.Repushing? ==> s.main.e.item.CHECKMEDIASTATE?)
  }

  /** Only a filler's own push changes the list of its events that have been in the queue. */
  lemma PassedUnchanged(s: State, l: Step, i: nat)
    requires Enabled(s, l) && PushesOwn(s) && l != Pushed(i)
    ensures Passed(Do(s, l), i) == Passed(s, i)
  {
    hide Of, Insert, Race, TimeoutAt, FrameTime, EndTime;
    match l
    case OpenPushed(_) => InsertOther(i, s.queue, s.main.e);
    case LockedPushed => InsertOther(i, s.queue, s.main.e);
    case Repushed => InsertOther(i, s.queue, s.main.e);
    case Pushed(j) => InsertOther(i, s.queue, s.fillers[j].pc.e);
    case Pulled =>
      if s.queue != [] {
        OfAppend(i, s.removed, [s.queue[0]]);
        assert s.queue == [s.queue[0]] + s.queue[1..];
        OfAppend(i, [s.queue[0]], s.queue[1..]);
      }
    case TornDown(_) =>
      OfAppend(i, s.removed, s.queue);
      OfNone(i, []);
    case _ =>
  }

  /** A filler's record changes only when it reads. */
  lemma RecordUnchanged(s: State, l: Step, i: nat)
    requires LockInv(s) && Enabled(s, l) && i < |s.fillers|
    requires !(l.ReadFrame? && l.i == i) && l != ReadEnd(i)
    ensures i < |Do(s, l).fillers| && SameRecord(s.fillers[i], Do(s, l).fillers[i])
    ensures l != Pushed(i) ==> InHand(Do(s, l).fillers[i]) == InHand(s.fillers[i])
  {
    hide Enabled, Do, SameRecord, InHand;
    if IsFillerStep(l) {
      FillerKeepsRecord(s, l, i);
    } else {
      MainKeepsRecord(s, l, i);
    }
  }

  predicate SameRecord(f: Filler, f': Filler) {
    && f'.made == f.made && f'.quit == f.quit && f'.last == f.last
    && (f'.base == f.base || (f.base.None? && f'.base.Some? && f'.base.value.Normal()))
  }

  lemma FillerKeepsRecord(s: State, l: Step, i: nat)
    requires Enabled(s, l) && i < |s.fillers| && IsFillerStep(l)
    requires !(l.ReadFrame? && l.i == i) && l != ReadEnd(i)
    ensures i < |Do(s, l).fillers| && SameRecord(s.fillers[i], Do(s, l).fillers[i])
    ensures l != Pushed(i) ==> InHand(Do(s, l).fillers[i]) == InHand(s.fillers[i])
  {
    hide Insert, Race, FrameTime, EndTime;
  }

  lemma MainKeepsRecord(s: State, l: Step, i: nat)
    requires LockInv(s) && Enabled(s, l) && i < |s.fillers| && !IsFillerStep(l)
    ensures i < |Do(s, l).fillers| && SameRecord(s.fillers[i], Do(s, l).fillers[i])
    ensures InHand(Do(s, l).fillers[i]) == InHand(s.fillers[i])
  {
    assert s.owner == OfFiller(i) <==> Holds(s.fillers[i]);
    hide Insert, Race, TimeoutAt, LockInv, CanWake;
  }

  lemma StrictPrefix(made: seq<Event>, e: Event)
    requires StrictReads(made + [e])
    ensures StrictReads(made)
  {
    assert forall k :: 0 <= k < |made| ==> made[k] == (made + [e])[k];
  }

  lemma FrameReadRecord(s: State, i: nat, frame: Frame)
    requires FrameInv(s) && Enabled(s, ReadFrame(i, frame))
    ensures RecordOk(Do(s, ReadFrame(i, frame)).fillers[i], i)
  {
    hide Race, FrameTime, EndTime, Passed, StrictReads, LastIsGreatest, EndsLast;
    assert FillerInv(s, i) && FillerOk(s.fillers[i]);
  }

  lemma EndReadRecord(s: State, i: nat)
    requires FrameInv(s) && Enabled(s, ReadEnd(i))
    ensures RecordOk(Do(s, ReadEnd(i)).fillers[i], i)
  {
    hide Race, FrameTime, EndTime, Passed, StrictReads, LastIsGreatest, EndsLast;
    assert FillerInv(s, i) && FillerOk(s.fillers[i]);
  }

  /** Reading puts the new event in hand. */
  lemma ReadKeeps(s: State, l: Step, i: nat)
    requires FrameInv(s) && Enabled(s, l)
    requires (l.ReadFrame? && l.i == i) || l == ReadEnd(i)
    ensures FillerInv(Do(s, l), i)
  {
    if l.ReadFrame? {
      FrameReadRecord(s, i, l.frame);
    } else {
      EndReadRecord(s, i);
    }
    PassedUnchanged(s, l, i);
    ReadPutsInHand(s, l, i);
    assert FillerInv(s, i);
    hide *;
    InHandAfterRead(s, Do(s, l), i, Do(s, l).fillers[i].pc.e);
  }

  lemma InHandAfterRead(s: State, s': State, i: nat, e: Event)
    requires i < |s.fillers| && i < |s'.fillers| && FillerInv(s, i)
    requires InHand(s.fillers[i]) == [] && s'.fillers[i].pc == Pushing(e)
    requires s'.fillers[i].made == s.fillers[i].made + [e] && RecordOk(s'.fillers[i], i)
    requires Passed(s', i) == Passed(s, i)
    ensures FillerInv(s', i)
  {
    hide Passed, RecordOk, EndsLast, StrictReads, LastIsGreatest;
    var f, f' := s.fillers[i], s'.fillers[i];
    assert Conserved(s', i) by {
      assert multiset(f'.made) == multiset(f.made) + multiset{e};
    }
    if StrictReads(f'.made) {
      StrictPrefix(f.made, e);
    }
  }

  lemma ReadPutsInHand(s: State, l: Step, i: nat)
    requires Enabled(s, l)
    requires (l.ReadFrame? && l.i == i) || l == ReadEnd(i)
    ensures i < |s.fillers| && |Do(s, l).fillers| == |s.fillers|
    ensures var f, f' := s.fillers[i], Do(s, l).fillers[i];
      InHand(f) == [] && f'.pc.Pushing? && f'.made == f.made + [f'.pc.e]
  {
    hide Race, FrameTime, EndTime;
  }

  lemma SameBefore(made: seq<Event>, passed: seq<Event>)
    requires made != [] && multiset(made) == multiset(passed) + multiset([made[|made| - 1]])
    ensures multiset(made[..|made| - 1]) == multiset(passed)
  {
    var e := made[|made| - 1];
    assert made == made[..|made| - 1] + [e];
    assert multiset(made) - multiset{e} == multiset(passed);
  }

  /** An event a filler has already pushed is one of those it made before the one in hand. */
  lemma PassedIsMade(s: State, i: nat, x: Event)
    requires i < |s.fillers| && FillerInv(s, i) && s.fillers[i].pc.Pushing?
    requires x in s.queue && MadeBy(x, i)
    ensures x in s.fillers[i].made[..|s.fillers[i].made| - 1]
  {
    hide Of, StrictReads, LastIsGreatest, EndsLast, FrameTime, EndTime;
    var made := s.fillers[i].made;
    OfIsSome(i, s.queue, x);
    SameBefore(made, Passed(s, i));
    assert x in Passed(s, i);
    assert x in multiset(Passed(s, i));
  }

  /** The event in hand is ranked after every event of its filler in the queue: a frame if timestamps
      strictly increase, the end mark if the last frame has the greatest. */
  lemma RankedLast(s: State, i: nat, x: Event)
    requires i < |s.fillers| && FillerInv(s, i) && s.fillers[i].pc.Pushing?
    requires x in s.queue && MadeBy(x, i)
    requires StrictReads(s.fillers[i].made) || (s.fillers[i].quit && LastIsGreatest(s.fillers[i].made))
    ensures TimeCmp(x.time, s.fillers[i].pc.e.time) > 0
  {
    hide TimeCmp, FrameTime, EndTime, Conserved, EndsLast;
    var f := s.fillers[i];
    var n := |f.made| - 1;
    PassedIsMade(s, i, x);
    var k :| 0 <= k < n && f.made[k] == x;
    assert f.made[k].item.FRAME?;
    if f.quit {
      assert f.made[n - 1].item.FRAME?;
      assert x.item.frame.ts <= f.made[n - 1].item.frame.ts;
      TimesFollow(f.base.value, x.item.frame.ts, f.made[n - 1].item.frame.ts);
      EndComesLast(x.time, f.made[n - 1].time);
    } else {
      FrameTimeIsStrict(f.base.value, x.item.frame.ts, f.made[n].item.frame.ts);
    }
  }

  lemma TimesFollow(base: Timeval, ts: nat, later: nat)
    requires base.Normal() && ts <= later
    ensures FrameTime(base, ts).Normal() && FrameTime(base, later).Normal()
    ensures FrameTime(base, ts).Micros() <= FrameTime(base, later).Micros()
  {
    hide FrameTime;
    FrameTimeIsExact(base, ts);
    FrameTimeIsExact(base, later);
  }

  lemma PushEmptiesHand(s: State, i: nat)
    requires Enabled(s, Pushed(i))
    ensures var s' := Do(s, Pushed(i));
      && i < |s.fillers| == |s'.fillers| && s.fillers[i].pc.Pushing?
      && s'.fillers[i] == s.fillers[i].(pc := Unlock)
      && s'.removed == s.removed && s'.queue == Insert(s.queue, s.fillers[i].pc.e)
  {
    hide Race, Insert;
  }

  /** Pushing moves the event in hand to the end of what has passed, when it is ranked last. */
  lemma PushKeeps(s: State, i: nat)
    requires FrameInv(s) && Enabled(s, Pushed(i))
    ensures i < |Do(s, Pushed(i)).fillers| && FillerInv(Do(s, Pushed(i)), i)
  {
    PushEmptiesHand(s, i);
    assert FillerInv(s, i) && MadeBy(s.fillers[i].pc.e, i);
    hide *;
    PassedAfterPush(s, Do(s, Pushed(i)), i);
  }

  lemma PassedAfterPush(s: State, s': State, i: nat)
    requires i < |s.fillers| == |s'.fillers| && s.fillers[i].pc.Pushing? && FillerInv(s, i)
    requires MadeBy(s.fillers[i].pc.e, i)
    requires s'.fillers[i] == s.fillers[i].(pc := Unlock)
    requires s'.removed == s.removed && s'.queue == Insert(s.queue, s.fillers[i].pc.e)
    ensures FillerInv(s', i)
  {
    hide Passed, Insert, MadeBy, RecordOk, StrictReads, LastIsGreatest, Conserved;
    ConservedAfterPush(s, s', i);
    OrderAfterPush(s, s', i);
    PassedAreFrames(s, i);
    RecordAfterPush(s.fillers[i], i);
  }

  lemma RecordAfterPush(f: Filler, i: nat)
    requires RecordOk(f, i)
    ensures RecordOk(f.(pc := Unlock), i)
  {
  }

  lemma ConservedAfterPush(s: State, s': State, i: nat)
    requires i < |s.fillers| == |s'.fillers| && s.fillers[i].pc.Pushing? && Conserved(s, i)
    requires MadeBy(s.fillers[i].pc.e, i)
    requires s'.fillers[i] == s.fillers[i].(pc := Unlock)
    requires s'.removed == s.removed && s'.queue == Insert(s.queue, s.fillers[i].pc.e)
    ensures Conserved(s', i)
  {
    hide Of, Insert, MadeBy;
    InsertSome(i, s.queue, s.fillers[i].pc.e);
  }

  lemma OrderAfterPush(s: State, s': State, i: nat)
    requires i < |s.fillers| == |s'.fillers| && s.fillers[i].pc.Pushing? && FillerInv(s, i)
    requires MadeBy(s.fillers[i].pc.e, i)
    requires s'.removed == s.removed && s'.queue == Insert(s.queue, s.fillers[i].pc.e)
    ensures var f := s.fillers[i];
      StrictReads(f.made) || (f.quit && LastIsGreatest(f.made)) ==> Passed(s', i) == Passed(s, i) + [f.pc.e]
  {
    hide Of, Insert, FillerInv, TimeCmp, StrictReads, LastIsGreatest;
    var f := s.fillers[i];
    if StrictReads(f.made) || (f.quit && LastIsGreatest(f.made)) {
      forall x | x in s.queue && MadeBy(x, i)
        ensures TimeCmp(x.time, f.pc.e.time) > 0
      {
        RankedLast(s, i, x);
      }
      InsertLast(i, s.queue, f.pc.e);
      assert Passed(s', i) == Passed(s, i) + [f.pc.e];
    }
  }

  lemma PassedAreFrames(s: State, i: nat)
    requires i < |s.fillers| && FillerInv(s, i) && s.fillers[i].pc.Pushing?
    ensures forall k :: 0 <= k < |Passed(s, i)| ==> Passed(s, i)[k].item.FRAME?
    ensures s.fillers[i].quit ==> s.fillers[i].pc.e.item.ENDOFSTREAM?
  {
    hide Of, StrictReads, LastIsGreatest, EndsLast, FrameTime, EndTime;
    var made := s.fillers[i].made;
    SameBefore(made, Passed(s, i));
    forall k | 0 <= k < |Passed(s, i)|
      ensures Passed(s, i)[k].item.FRAME?
    {
      assert Passed(s, i)[k] in multiset(Passed(s, i));
      assert Passed(s, i)[k] in made[..|made| - 1];
    }
  }

  lemma OtherKeeps(s: State, l: Step, i: nat)
    requires FrameInv(s) && Enabled(s, l) && i < |s.fillers|
    requires !(l.ReadFrame? && l.i == i) && l != ReadEnd(i) && l != Pushed(i)
    ensures FillerInv(Do(s, l), i)
  {
    hide Of, Insert, Do, Enabled, FrameTime, EndTime, EndsLast, StrictReads, LastIsGreatest, LockInv, PushesOwn;
    assert FillerInv(s, i);
    PassedUnchanged(s, l, i);
    RecordUnchanged(s, l, i);
    StillThere(s, l, i);
  }

  lemma StillThere(s: State, l: Step, i: nat)
    requires LockInv(s) && Enabled(s, l) && i < |s.fillers|
    requires l != Pushed(i) && !(l.ReadFrame? && l.i == i) && l != ReadEnd(i)
    ensures Do(s, l).fillers[i].pc.Pushing? <==> s.fillers[i].pc.Pushing?
    ensures s.fillers[i].pc.Pushing? ==> Do(s, l).fillers[i].pc == s.fillers[i].pc
  {
    hide Insert, Race, TimeoutAt, FrameTime, EndTime;
    assert s.owner == OfFiller(i) <==> Holds(s.fillers[i]);
  }

  lemma StepKeepsPushesOwn(s: State, l: Step)
    requires PushesOwn(s) && Enabled(s, l)
    ensures PushesOwn(Do(s, l))
  {
    hide PushesOwn, Enabled, Do;
    if IsFillerStep(l) {
      FillerKeepsPushesOwn(s, l);
    } else {
      MainKeepsPushesOwn(s, l);
    }
  }

  lemma FillerKeepsPushesOwn(s: State, l: Step)
    requires PushesOwn(s) && Enabled(s, l) && IsFillerStep(l)
    ensures PushesOwn(Do(s, l))
  {
    hide Race, Insert, FrameTime, EndTime;
    var s' := Do(s, l);
    assert forall i :: 0 <= i < |s.fillers| && i != l.i ==> s'.fillers[i] == s.fillers[i];
  }

  lemma MainKeepsPushesOwn(s: State, l: Step)
    requires PushesOwn(s) && Enabled(s, l) && !IsFillerStep(l)
    ensures PushesOwn(Do(s, l))
  {
    hide Race, Insert, TimeoutAt, CanWake, MadeBy;
  }

  lemma StepKeepsDisposal(s: State, l: Step)
    requires Interleaves(s.removed, s.dispatched, s.discarded) && Enabled(s, l)
    ensures var s' := Do(s, l); Interleaves(s'.removed, s'.dispatched, s'.discarded)
  {
    hide Race, Insert, FrameTime, EndTime, TimeoutAt, FillerInv, Passed, Interleaves;
    match l
    case Pulled =>
      if s.queue != [] {
        InterleavesSnoc(s.removed, s.dispatched, s.discarded, s.queue[0]);
      }
    case TornDown(_) => InterleavesAppend(s.removed, s.dispatched, s.discarded, s.queue);
    case _ =>
  }

  lemma NewFillerKeeps(s: State, l: Step, i: nat)
    requires FrameInv(s) && Enabled(s, l) && |s.fillers| <= i
    ensures Passed(Do(s, l), i) == []
    ensures i < |Do(s, l).fillers| ==> FillerInv(Do(s, l), i)
  {
    assert Passed(s, i) == [];
    PassedUnchanged(s, l, i);
    if i < |Do(s, l).fillers| {
      NewFillerIsFresh(s, l, i);
      hide *;
      FreshFillerInv(Do(s, l), i);
    }
  }

  lemma NewFillerIsFresh(s: State, l: Step, i: nat)
    requires Enabled(s, l) && |s.fillers| <= i < |Do(s, l).fillers|
    ensures exists garbage :: Do(s, l).fillers[i] == NewFiller(garbage)
  {
    hide Race, Insert, FrameTime, EndTime, TimeoutAt, NewFiller;
  }

  lemma FreshFillerInv(s: State, i: nat)
    requires i < |s.fillers| && Passed(s, i) == [] && exists garbage :: s.fillers[i] == NewFiller(garbage)
    ensures FillerInv(s, i)
  {
    hide Passed;
  }

  lemma StepKeepsFrameInv(s: State, l: Step)
    requires FrameInv(s) && Enabled(s, l)
    ensures FrameInv(Do(s, l))
  {
    StepKeepsLockInv(s, l);
    StepKeepsPushesOwn(s, l);
    StepKeepsDisposal(s, l);
    var s' := Do(s, l);
    forall i: nat
      ensures i < |s'.fillers| ==> FillerInv(s', i)
      ensures i >= |s'.fillers| ==> Passed(s', i) == []
    {
      if i >= |s.fillers| {
        NewFillerKeeps(s, l, i);
      } else {
        FillersStay(s, l);
        if (l.ReadFrame? && l.i == i) || l == ReadEnd(i) {
          ReadKeeps(s, l, i);
        } else if l == Pushed(i) {
          PushKeeps(s, i);
        } else {
          OtherKeeps(s, l, i);
        }
      }
    }
  }

  lemma {:induction false} RunKeepsFrameInv(s: State, ls: seq<Step>)
    requires FrameInv(s) && CanRun(s, ls)
    ensures FrameInv(Exec(s, ls))
    decreases |ls|
  {
    hide FrameInv, Enabled, Do;
    if ls != [] {
      StepKeepsFrameInv(s, ls[0]);
      RunKeepsFrameInv(Do(s, ls[0]), ls[1..]);
    }
  }

  lemma InitHoldsFrameInv()
    ensures FrameInv(INIT)
  {
    forall i: nat
      ensures Passed(INIT, i) == []
    {
    }
  }

  /** Conservation over whole runs: the events a filler has made are those dispatched, those discarded
      by `empty_queue`, those queued and the one in its hand, each exactly once. */
  lemma FramesAreConserved(ls: seq<Step>, i: nat)
    requires CanRun(INIT, ls) && i < |Exec(INIT, ls).fillers|
    ensures var s := Exec(INIT, ls);
      multiset(s.fillers[i].made) == multiset(Of(i, s.dispatched)) + multiset(Of(i, s.discarded))
                                     + multiset(Of(i, s.queue)) + multiset(InHand(s.fillers[i]))
  {
    InitHoldsFrameInv();
    RunKeepsFrameInv(INIT, ls);
    var s := Exec(INIT, ls);
    assert FillerInv(s, i);
    InterleavesOf(i, s.removed, s.dispatched, s.discarded);
    InterleavesAll(Of(i, s.removed), Of(i, s.dispatched), Of(i, s.discarded));
  }

  /** Only a TEARDOWN discards and only a timeout dispatches: a run without the one discards nothing, and a run
      without the other dispatches nothing. */
  lemma {:induction false} DisposalIsByCause(s: State, ls: seq<Step>)
    requires CanRun(s, ls)
    ensures (forall l :: l in ls ==> !l.TornDown?) ==> Exec(s, ls).discarded == s.discarded
    ensures (forall l :: l in ls ==> !l.Pulled?) ==> Exec(s, ls).dispatched == s.dispatched
    decreases |ls|
  {
    hide Enabled, Do;
    if ls != [] {
      assert ls[0] in ls && forall l :: l in ls[1..] ==> l in ls;
      StepDisposes(s, ls[0]);
      DisposalIsByCause(Do(s, ls[0]), ls[1..]);
    }
  }

  lemma StepDisposes(s: State, l: Step)
    requires Enabled(s, l)
    ensures !l.TornDown? ==> Do(s, l).discarded == s.discarded
    ensures !l.Pulled? ==> Do(s, l).dispatched == s.dispatched
  {
    hide Race, Insert, FrameTime, EndTime, TimeoutAt, CanWake;
  }

  /** If the timestamps a filler reads strictly increase, its frames are dispatched in the order they were
      read, whatever other events are interleaved: what it made is what was dispatched and, interleaved
      with that, what was discarded, then what is queued, then the event in hand. As long as nothing of its
      was discarded, what was dispatched is where its reading began. */
  lemma FramesLeaveInReadOrder(ls: seq<Step>, i: nat)
    requires CanRun(INIT, ls) && i < |Exec(INIT, ls).fillers|
    requires StrictReads(Exec(INIT, ls).fillers[i].made)
    ensures var s := Exec(INIT, ls);
      var made, out, lost := s.fillers[i].made, Of(i, s.dispatched), Of(i, s.discarded);
      && Interleaves(made, out, lost + Of(i, s.queue) + InHand(s.fillers[i]))
      && StrictReads(out)
      && (lost == [] ==> made == out + Of(i, s.queue) + InHand(s.fillers[i]))
  {
    InitHoldsFrameInv();
    RunKeepsFrameInv(INIT, ls);
    var s := Exec(INIT, ls);
    assert FillerInv(s, i) && Interleaves(s.removed, s.dispatched, s.discarded);
    assert s.fillers[i].made == Of(i, s.removed) + Of(i, s.queue) + InHand(s.fillers[i]);
    hide *;
    InterleavesOf(i, s.removed, s.dispatched, s.discarded);
    PartsOfReads(s.fillers[i].made, Of(i, s.removed), Of(i, s.dispatched), Of(i, s.discarded), Of(i, s.queue),
                 InHand(s.fillers[i]));
  }

  lemma PartsOfReads(made: seq<Event>, gone: seq<Event>, out: seq<Event>, lost: seq<Event>, queued: seq<Event>, hand: seq<Event>)
    requires made == gone + queued + hand && Interleaves(gone, out, lost) && StrictReads(made)
    ensures Interleaves(made, out, lost + queued + hand) && StrictReads(out)
    ensures lost == [] ==> made == out + queued + hand
  {
    hide Interleaves, StrictReads;
    InterleavesAppend(gone, out, lost, queued + hand);
    assert made == gone + (queued + hand) && lost + queued + hand == lost + (queued + hand);
    PartIsStrict(made, out, lost + queued + hand);
    InterleavesAll(gone, out, lost);
  }

  /** A part of strictly increasing reads is strictly increasing. */
  lemma {:induction false} PartIsStrict(all: seq<Event>, a: seq<Event>, b: seq<Event>)
    requires Interleaves(all, a, b) && StrictReads(all)
    ensures StrictReads(a)
  {
    if all != [] && a != [] {
      var n, e := |all| - 1, all[|all| - 1];
      assert all == all[..n] + [e];
      StrictPrefix(all[..n], e);
      if a[|a| - 1] == e && Interleaves(all[..n], a[..|a| - 1], b) {
        var rest := a[..|a| - 1];
        PartIsStrict(all[..n], rest, b);
        InterleavesAll(all[..n], rest, b);
        assert a == rest + [e];
        hide *;
        OneMoreRead(all[..n], rest, b, e);
      } else {
        PartIsStrict(all[..n], a, b[..|b| - 1]);
      }
    }
  }

  /** A read that is later than all the others is later than some of them. */
  lemma OneMoreRead(all: seq<Event>, a: seq<Event>, b: seq<Event>, e: Event)
    requires multiset(all) == multiset(a) + multiset(b) && StrictReads(all + [e]) && StrictReads(a)
    ensures StrictReads(a + [e])
  {
    forall j | 0 <= j < |a| && a[j].item.FRAME? && e.item.FRAME?
      ensures a[j].item.frame.ts < e.item.frame.ts
    {
      assert a[j] in multiset(all);
      var k :| 0 <= k < |all| && all[k] == a[j];
      assert (all + [e])[k] == a[j] && (all + [e])[|all|] == e;
    }
  }

  /** If the last frame a filler reads has the greatest timestamp, its single ENDOFSTREAM comes after
      all its frames, even when the 10 microseconds carry its time past a second; and of its events that
      are dispatched only the last can be the ENDOFSTREAM. */
  lemma EndOfStreamComesLast(ls: seq<Step>, i: nat)
    requires CanRun(INIT, ls) && i < |Exec(INIT, ls).fillers|
    requires var f := Exec(INIT, ls).fillers[i];
      f.quit && !f.pc.Pushing? && LastIsGreatest(f.made)
    ensures var s := Exec(INIT, ls);
      && EndsLast(Of(i, s.removed) + Of(i, s.queue))
      && forall k :: 0 <= k < |Of(i, s.dispatched)| - 1 ==> Of(i, s.dispatched)[k].item.FRAME?
  {
    InitHoldsFrameInv();
    RunKeepsFrameInv(INIT, ls);
    var s := Exec(INIT, ls);
    assert FillerInv(s, i) && Interleaves(s.removed, s.dispatched, s.discarded);
    assert EndsLast(Passed(s, i));
    hide CanRun, Exec, Of, Interleaves, FrameInv, FillerInv, LastIsGreatest;
    InterleavesOf(i, s.removed, s.dispatched, s.discarded);
    var gone := Of(i, s.removed);
    assert forall k :: 0 <= k < |gone| ==> gone[k] == Passed(s, i)[k];
    PartEndsLast(gone, Of(i, s.dispatched), Of(i, s.discarded));
  }

  lemma PartEndsLast(all: seq<Event>, a: seq<Event>, b: seq<Event>)
    requires Interleaves(all, a, b) && forall k :: 0 <= k < |all| - 1 ==> all[k].item.FRAME?
    ensures forall k :: 0 <= k < |a| - 1 ==> a[k].item.FRAME?
  {
    if all != [] {
      var rest, n := all[..|all| - 1], |a| - 1;
      var fromA := a != [] && a[n] == all[|all| - 1] && Interleaves(rest, a[..n], b);
      if fromA {
        InterleavesAll(rest, a[..n], b);
      } else {
        InterleavesAll(rest, a, b[..|b| - 1]);
      }
      hide Interleaves;
      forall k | 0 <= k < |a| - 1
        ensures a[k].item.FRAME?
      {
        assert a[k] in multiset(if fromA then a[..n] else a) by {
          assert fromA ==> a[k] == a[..n][k];
        }
        assert a[k] in multiset(rest);
        assert a[k] in rest;
      }
    }
  }
}
