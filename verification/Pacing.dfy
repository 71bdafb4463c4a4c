/** How long the event loop sleeps: the timeout armed after a timeout was handled, and the one armed
    after descriptor activity. */
module Pacing {
  import opened Timeval
  import opened EventOrder

  /** After a timeout: from the event just handled to the head of the queue. */
  function ArmAfterTimeout<T>(handled: Entry<T>, q: seq<Entry<T>>): Timeval
    requires q != []
  {
    CalculateDelta(handled.time, q[0].time)
  }

  /** After activity: from now to the head, or nothing when the head is overdue. */
  function ArmAfterActivity<T>(now: Timeval, q: seq<Entry<T>>): Timeval
    requires q != []
  {
    var timeout := CalculateDelta(now, q[0].time);
    if timeout.sec < 0 then Timeval(0, 0) else timeout
  }

  function Max(a: int, b: int): int {
    if a < b then b else a
  }

  /** After activity the armed delay is `max(0, head - now)`, except for a head that is due later but
      reaches past a second without a carry: then the loop does not sleep at all. */
  lemma ActivityDelayIff<T>(now: Timeval, q: seq<Entry<T>>)
    requires q != [] && now.Normal() && q[0].time.Loose()
    ensures ArmAfterActivity(now, q).Micros() == Max(0, q[0].time.Micros() - now.Micros())
       <==> !(q[0].time.sec == now.sec - 1 && q[0].time.usec - now.usec > SECOND)
    ensures q[0].time.Normal() ==> ArmAfterActivity(now, q).Micros() == Max(0, q[0].time.Micros() - now.Micros())
  {
  }

  /** A timeout of 100 ms pushed at 4.95 s is due at 5.05 s, but its fields carry no second: at 5.01 s the loop
      does not sleep the 40 ms that are left. */
  lemma UncarriedHeadIsNotWaitedFor<T>(item: T)
    ensures var now, head := Timeval(5, 10000), Entry(TimeoutAt(Timeval(4, 950000), 100), item);
      && head.time.Micros() - now.Micros() == 40000
      && ArmAfterActivity(now, [head]) == Timeval(0, 0)
  {
  }

  /** One timeout: what is pushed while it is handled, and what the filler pushes before the next. */
  datatype Turn<T> = Turn(handling: seq<Entry<T>>, filling: seq<Entry<T>>)

  function PushOnto<T>(q: seq<Entry<T>>, es: seq<Entry<T>>): seq<Entry<T>>
    decreases |es|
  {
    if es == [] then q else PushOnto(Insert(q, es[0]), es[1..])
  }

  function Armed<T>(q: seq<Entry<T>>, t: Turn<T>): seq<Entry<T>>
    requires q != []
  {
    PushOnto(q[1..], t.handling)
  }

  /** The clock is not behind the event being handled, nothing is inserted ahead of the head between
      arming and pulling, and the queue does not run empty. */
  ghost predicate Undisturbed<T>(q: seq<Entry<T>>, turns: seq<Turn<T>>)
    decreases |turns|
  {
    q != [] && (turns == [] ||
      var t := turns[0];
      && (forall i :: 0 <= i < |t.handling| ==> t.handling[i].time.Normal() && q[0].time.Micros() <= t.handling[i].time.Micros())
      && Armed(q, t) != []
      && (forall i :: 0 <= i < |t.filling| ==> t.filling[i].time.Normal() && Armed(q, t)[0].time.Micros() < t.filling[i].time.Micros())
      && Undisturbed(PushOnto(Armed(q, t), t.filling), turns[1..]))
  }

  /** The delays armed over the turns, in order. */
  ghost function Delays<T>(q: seq<Entry<T>>, turns: seq<Turn<T>>): seq<Timeval>
    requires Undisturbed(q, turns)
    decreases |turns|
  {
    if turns == [] then []
    else
      var a := Armed(q, turns[0]);
      [ArmAfterTimeout(q[0], a)] + Delays(PushOnto(a, turns[0].filling), turns[1..])
  }

  /** The event at the head when the turns are over. */
  ghost function Head<T>(q: seq<Entry<T>>, turns: seq<Turn<T>>): Entry<T>
    requires Undisturbed(q, turns)
    decreases |turns|
  {
    if turns == [] then q[0] else Head(PushOnto(Armed(q, turns[0]), turns[0].filling), turns[1..])
  }

  function Total(ds: seq<Timeval>): int {
    if ds == [] then 0 else ds[0].Micros() + Total(ds[1..])
  }

  ghost predicate AllFrom<T>(q: seq<Entry<T>>, micros: int) {
    forall i :: 0 <= i < |q| ==> micros <= q[i].time.Micros()
  }

  lemma {:induction false} PushOntoKeeps<T>(q: seq<Entry<T>>, es: seq<Entry<T>>, micros: int)
    requires Sorted(q) && AllNormal(q) && AllFrom(q, micros) && AllNormal(es) && AllFrom(es, micros)
    ensures Sorted(PushOnto(q, es)) && AllNormal(PushOnto(q, es)) && AllFrom(PushOnto(q, es), micros)
    decreases |es|
  {
    if es != [] {
      NormalPushKeepsOrder(q, es[0]);
      assert AllFrom(Insert(q, es[0]), micros);
      PushOntoKeeps(Insert(q, es[0]), es[1..], micros);
    }
  }

  lemma {:induction false} HeadStays<T>(q: seq<Entry<T>>, es: seq<Entry<T>>)
    requires q != [] && AllNormal(q) && AllNormal(es)
    requires forall i :: 0 <= i < |es| ==> q[0].time.Micros() < es[i].time.Micros()
    ensures PushOnto(q, es) != [] && PushOnto(q, es)[0] == q[0]
    decreases |es|
  {
    if es != [] {
      PositionIs(q, es[0].time);
      TimeCmpExact(q[0].time, es[0].time);
      assert AllNormal(Insert(q, es[0]));
      HeadStays(Insert(q, es[0]), es[1..]);
    }
  }

  /** Pacing: over any undisturbed stretch of timeouts every armed delay is non-negative and normal, and
      the delays add up exactly to the time between the first event and the last. */
  lemma {:induction false} DelaysAddUp<T>(q: seq<Entry<T>>, turns: seq<Turn<T>>)
    requires Undisturbed(q, turns) && Sorted(q) && AllNormal(q)
    ensures forall d :: d in Delays(q, turns) ==> d.Micros() >= 0 && d.Normal()
    ensures Total(Delays(q, turns)) == Head(q, turns).time.Micros() - q[0].time.Micros()
    decreases |turns|
  {
    if turns != [] {
      hide PushOnto;
      var t, a := turns[0], Armed(q, turns[0]);
      PushOntoKeeps(q[1..], t.handling, q[0].time.Micros());
      PushOntoKeeps(a, t.filling, q[0].time.Micros());
      HeadStays(a, t.filling);
      DeltaIsExact(q[0].time, a[0].time);
      DelaysAddUp(PushOnto(a, t.filling), turns[1..]);
    }
  }
}
