/** `struct timeval` and its arithmetic: subtraction, comparison, and the two ways an event gets its time. */
module Timeval {
  const SECOND := 1000000

  datatype Timeval = Timeval(sec: int, usec: int) {
    function Micros(): int {
      sec * SECOND + usec
    }

    /** What `gettimeofday` returns. */
    predicate Normal() {
      0 <= usec < SECOND
    }

    /** What the program's additions to a normal time give at most: no carry is taken when a timeout of
        less than a second or the 10 microseconds of ENDOFSTREAM are added. */
    predicate Loose() {
      0 <= usec < 2 * SECOND
    }
  }

  /** `second - first`, with at most one borrow. */
  function CalculateDelta(first: Timeval, second: Timeval): Timeval {
    var sec, usec := second.sec - first.sec, second.usec - first.usec;
    if usec < 0 then Timeval(sec - 1, usec + SECOND) else Timeval(sec, usec)
  }

  /** Positive if `second` is bigger, negative if `first` is. */
  function TimeCmp(first: Timeval, second: Timeval): int {
    var delta := CalculateDelta(first, second);
    if delta.sec != 0 then delta.sec else delta.usec
  }

  function Sign(n: int): int {
    if n < 0 then -1 else if n == 0 then 0 else 1
  }

  /** The comparison's blind spot: `second` is at most a second behind in `sec` but carries a second or
      more in `usec`. */
  predicate Misjudged(first: Timeval, second: Timeval) {
    second.sec == first.sec - 1 && second.usec - first.usec >= SECOND
  }

  /** Subtraction loses nothing, whatever the fields, and is normal exactly when one borrow suffices. */
  lemma DeltaIsExact(first: Timeval, second: Timeval)
    ensures CalculateDelta(first, second).Micros() == second.Micros() - first.Micros()
    ensures CalculateDelta(first, second).Normal() <==> -SECOND <= second.usec - first.usec < SECOND
  {
  }

  /** On every time the program builds, the comparison has the sign of the true difference exactly
      outside its blind spot, and inside it always ranks `second` first. */
  lemma TimeCmpExactIff(first: Timeval, second: Timeval)
    requires first.Loose() && second.Loose()
    ensures Sign(TimeCmp(first, second)) == Sign(second.Micros() - first.Micros()) <==> !Misjudged(first, second)
    ensures Misjudged(first, second) ==> TimeCmp(first, second) < 0 <= second.Micros() - first.Micros()
  {
  }

  lemma RankedLaterIff(first: Timeval, second: Timeval)
    requires first.Loose() && second.Loose()
    ensures TimeCmp(first, second) > 0 <==> first.Micros() < second.Micros() && !Misjudged(first, second)
    ensures first.Normal() && second.Normal() ==> !Misjudged(first, second)
    ensures Misjudged(first, second) ==> first.Micros() <= second.Micros()
  {
  }

  /** Without any bound on the seconds: a `usec` difference strictly between minus two and plus one
      seconds suffices. */
  lemma TimeCmpExact(first: Timeval, second: Timeval)
    requires -2 * SECOND < second.usec - first.usec < SECOND
    ensures Sign(TimeCmp(first, second)) == Sign(second.Micros() - first.Micros())
  {
  }

  /** On normal times the comparison is a total order: antisymmetric, transitive, total, and zero only
      for equal times. */
  lemma NormalTimesAreOrdered(a: Timeval, b: Timeval, c: Timeval)
    requires a.Normal() && b.Normal() && c.Normal()
    ensures Sign(TimeCmp(a, b)) == -Sign(TimeCmp(b, a))
    ensures TimeCmp(a, b) >= 0 && TimeCmp(b, c) >= 0 ==> TimeCmp(a, c) >= 0
    ensures TimeCmp(a, b) >= 0 || TimeCmp(b, a) >= 0
    ensures TimeCmp(a, b) == 0 <==> a == b
  {
    TimeCmpExact(a, b);
    TimeCmpExact(b, a);
    TimeCmpExact(b, c);
    TimeCmpExact(a, c);
  }

  /** A timeout 100 ms from now can be ranked before an event that is 50 ms earlier. */
  lemma UncarriedTimeoutIsMisjudged()
    ensures var now, frame := Timeval(4, 950000), Timeval(5, 0);
      && frame.Micros() < TimeoutAt(now, 100).Micros()
      && TimeCmp(frame, TimeoutAt(now, 100)) < 0
  {
  }

  /** `push_timeout`: no carry is taken. */
  function TimeoutAt(now: Timeval, ms: nat): Timeval {
    Timeval(now.sec + ms / 1000, now.usec + ms % 1000 * 1000)
  }

  lemma TimeoutIsExact(now: Timeval, ms: nat)
    requires now.Normal()
    ensures TimeoutAt(now, ms).Micros() == now.Micros() + ms * 1000
    ensures TimeoutAt(now, ms).Loose()
    ensures TimeoutAt(now, ms).Normal() <==> now.usec + ms % 1000 * 1000 < SECOND
  {
    assert ms == ms / 1000 * 1000 + ms % 1000;
  }

  /** `set_timeval`: the 90 kHz timestamp added to the base time, with one carry. */
  function FrameTime(base: Timeval, ts: nat): Timeval {
    var sec, usec := base.sec + ts / 90000, base.usec + 100 * (ts % 90000) / 9;
    if usec >= SECOND then Timeval(sec + 1, usec - SECOND) else Timeval(sec, usec)
  }

  /** One carry always suffices, and the result is the base plus the timestamp in whole microseconds. */
  lemma FrameTimeIsExact(base: Timeval, ts: nat)
    requires base.Normal()
    ensures FrameTime(base, ts).Normal()
    ensures FrameTime(base, ts).Micros() == base.Micros() + 100 * ts / 9
  {
    var q, r := ts / 90000, ts % 90000;
    assert 100 * ts == 9 * (SECOND * q) + 100 * r;
  }

  /** A strict order embedding: later timestamps get later times, and the comparison sees it. */
  lemma FrameTimeIsStrict(base: Timeval, ts: nat, later: nat)
    requires base.Normal()
    ensures ts < later <==> TimeCmp(FrameTime(base, ts), FrameTime(base, later)) > 0
    ensures ts == later <==> TimeCmp(FrameTime(base, ts), FrameTime(base, later)) == 0
  {
    FrameTimeIsExact(base, ts);
    FrameTimeIsExact(base, later);
    TimeCmpExact(FrameTime(base, ts), FrameTime(base, later));
  }

  /** ENDOFSTREAM: 10 microseconds after the last frame read, without a carry. */
  function EndTime(last: Timeval): Timeval {
    Timeval(last.sec, last.usec + 10)
  }

  /** Every frame up to the last one read is ranked before it, even when its `usec` passes a second. */
  lemma EndComesLast(frame: Timeval, last: Timeval)
    requires frame.Normal() && last.Normal() && frame.Micros() <= last.Micros()
    ensures TimeCmp(frame, EndTime(last)) > 0
  {
  }
}
