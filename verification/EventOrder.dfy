/** The order of the timeout queue, on values: where `push_event` puts an event, and what follows for
    any list of pushes. `T` is what an event carries besides its time. */
module EventOrder {
  import opened Timeval

  const QUEUESIZE: nat := 200

  datatype Entry<T> = Entry(time: Timeval, item: T)

  /** Walking back from the last event while the comparison does not rank the new one later: the number
      of events that stay in front of it. */
  function Position<T>(q: seq<Entry<T>>, t: Timeval): (k: nat)
    ensures k <= |q|
  {
    if q == [] then 0
    else if TimeCmp(q[|q| - 1].time, t) <= 0 then Position(q[..|q| - 1], t)
    else |q|
  }

  function Insert<T>(q: seq<Entry<T>>, e: Entry<T>): seq<Entry<T>> {
    var k := Position(q, e.time);
    q[..k] + [e] + q[k..]
  }

  /** The queue after the pushes `es`, first push first. */
  function PushAll<T>(es: seq<Entry<T>>): seq<Entry<T>> {
    if es == [] then [] else Insert(PushAll(es[..|es| - 1]), es[|es| - 1])
  }

  ghost predicate Sorted<T>(q: seq<Entry<T>>) {
    forall i, j :: 0 <= i < j < |q| ==> q[i].time.Micros() <= q[j].time.Micros()
  }

  ghost predicate AllLoose<T>(q: seq<Entry<T>>) {
    forall i :: 0 <= i < |q| ==> q[i].time.Loose()
  }

  ghost predicate AllNormal<T>(q: seq<Entry<T>>) {
    forall i :: 0 <= i < |q| ==> q[i].time.Normal()
  }

  /** The walk stops at the last event that the comparison ranks before the new one. */
  lemma {:induction false} PositionIs<T>(q: seq<Entry<T>>, t: Timeval)
    ensures var k := Position(q, t);
      && (k > 0 ==> TimeCmp(q[k - 1].time, t) > 0)
      && forall i :: k <= i < |q| ==> TimeCmp(q[i].time, t) <= 0
  {
    if q != [] && TimeCmp(q[|q| - 1].time, t) <= 0 {
      PositionIs(q[..|q| - 1], t);
    }
  }

  /** How many events of a sorted queue are strictly earlier than `t`. */
  function Earlier<T>(q: seq<Entry<T>>, t: Timeval): (k: nat)
    ensures k <= |q|
  {
    if q == [] then 0
    else if q[|q| - 1].time.Micros() >= t.Micros() then Earlier(q[..|q| - 1], t)
    else |q|
  }

  lemma {:induction false} EarlierIs<T>(q: seq<Entry<T>>, t: Timeval)
    requires Sorted(q)
    ensures var k := Earlier(q, t);
      && (forall i :: 0 <= i < k ==> q[i].time.Micros() < t.Micros())
      && forall i :: k <= i < |q| ==> q[i].time.Micros() >= t.Micros()
  {
    if q != [] && q[|q| - 1].time.Micros() >= t.Micros() {
      EarlierIs(q[..|q| - 1], t);
    }
  }

  lemma SortedInsertAt<T>(q: seq<Entry<T>>, e: Entry<T>, k: nat)
    requires Sorted(q) && k <= |q|
    ensures Sorted(q[..k] + [e] + q[k..]) <==>
            (k > 0 ==> q[k - 1].time.Micros() <= e.time.Micros()) && (k < |q| ==> e.time.Micros() <= q[k].time.Micros())
  {
    var r := q[..k] + [e] + q[k..];
    if k > 0 {
      assert r[k - 1] == q[k - 1] && r[k] == e;
    }
    if k < |q| {
      assert r[k] == e && r[k + 1] == q[k];
    }
  }

  /** A push keeps a sorted queue sorted exactly when the comparison does not misjudge the last event
      that is really earlier than the new one. */
  lemma PushKeepsOrderIff<T>(q: seq<Entry<T>>, e: Entry<T>)
    requires Sorted(q) && AllLoose(q) && e.time.Loose()
    ensures var n := Earlier(q, e.time);
            Sorted(Insert(q, e)) <==> n == 0 || !Misjudged(q[n - 1].time, e.time)
  {
    hide Position, Earlier, TimeCmp, Misjudged, Timeval.Loose, Timeval.Normal, Timeval.Micros;
    var k, n := Position(q, e.time), Earlier(q, e.time);
    PositionIs(q, e.time);
    EarlierIs(q, e.time);
    SortedInsertAt(q, e, k);
    if k > 0 {
      RankedLaterIff(q[k - 1].time, e.time);
    }
    if n > 0 {
      RankedLaterIff(q[n - 1].time, e.time);
    }
  }

  /** With normal times every push keeps the order. */
  lemma NormalPushKeepsOrder<T>(q: seq<Entry<T>>, e: Entry<T>)
    requires Sorted(q) && AllNormal(q) && e.time.Normal()
    ensures Sorted(Insert(q, e)) && AllNormal(Insert(q, e))
  {
    PushKeepsOrderIff(q, e);
  }

  /** A timeout 100 ms ahead that wraps past the second lands in front of an earlier frame. */
  lemma UncarriedTimeoutBreaksOrder<T>(item: T)
    ensures var q, e := [Entry(Timeval(5, 0), item)], Entry(TimeoutAt(Timeval(4, 950000), 100), item);
            Sorted(q) && !Sorted(Insert(q, e))
  {
    var q, e := [Entry(Timeval(5, 0), item)], Entry(TimeoutAt(Timeval(4, 950000), 100), item);
    assert Earlier(q, e.time) == 1;
    PushKeepsOrderIff(q, e);
  }

  // ----- draining -----

  function Reverse<T>(s: seq<T>): seq<T> {
    if s == [] then [] else Reverse(s[1..]) + [s[0]]
  }

  /** The events at one instant, in order. */
  function At<T>(q: seq<Entry<T>>, t: Timeval): seq<Entry<T>> {
    if q == [] then [] else (if q[0].time == t then [q[0]] else []) + At(q[1..], t)
  }

  lemma {:induction false} AtOfAppend<T>(a: seq<Entry<T>>, b: seq<Entry<T>>, t: Timeval)
    ensures At(a + b, t) == At(a, t) + At(b, t)
  {
    if a == [] {
      assert a + b == b;
    } else {
      assert (a + b)[1..] == a[1..] + b;
      AtOfAppend(a[1..], b, t);
    }
  }

  lemma {:induction false} AtOfNone<T>(q: seq<Entry<T>>, t: Timeval)
    requires forall i :: 0 <= i < |q| ==> q[i].time != t
    ensures At(q, t) == []
  {
    if q != [] {
      AtOfNone(q[1..], t);
    }
  }

  lemma {:induction false} ReverseOfSnoc<T>(s: seq<T>, x: T)
    ensures Reverse(s + [x]) == [x] + Reverse(s)
  {
    if s == [] {
      assert s + [x] == [x] && [x][1..] == [];
    } else {
      assert (s + [x])[1..] == s[1..] + [x];
      ReverseOfSnoc(s[1..], x);
    }
  }

  /** A push puts the event in front of the events of its own instant and moves no other. */
  lemma InsertAtInstant<T>(q: seq<Entry<T>>, e: Entry<T>, t: Timeval)
    requires Sorted(q) && AllNormal(q) && e.time.Normal() && t.Normal()
    ensures At(Insert(q, e), t) == (if e.time == t then [e] else []) + At(q, t)
  {
    hide Position, At;
    var k := Position(q, e.time);
    FrontIsEarlier(q, e);
    AtOfAppend(q[..k] + [e], q[k..], t);
    AtOfAppend(q[..k], [e], t);
    assert q == q[..k] + q[k..];
    AtOfAppend(q[..k], q[k..], t);
    AtOfOne(e, t);
    if e.time == t {
      AtOfNone(q[..k], t);
    }
  }

  lemma AtOfOne<T>(e: Entry<T>, t: Timeval)
    ensures At([e], t) == if e.time == t then [e] else []
  {
  }

  lemma FrontIsEarlier<T>(q: seq<Entry<T>>, e: Entry<T>)
    requires Sorted(q) && AllNormal(q) && e.time.Normal()
    ensures forall i :: 0 <= i < Position(q, e.time) ==> q[i].time.Micros() < e.time.Micros()
  {
    hide Position, TimeCmp;
    var k := Position(q, e.time);
    PositionIs(q, e.time);
    if k > 0 {
      RankedLaterIff(q[k - 1].time, e.time);
    }
  }

  /** Draining after any pushes gives a sorted permutation of them in which the events of one instant
      come out last pushed first. */
  lemma {:induction false} DrainIsSortedPermutation<T>(es: seq<Entry<T>>, t: Timeval)
    requires AllNormal(es) && t.Normal()
    ensures var q := PushAll(es);
      && Sorted(q) && AllNormal(q)
      && multiset(q) == multiset(es)
      && At(q, t) == Reverse(At(es, t))
  {
    if es != [] {
      hide Insert, At;
      var front, e := es[..|es| - 1], es[|es| - 1];
      DrainIsSortedPermutation(front, t);
      NormalPushKeepsOrder(PushAll(front), e);
      InsertAtInstant(PushAll(front), e, t);
      assert es == front + [e];
      AtOfAppend(front, [e], t);
      AtOfOne(e, t);
      if e.time == t {
        ReverseOfSnoc(At(front, t), e);
      } else {
        assert At(front, t) + [] == At(front, t);
      }
      InsertKeepsAll(PushAll(front), e);
    }
  }

  lemma InsertKeepsAll<T>(q: seq<Entry<T>>, e: Entry<T>)
    ensures multiset(Insert(q, e)) == multiset(q) + multiset{e}
  {
    var k := Position(q, e.time);
    assert q == q[..k] + q[k..];
  }

  // ----- runs -----

  datatype Operation<T> = Push(e: Entry<T>) | Pull | Empty

  function Apply<T>(q: seq<Entry<T>>, op: Operation<T>): seq<Entry<T>> {
    match op
    case Push(e) => Insert(q, e)
    case Pull => if q == [] then q else q[1..]
    case Empty => []
  }

  function Run<T>(ops: seq<Operation<T>>): seq<Entry<T>> {
    if ops == [] then [] else Apply(Run(ops[..|ops| - 1]), ops[|ops| - 1])
  }

  /** After every run of pushes, pulls and empties with normal times the queue is sorted, so that each
      pull takes a minimum. */
  lemma {:induction false} RunIsSorted<T>(ops: seq<Operation<T>>)
    requires forall i :: 0 <= i < |ops| && ops[i].Push? ==> ops[i].e.time.Normal()
    ensures var q := Run(ops);
      && Sorted(q) && AllNormal(q)
      && forall i :: 0 <= i < |q| ==> q[0].time.Micros() <= q[i].time.Micros()
  {
    if ops != [] {
      hide Insert;
      RunIsSorted(ops[..|ops| - 1]);
      var q, op := Run(ops[..|ops| - 1]), ops[|ops| - 1];
      if op.Push? {
        NormalPushKeepsOrder(q, op.e);
      }
    }
  }
}
