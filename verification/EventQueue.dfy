/** The timeout queue of `server.c`: a doubly linked list of events that is spliced in place through
    `first`, `last`, `next`, `prev` and `size`. Its contents as a list of values are `Entries`, and
    each operation is proved to do to them what `EventOrder` says. */
module EventQueue {
  import opened Timeval
  import opened EventOrder

  datatype Kind = FRAME | CHECKMEDIASTATE | ENDOFSTREAM

  /** What an event carries: its kind and, for FRAME, the frame (any value). */
  datatype Item<F> = Item(kind: Kind, frame: F)

  class TimeoutEvent<F> {
    var next: TimeoutEvent?<F>
    var prev: TimeoutEvent?<F>
    const time: Timeval
    const item: Item<F>

    constructor (time: Timeval, item: Item<F>)
      ensures this.time == time && this.item == item && next == null && prev == null
    {
      this.time, this.item := time, item;
      next, prev := null, null;
    }

    function Value(): Entry<Item<F>> {
      Entry(time, item)
    }
  }

  /** The values of a chain of events. */
  function Values<F>(s: seq<TimeoutEvent<F>>): (vs: seq<Entry<Item<F>>>) {
    seq(|s|, i requires 0 <= i < |s| => s[i].Value())
  }

  lemma ValuesOfInsert<F>(s: seq<TimeoutEvent<F>>, k: nat, e: TimeoutEvent<F>)
    requires k <= |s|
    ensures Values(s[..k] + [e] + s[k..]) == Values(s)[..k] + [e.Value()] + Values(s)[k..]
  {
  }

  /** The frames an emptied queue frees, first event first. */
  function Frames<F>(q: seq<Entry<Item<F>>>): seq<F> {
    if q == [] then [] else Frames(q[..|q| - 1]) + if q[|q| - 1].item.kind == FRAME then [q[|q| - 1].item.frame] else []
  }

  /** How many events carry a frame. */
  function CountFrames<F>(q: seq<Entry<Item<F>>>): nat {
    if q == [] then 0 else CountFrames(q[..|q| - 1]) + if q[|q| - 1].item.kind == FRAME then 1 else 0
  }

  /** Each FRAME event's frame is freed once, in its turn, and nothing else is. */
  lemma {:induction false} FreedAreFrames<F>(q: seq<Entry<Item<F>>>)
    ensures |Frames(q)| == CountFrames(q)
    ensures forall k :: 0 <= k < |q| && q[k].item.kind == FRAME ==>
              CountFrames(q[..k]) < |Frames(q)| && Frames(q)[CountFrames(q[..k])] == q[k].item.frame
  {
    if q != [] {
      var n := |q| - 1;
      FreedAreFrames(q[..n]);
      assert q[..n][..n] == q[..n];
      forall k | 0 <= k < |q| && q[k].item.kind == FRAME
        ensures CountFrames(q[..k]) < |Frames(q)| && Frames(q)[CountFrames(q[..k])] == q[k].item.frame
      {
        if k < n {
          assert q[..n][k] == q[k] && q[..n][..k] == q[..k];
        }
      }
    }
  }

  class Queue<F> {
    var first: TimeoutEvent?<F>
    var last: TimeoutEvent?<F>
    var size: nat
    ghost var chain: seq<TimeoutEvent<F>>

    /** The `next` pointers from `first` and the `prev` pointers from `last` run through the same chain
        of distinct events in opposite directions, `size` is its length, and the ends are null exactly
        when it is empty. */
    ghost predicate Valid()
      reads this, chain
    {
      size == |chain| && Linked(chain)
    }

    ghost predicate Linked(t: seq<TimeoutEvent<F>>)
      reads this, t
    {
      && first == (if t == [] then null else t[0])
      && last == (if t == [] then null else t[|t| - 1])
      && (forall i {:trigger t[i].next} :: 0 <= i < |t| ==> t[i].next == if i + 1 < |t| then t[i + 1] else null)
      && (forall i {:trigger t[i].prev} :: 0 <= i < |t| ==> t[i].prev == if i > 0 then t[i - 1] else null)
      && forall i, j :: 0 <= i < j < |t| ==> t[i] != t[j]
    }

    ghost function Entries(): seq<Entry<Item<F>>>
      reads this
    {
      Values(chain)
    }

    constructor ()
      ensures Valid() && Entries() == [] && chain == []
    {
      first, last, size, chain := null, null, 0, [];
    }

    lemma HeadAndSize()
      requires Valid()
      ensures |Entries()| == size
      ensures size > 0 <==> first != null
      ensures first != null ==> first.time == Entries()[0].time
    {
    }

    /** Walks back from the tail to the last event that stays in front of one at time `t`. */
    method WalkBack(t: Timeval) returns (stepper: TimeoutEvent?<F>, ghost k: nat)
      requires Valid()
      ensures k == Position(Entries(), t)
      ensures stepper == if k == 0 then null else chain[k - 1]
    {
      hide TimeCmp;
      stepper, k := last, |chain|;
      ghost var entries := Entries();
      assert entries[..k] == entries;
      while stepper != null && TimeCmp(stepper.time, t) <= 0
        invariant k <= |chain| && stepper == if k == 0 then null else chain[k - 1]
        invariant Position(entries, t) == Position(entries[..k], t)
        decreases k
      {
        assert entries[..k][..k - 1] == entries[..k - 1] && entries[..k][k - 1] == chain[k - 1].Value();
        stepper, k := stepper.prev, k - 1;
      }
      assert k > 0 ==> entries[..k][k - 1] == chain[k - 1].Value();
    }

    /** Links the event in behind `stepper`, or in front when the walk ran off the list. */
    method Splice(event: TimeoutEvent<F>, stepper: TimeoutEvent?<F>, ghost k: nat)
      requires Valid() && event !in chain
      requires k <= |chain| && stepper == if k == 0 then null else chain[k - 1]
      modifies this, chain, event
      ensures Valid() && chain == old(chain)[..k] + [event] + old(chain)[k..]
    {
      ghost var t := chain[..k] + [event] + chain[k..];
      event.prev, event.next := null, null;
      if last == null {
        first, last := event, event;
        assert t == [event];
      } else if stepper == null {
        assert t == [event] + chain;
        LinkInFront(event);
      } else {
        LinkBehind(event, stepper, k);
      }
      size := size + 1;
      chain := t;
    }

    method LinkInFront(event: TimeoutEvent<F>)
      requires Valid() && event !in chain && chain != [] && event.prev == null
      modifies this`first, chain, event
      ensures Linked([event] + chain)
    {
      first.prev := event;
      event.next := first;
      first := event;
      ghost var t := [event] + chain;
      assert forall i {:trigger t[i]} :: 1 <= i < |t| ==> t[i] == chain[i - 1];
    }

    method LinkBehind(event: TimeoutEvent<F>, stepper: TimeoutEvent<F>, ghost k: nat)
      requires Valid() && event !in chain && 0 < k <= |chain| && stepper == chain[k - 1]
      modifies this`last, chain, event
      ensures Linked(chain[..k] + [event] + chain[k..])
    {
      Spliced(chain, k, event);
      InsQue(event, stepper);
      if event.next == null {
        last := event;
      }
    }

    lemma Spliced(s: seq<TimeoutEvent<F>>, k: nat, e: TimeoutEvent<F>)
      requires k <= |s|
      ensures var t := s[..k] + [e] + s[k..];
        && |t| == |s| + 1 && t[k] == e
        && (forall i {:trigger t[i]} :: 0 <= i < k ==> t[i] == s[i])
        && (forall i {:trigger t[i]} :: k < i < |t| ==> t[i] == s[i - 1])
    {
    }

    /** Puts the event behind the one the walk stops at. */
    method PushEvent(event: TimeoutEvent<F>)
      requires Valid() && event !in chain
      modifies this, chain, event
      ensures Valid() && chain == old(chain[..Position(Entries(), event.time)] + [event] + chain[Position(Entries(), event.time)..])
      ensures Entries() == Insert(old(Entries()), event.Value())
    {
      var stepper;
      ghost var k;
      stepper, k := WalkBack(event.time);
      ValuesOfInsert(chain, k, event);
      Splice(event, stepper, k);
    }

    /** POSIX `insque`: links `elem` in behind `pred`. */
    static method InsQue(elem: TimeoutEvent<F>, pred: TimeoutEvent<F>)
      requires elem != pred && pred.next != elem && pred.next != pred
      modifies elem, pred, pred.next
      ensures elem.next == old(pred.next) && elem.prev == pred
      ensures pred.next == elem && pred.prev == old(pred.prev)
      ensures old(pred.next) != null ==> old(pred.next).prev == elem && old(pred.next).next == old(pred.next.next)
    {
      var succ := pred.next;
      pred.next := elem;
      if succ != null {
        succ.prev := elem;
      }
      elem.next := succ;
      elem.prev := pred;
    }

    /** POSIX `remque`: its neighbours are linked to each other; its own links stay as they are. */
    static method RemQue(elem: TimeoutEvent<F>)
      requires elem.next != elem && elem.prev != elem
      requires elem.next != null ==> elem.next != elem.prev
      modifies elem.next, elem.prev
      ensures old(elem.next) != null ==> old(elem.next).prev == old(elem.prev) && old(elem.next).next == old(elem.next.next)
      ensures old(elem.prev) != null ==> old(elem.prev).next == old(elem.next) && old(elem.prev).prev == old(elem.prev.prev)
    {
      var succ, pred := elem.next, elem.prev;
      if succ != null {
        succ.prev := pred;
      }
      if pred != null {
        pred.next := succ;
      }
    }

    /** Takes the first event off, or returns null when there is none. */
    method PullEvent() returns (ret: TimeoutEvent?<F>)
      requires Valid()
      modifies this, chain
      ensures Valid()
      ensures ret == null <==> old(Entries()) == []
      ensures ret == null ==> Entries() == []
      ensures ret != null ==> ret == old(chain)[0] && ret !in chain && chain == old(chain)[1..]
      ensures ret != null ==> ret.Value() == old(Entries())[0] && Entries() == old(Entries())[1..]
    {
      ret := first;
      if ret != null {
        first := first.next;
        RemQue(ret);
        size := size - 1;
        if size <= 0 {
          first, last := null, null;
        }
        chain := chain[1..];
        assert forall e :: e in chain ==> e != ret;
      }
    }

    /** Frees every event and, of the FRAME events, the frame: each exactly once, first to last. */
    method EmptyQueue() returns (freed: seq<F>)
      requires Valid()
      modifies this
      ensures Valid() && Entries() == [] && chain == []
      ensures freed == Frames(old(Entries()))
    {
      var event := first;
      var next: TimeoutEvent?<F>;
      next := null;
      freed := [];
      ghost var k, entries := 0, Entries();
      if event != null {
        next := event.next;
      }
      while event != null
        invariant k <= |chain|
        invariant event == if k < |chain| then chain[k] else null
        invariant event != null ==> next == event.next
        invariant freed == Frames(entries[..k])
        decreases |chain| - k
      {
        assert entries[..k + 1][..k] == entries[..k];
        if event.item.kind == FRAME {
          freed := freed + [event.item.frame];
        }
        event := next;
        if event != null {
          next := event.next;
        }
        k := k + 1;
      }
      assert entries[..k] == entries;
      first, last := null, null;
      size := 0;
      chain := [];
    }

    /** `push_timeout`, the clock reading given. */
    method PushTimeout(now: Timeval, ms: nat, item: Item<F>)
      requires Valid()
      modifies this, chain
      ensures Valid()
      ensures Entries() == Insert(old(Entries()), Entry(TimeoutAt(now, ms), item))
      ensures forall e :: e in chain ==> e in old(chain) || fresh(e)
    {
      hide Values, Position;
      var event := new TimeoutEvent(Timeval(now.sec + ms / 1000, now.usec + ms % 1000 * 1000), item);
      PushEvent(event);
    }
  }
}
