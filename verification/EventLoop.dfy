/** The event loop's two ways through the queue: the timeout branch, and the re-arming after descriptor
    activity. What the first sends is its out-parameter. */
module EventLoop {
  import opened Wrappers
  import opened Timeval
  import opened EventOrder
  import opened EventQueue
  import opened Pacing

  /** The queue after a timeout: without its head, and with a new CHECKMEDIASTATE if that was one and the
      media is not streaming yet. */
  function AfterTimeout<F>(q: seq<Entry<Item<F>>>, streaming: bool, now: Timeval): seq<Entry<Item<F>>>
    requires q != []
  {
    if q[0].item.kind == CHECKMEDIASTATE && !streaming then
      Insert(q[1..], Entry(TimeoutAt(now, 1000), Item(CHECKMEDIASTATE, q[0].item.frame)))
    else q[1..]
  }

  /** The CHECKMEDIASTATE events of a queue. */
  function Checks<F>(q: seq<Entry<Item<F>>>): nat {
    if q == [] then 0 else (if q[0].item.kind == CHECKMEDIASTATE then 1 else 0) + Checks(q[1..])
  }

  lemma {:induction false} ChecksOfAppend<F>(a: seq<Entry<Item<F>>>, b: seq<Entry<Item<F>>>)
    ensures Checks(a + b) == Checks(a) + Checks(b)
  {
    if a == [] {
      assert a + b == b;
    } else {
      assert (a + b)[1..] == a[1..] + b;
      ChecksOfAppend(a[1..], b);
    }
  }

  lemma ChecksOfOne<F>(e: Entry<Item<F>>)
    ensures Checks([e]) == if e.item.kind == CHECKMEDIASTATE then 1 else 0
  {
  }

  /** Handling a CHECKMEDIASTATE while the media is missing puts another one somewhere among the events that were
      behind it, due a second after now; handling anything else, or one while the media streams, leaves just
      those events. */
  lemma WhatATimeoutLeaves<F>(q: seq<Entry<Item<F>>>, streaming: bool, now: Timeval)
    requires q != []
    ensures q[0].item.kind == CHECKMEDIASTATE && !streaming ==>
              exists e: Entry<Item<F>>, k: nat :: && e.item.kind == CHECKMEDIASTATE && e.time.Micros() == now.Micros() + 1000000
                                  && k <= |q[1..]| && AfterTimeout(q, streaming, now) == PutAt(q[1..], k, e)
    ensures !(q[0].item.kind == CHECKMEDIASTATE && !streaming) ==> AfterTimeout(q, streaming, now) == q[1..]
  {
    hide Position;
    if q[0].item.kind == CHECKMEDIASTATE && !streaming {
      var e := Entry(TimeoutAt(now, 1000), Item(CHECKMEDIASTATE, q[0].item.frame));
      assert e.time.Micros() == now.Micros() + 1000000;
      assert AfterTimeout(q, streaming, now) == PutAt(q[1..], Position(q[1..], e.time), e);
    }
  }

  function PutAt<F>(q: seq<Entry<Item<F>>>, k: nat, e: Entry<Item<F>>): seq<Entry<Item<F>>>
    requires k <= |q|
  {
    q[..k] + [e] + q[k..]
  }

  lemma ChecksOfPutAt<F>(q: seq<Entry<Item<F>>>, k: nat, e: Entry<Item<F>>)
    requires k <= |q|
    ensures Checks(PutAt(q, k, e)) == Checks(q) + if e.item.kind == CHECKMEDIASTATE then 1 else 0
  {
    hide Checks;
    ChecksOfAppend(q[..k] + [e], q[k..]);
    ChecksOfAppend(q[..k], [e]);
    ChecksOfOne(e);
    ChecksOfAppend(q[..k], q[k..]);
    assert q == q[..k] + q[k..];
  }

  /** The queue after timeouts at the given times, as long as there are any events. */
  function Timeouts<F>(q: seq<Entry<Item<F>>>, streaming: bool, nows: seq<Timeval>): seq<Entry<Item<F>>>
    decreases |nows|
  {
    if nows == [] || q == [] then q else Timeouts(AfterTimeout(q, streaming, nows[0]), streaming, nows[1..])
  }

  /** Over every run of timeouts the number of CHECKMEDIASTATE events stays what it is while the media is missing:
      if there is one the queue never runs empty, so that every timeout arms the next. While the media streams
      each timeout takes one event off. */
  lemma {:induction false} PollingGoesOn<F>(q: seq<Entry<Item<F>>>, nows: seq<Timeval>)
    ensures Checks(Timeouts(q, false, nows)) == Checks(q)
    ensures Checks(q) > 0 ==> Timeouts(q, false, nows) != []
    ensures |Timeouts(q, true, nows)| == if |nows| < |q| then |q| - |nows| else 0
    decreases |nows|
  {
    hide AfterTimeout;
    if nows != [] && q != [] {
      WhatATimeoutLeaves(q, true, nows[0]);
      PollingGoesOn(q[1..], nows[1..]);
      var next := AfterTimeout(q, false, nows[0]);
      WhatATimeoutLeaves(q, false, nows[0]);
      if q[0].item.kind == CHECKMEDIASTATE {
        var e: Entry<Item<F>>, k: nat :| && e.item.kind == CHECKMEDIASTATE && e.time.Micros() == nows[0].Micros() + 1000000
                         && k <= |q[1..]| && next == PutAt(q[1..], k, e);
        ChecksOfPutAt(q[1..], k, e);
      }
      PollingGoesOn(next, nows[1..]);
    }
  }

  /** Pulls the head and hands it over for dispatch, puts a CHECKMEDIASTATE back for another second, arms
      the time from the handled event to the new head, and signals the filler when less than half full. */
  method HandleTimeout<F>(queue: Queue<F>, streaming: bool, now: Timeval)
    returns (dispatched: Option<Entry<Item<F>>>, timeind: Option<Timeval>, signal: bool)
    requires queue.Valid()
    modifies queue, queue.chain
    ensures queue.Valid()
    ensures old(queue.Entries()) == [] ==>
              dispatched == None && timeind == None && !signal && queue.Entries() == []
    ensures old(queue.Entries()) != [] ==>
              && dispatched == Some(old(queue.Entries())[0])
              && queue.Entries() == AfterTimeout(old(queue.Entries()), streaming, now)
              && timeind == (if queue.Entries() == [] then None
                             else Some(ArmAfterTimeout(old(queue.Entries())[0], queue.Entries())))
              && (signal <==> |queue.Entries()| < QUEUESIZE / 2)
  {
    hide Values, Insert, CalculateDelta, TimeoutAt;
    dispatched, timeind, signal := None, None, false;
    queue.HeadAndSize();
    var event := queue.PullEvent();
    if event != null {
      dispatched := Some(event.Value());
      if event.item.kind == CHECKMEDIASTATE && !streaming {
        queue.PushTimeout(now, 1000, event.item);
      }
      queue.HeadAndSize();
      if queue.size > 0 {
        timeind := Some(CalculateDelta(event.time, queue.first.time));
      }
      signal := queue.size < QUEUESIZE / 2;
    }
  }

  /** After activity on the descriptors the timeout is computed anew, from now. */
  method Rearm<F>(queue: Queue<F>, now: Timeval) returns (timeind: Option<Timeval>)
    requires queue.Valid()
    ensures timeind == if queue.Entries() == [] then None else Some(ArmAfterActivity(now, queue.Entries()))
  {
    hide Values, CalculateDelta;
    queue.HeadAndSize();
    timeind := None;
    if queue.size > 0 {
      var timeout := CalculateDelta(now, queue.first.time);
      if timeout.sec < 0 {
        timeout := Timeval(0, 0);
      }
      timeind := Some(timeout);
    }
  }
}
