/**
 * The trailing-edge debounce used for resize events. Each call cancels the
 * pending timer and schedules a new one carrying the call's arguments; when
 * a timer elapses it runs the wrapped function once with those arguments.
 * Only the order of calls and timer expiries is modelled, not the delay.
 */
module Debounce {
  import opened Wrappers

  /** What can happen to a debounced function: a call, or its pending timer elapsing. */
  datatype TimerEvent<A> = Invoke(args: A) | Elapse

  /** One event: the new pending run, and the run that executes now, if any. */
  function Step<A>(pending: Option<A>, e: TimerEvent<A>): (Option<A>, Option<A>) {
    match e
    case Invoke(args) => (Some(args), None)
    case Elapse => (None, pending)
  }

  function RunsOf<A>(ran: Option<A>): seq<A> {
    if ran.Some? then [ran.value] else []
  }

  /** Replays events from a pending state: the final pending run and the runs executed, in order. */
  function Replay<A>(pending: Option<A>, events: seq<TimerEvent<A>>): (Option<A>, seq<A>)
    decreases |events|
  {
    if events == [] then (pending, [])
    else
      var step := Step(pending, events[0]);
      var rest := Replay(step.0, events[1..]);
      (rest.0, RunsOf(step.1) + rest.1)
  }

  /** The events of a burst of calls, one per call, in order. */
  function Invokes<A>(calls: seq<A>): seq<TimerEvent<A>> {
    seq(|calls|, k requires 0 <= k < |calls| => Invoke(calls[k]))
  }

  function CountElapses<A>(events: seq<TimerEvent<A>>): nat
    decreases |events|
  {
    if events == [] then 0 else (if events[0].Elapse? then 1 else 0) + CountElapses(events[1..])
  }

  /** Replaying two stretches of events is replaying the second from where the first left off. */
  lemma {:induction false} ReplayAppend<A>(pending: Option<A>, xs: seq<TimerEvent<A>>, ys: seq<TimerEvent<A>>)
    ensures Replay(pending, xs + ys)
            == (Replay(Replay(pending, xs).0, ys).0, Replay(pending, xs).1 + Replay(Replay(pending, xs).0, ys).1)
    decreases |xs|
  {
    if xs == [] {
      assert xs + ys == ys;
      assert Replay(pending, xs) == (pending, []);
      assert [] + Replay(pending, ys).1 == Replay(pending, ys).1;
    } else {
      var step := Step(pending, xs[0]);
      assert (xs + ys)[0] == xs[0] && (xs + ys)[1..] == xs[1..] + ys;
      ReplayAppend(step.0, xs[1..], ys);
      var mid := Replay(step.0, xs[1..]);
      assert Replay(pending, xs) == (mid.0, RunsOf(step.1) + mid.1);
      var tail := Replay(mid.0, ys);
      assert RunsOf(step.1) + (mid.1 + tail.1) == (RunsOf(step.1) + mid.1) + tail.1;
    }
  }

  /**
   * A burst of calls runs nothing and leaves exactly one run pending, with
   * the last call's arguments, whatever was pending before.
   */
  lemma {:induction false} BurstCollapses<A>(pending: Option<A>, calls: seq<A>)
    requires |calls| > 0
    ensures Replay(pending, Invokes(calls)) == (Some(calls[|calls| - 1]), [])
    decreases |calls|
  {
    var es := Invokes(calls);
    var rest := Replay(Some(calls[0]), es[1..]);
    assert Step(pending, es[0]) == (Some(calls[0]), None);
    assert Replay(pending, es) == (rest.0, RunsOf<A>(None) + rest.1);
    if |calls| > 1 {
      assert es[1..] == Invokes(calls[1..]);
      BurstCollapses(Some(calls[0]), calls[1..]);
    } else {
      assert es[1..] == [];
      assert rest == (Some(calls[0]), []);
    }
    assert RunsOf<A>(None) + rest.1 == rest.1;
  }

  /** The timer elapsing runs the pending call, if any, and leaves nothing pending. */
  lemma ElapseRunsPending<A>(pending: Option<A>, events: seq<TimerEvent<A>>)
    ensures Replay(pending, events + [Elapse])
            == (None, Replay(pending, events).1 + RunsOf(Replay(pending, events).0))
  {
    var tail: seq<TimerEvent<A>> := [Elapse];
    ReplayAppend(pending, events, tail);
    var p := Replay(pending, events).0;
    assert tail[1..] == [];
    assert Replay(None, tail[1..]) == (None, []);
    assert RunsOf(p) + [] == RunsOf(p);
    assert Replay(p, tail) == (None, RunsOf(p));
  }

  /** A burst of calls followed by the quiet period runs the function exactly once, with the last arguments. */
  lemma BurstThenElapseRunsOnce<A>(pending: Option<A>, calls: seq<A>)
    requires |calls| > 0
    ensures Replay(pending, Invokes(calls) + [Elapse]) == (None, [calls[|calls| - 1]])
  {
    BurstCollapses(pending, calls);
    ElapseRunsPending(pending, Invokes(calls));
    var last := calls[|calls| - 1];
    assert RunsOf(Some(last)) == [last];
    assert [] + [last] == [last];
  }

  /** No event sequence runs the function more often than the timer elapses. */
  lemma {:induction false} RunsBoundedByElapses<A>(pending: Option<A>, events: seq<TimerEvent<A>>)
    ensures |Replay(pending, events).1| <= CountElapses(events)
    decreases |events|
  {
    if events != [] {
      var step := Step(pending, events[0]);
      RunsBoundedByElapses(step.0, events[1..]);
      assert |RunsOf(step.1)| <= if events[0].Elapse? then 1 else 0;
    }
  }

  /** A debounced function: the arguments of the run its live timer will perform, if any. */
  class Debouncer<A> {
    var pending: Option<A>

    constructor ()
      ensures pending == None
    {
      pending := None;
    }

    /** A call: the pending run is cancelled and replaced by one with these arguments. */
    method Call(args: A)
      modifies this
      ensures pending == Some(args)
      ensures (pending, None) == Step(old(pending), Invoke(args))
    {
      pending := Some(args);
    }

    /** The timer elapses: returns the arguments the function runs with, and nothing stays pending. */
    method Fire() returns (ran: Option<A>)
      modifies this
      ensures ran == old(pending) && pending == None
      ensures (pending, ran) == Step(old(pending), Elapse)
    {
      ran := pending;
      pending := None;
    }
  }
}
