/**
  The rate limiters of utils/index.js, with time as an input. `throttle` runs
  the wrapped function unless less than `limit` ms have passed since the last
  call it let through; `debounce` restarts one timer on every call and runs the
  function with the latest arguments when that timer goes off.
*/
module Timing {
  import opened Wrappers
  import opened Sequences

  /** The time of the last call the throttle let through; 0 before the first one. */
  function LastRun(ran: seq<int>): int
  {
    if ran == [] then 0 else ran[|ran| - 1]
  }

  /** The clock readings, among `times`, at which the throttled function ran. */
  function Throttled(limit: int, times: seq<int>): (ran: seq<int>)
    ensures IsSubsequence(ran, times)
    ensures |ran| <= |times|
  {
    if times == [] then []
    else
      var earlier := times[..|times| - 1];
      var prev := Throttled(limit, earlier);
      var now := times[|times| - 1];
      assert times == earlier + [now];
      SubsequenceAppend(prev, earlier, now);
      if now - LastRun(prev) < limit then prev else prev + [now]
  }

  /**
    Between two consecutive runs at least `limit` ms pass, and the first run is
    at least `limit` ms after time 0; with a non-negative limit, any two runs
    are at least `limit` apart.
  */
  lemma {:induction false} ThrottleSpacing(limit: int, times: seq<int>)
    ensures var ran := Throttled(limit, times);
      (ran != [] ==> ran[0] >= limit)
      && (forall k :: 0 <= k < |ran| - 1 ==> ran[k + 1] - ran[k] >= limit)
      && (limit >= 0 ==> forall i, j :: 0 <= i < j < |ran| ==> ran[j] - ran[i] >= limit)
  {
    if times != [] {
      var earlier := times[..|times| - 1];
      ThrottleSpacing(limit, earlier);
      var prev := Throttled(limit, earlier);
      var now := times[|times| - 1];
      var ran := Throttled(limit, times);
      if ran != prev {
        assert ran == prev + [now] && now - LastRun(prev) >= limit;
        if limit >= 0 {
          forall i, j | 0 <= i < j < |ran| ensures ran[j] - ran[i] >= limit {
            if j == |ran| - 1 && i < j - 1 {
              assert ran[j] - ran[j - 1] >= limit && ran[j - 1] - ran[i] >= limit;
            }
          }
        }
      }
    }
  }

  /** A call at `now` is let through iff at least `limit` ms have passed since the last run (time 0 before any). */
  lemma ThrottleAdmits(limit: int, times: seq<int>, now: int)
    ensures Throttled(limit, times + [now]) ==
      if now - LastRun(Throttled(limit, times)) < limit then Throttled(limit, times)
      else Throttled(limit, times) + [now]
  {
    assert (times + [now])[..|times|] == times;
  }

  /** The first call runs iff its clock reading is at least `limit`. */
  lemma FirstCall(limit: int, now: int)
    ensures Throttled(limit, [now]) == (if now >= limit then [now] else [])
  {
    assert [now][..0] == [];
  }

  /** The closure of `throttle(func, limit)`: the captured `lastCall` and the runs of `func`. */
  class Throttler {
    const limit: int
    var lastCall: int
    /** How many times the wrapped function has run. */
    var runs: nat
    /** Every clock reading the throttled function was called at. */
    ghost var calls: seq<int>

    ghost predicate Valid()
      reads this
    {
      lastCall == LastRun(Throttled(limit, calls)) && runs == |Throttled(limit, calls)|
    }

    constructor(limit: int)
      ensures this.limit == limit && lastCall == 0 && runs == 0 && calls == [] && Valid()
    {
      this.limit := limit;
      lastCall := 0;
      runs := 0;
      calls := [];
    }

    /** One call at clock reading `now`: dropped, changing nothing, or run once, recording `now`. */
    method Call(now: int) returns (ran: bool)
      requires Valid()
      modifies this`lastCall, this`runs, this`calls
      ensures Valid() && calls == old(calls) + [now]
      ensures ran <==> now - old(lastCall) >= limit
      ensures ran ==> lastCall == now && runs == old(runs) + 1
      ensures !ran ==> lastCall == old(lastCall) && runs == old(runs)
    {
      ThrottleAdmits(limit, calls, now);
      calls := calls + [now];
      if now - lastCall < limit {
        return false;
      }
      lastCall := now;
      runs := runs + 1;
      ran := true;
    }
  }

  /** A scheduled invocation: the arguments it will run with and when its timer goes off. */
  datatype Scheduled<A> = Scheduled(args: A, fireAt: int)

  /** What happens to a debounced function: a call at a clock reading, or the clock reaching a time. */
  datatype DebounceEvent<A> = CallAt(args: A, now: int) | TickAt(time: int)

  /** The state of a debounced function: the pending invocation, and the arguments of every run so far. */
  datatype DebounceState<A> = DebounceState(pending: Option<Scheduled<A>>, fired: seq<A>)

  /** A timer with a negative delay goes off as if the delay were 0. */
  function FireAt(now: int, delay: int): (t: int)
    ensures t >= now
    ensures delay >= 0 ==> t == now + delay
    ensures delay < 0 ==> t == now
  {
    now + (if delay > 0 then delay else 0)
  }

  /** One event: a call replaces any pending invocation; a tick at or after the due time runs it. */
  function DebounceStep<A>(delay: int, s: DebounceState<A>, e: DebounceEvent<A>): (r: DebounceState<A>)
    ensures e.CallAt? ==> r == DebounceState(Some(Scheduled(e.args, FireAt(e.now, delay))), s.fired)
    ensures e.TickAt? && s.pending.Some? && s.pending.value.fireAt <= e.time ==>
      r == DebounceState(None, s.fired + [s.pending.value.args])
    ensures e.TickAt? && !(s.pending.Some? && s.pending.value.fireAt <= e.time) ==> r == s
  {
    match e
    case CallAt(args, now) => DebounceState(Some(Scheduled(args, FireAt(now, delay))), s.fired)
    case TickAt(time) =>
      if s.pending.Some? && s.pending.value.fireAt <= time
      then DebounceState(None, s.fired + [s.pending.value.args])
      else s
  }

  /** The state after a whole history of events, starting with nothing pending and nothing run. */
  function DebounceRun<A>(delay: int, events: seq<DebounceEvent<A>>): DebounceState<A>
  {
    if events == [] then DebounceState(None, [])
    else DebounceStep(delay, DebounceRun(delay, events[..|events| - 1]), events[|events| - 1])
  }

  function CallCount<A>(events: seq<DebounceEvent<A>>): nat
  {
    if events == [] then 0
    else CallCount(events[..|events| - 1]) + (if events[|events| - 1].CallAt? then 1 else 0)
  }

  /**
    Each call cancels the pending one: runs plus pending invocations never
    exceed the calls made. A pending invocation carries the arguments of the
    most recent call and is due `delay` after it.
  */
  lemma {:induction false} DebounceLatestWins<A>(delay: int, events: seq<DebounceEvent<A>>)
    ensures var s := DebounceRun(delay, events);
      |s.fired| + (if s.pending.Some? then 1 else 0) <= CallCount(events)
    ensures var s := DebounceRun(delay, events);
      s.pending.Some? ==>
        (exists k :: 0 <= k < |events| && events[k].CallAt?
           && s.pending.value == Scheduled(events[k].args, FireAt(events[k].now, delay))
           && forall j :: k < j < |events| ==> events[j].TickAt?)
  {
    if events != [] {
      var front := events[..|events| - 1];
      DebounceLatestWins(delay, front);
      var s := DebounceRun(delay, events);
      if s.pending.Some? {
        var e := events[|events| - 1];
        if e.CallAt? {
          assert events[|events| - 1].CallAt?;
        } else {
          var k :| 0 <= k < |front| && front[k].CallAt?
            && DebounceRun(delay, front).pending.value == Scheduled(front[k].args, FireAt(front[k].now, delay))
            && forall j :: k < j < |front| ==> front[j].TickAt?;
          assert events[k] == front[k];
          assert forall j :: k < j < |events| - 1 ==> events[j] == front[j];
        }
      }
    }
  }

  /** The closure of `debounce(func, delay)`: the captured timeout, and the runs of `func`. */
  class Debouncer<A> {
    const delay: int
    var pending: Option<Scheduled<A>>
    var fired: seq<A>
    ghost var events: seq<DebounceEvent<A>>

    function State(): DebounceState<A>
      reads this
    {
      DebounceState(pending, fired)
    }

    ghost predicate Valid()
      reads this
    {
      State() == DebounceRun(delay, events)
    }

    constructor(delay: int)
      ensures this.delay == delay && pending == None && fired == [] && events == [] && Valid()
    {
      this.delay := delay;
      pending := None;
      fired := [];
      events := [];
    }

    /** A call: the pending timeout is cleared and a new one is set with these arguments. */
    method Call(args: A, now: int)
      requires Valid()
      modifies this`pending, this`events
      ensures Valid() && events == old(events) + [CallAt(args, now)]
      ensures pending == Some(Scheduled(args, FireAt(now, delay))) && fired == old(fired)
    {
      pending := Some(Scheduled(args, FireAt(now, delay)));
      events := events + [CallAt(args, now)];
      assert events[..|events| - 1] == old(events);
    }

    /** The clock reaching `time`: a pending invocation that is due runs once with its arguments. */
    method Tick(time: int) returns (ran: Option<A>)
      requires Valid()
      modifies this`pending, this`fired, this`events
      ensures Valid() && events == old(events) + [TickAt(time)]
      ensures State() == DebounceStep(delay, old(State()), TickAt(time))
      ensures ran.Some? <==> old(pending).Some? && old(pending).value.fireAt <= time
      ensures ran.Some? ==> ran.value == old(pending).value.args && fired == old(fired) + [ran.value]
    {
      events := events + [TickAt(time)];
      assert events[..|events| - 1] == old(events);
      if pending.Some? && pending.value.fireAt <= time {
        ran := Some(pending.value.args);
        fired := fired + [pending.value.args];
        pending := None;
      } else {
        ran := None;
      }
    }
  }
}
