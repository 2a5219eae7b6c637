/**
 * The AutoStarter of BsEventNode: a two-field state machine, driven once
 * per tick by the clock and by whether the broker is running, that decides
 * whether to call Start.
 */
module Watchdog {

  /** DateTime ticks in one second; the clock is an integer count of ticks. */
  const TicksPerSecond: int := 10_000_000

  /** TimeSpan.FromSeconds(15): both the debounce and the grace period. */
  const Window: int := 15 * TicksPerSecond

  /** The AutoStarter's fields. */
  datatype Watch = Watch(lastAlive: int, lastInvoked: int)

  /**
   * What one OnUpdate is called with: DateTime.Now, checkIsAlive(), and
   * whether the `start` action throws if it is called.
   */
  datatype Sample = Sample(now: int, alive: bool, startFails: bool)

  /** The fields after one OnUpdate and whether it called `start`. */
  datatype Decision = Decision(next: Watch, start: bool)

  /**
   * One OnUpdate. `lastInvoked` is assigned after `start` returns, so a
   * `start` that throws leaves it as it was.
   */
  function Step(w: Watch, s: Sample): (d: Decision)
    ensures d.start <==> !s.alive && w.lastInvoked + Window <= s.now && w.lastAlive + Window < s.now
    ensures d.next.lastAlive == (if s.alive then s.now else w.lastAlive)
    ensures d.next.lastInvoked == (if d.start && !s.startFails then s.now else w.lastInvoked)
  {
    if s.alive then Decision(w.(lastAlive := s.now), false)
    else if s.now < w.lastInvoked + Window then Decision(w, false)
    else if w.lastAlive + Window < s.now then
      Decision(if s.startFails then w else w.(lastInvoked := s.now), true)
    else Decision(w, false)
  }

  /**
   * A `start` that throws is not debounced: the fields are as before the
   * tick, so every later tick on which the broker is still down calls
   * `start` again, however soon it comes.
   */
  lemma FailedStartRetried(w: Watch, s: Sample, later: Sample)
    requires Step(w, s).start && s.startFails
    requires !later.alive && s.now <= later.now
    ensures Step(w, s).next == w
    ensures Step(Step(w, s).next, later).start
  {
  }

  /**
   * The state after a run of ticks, the times at which `start` was called
   * and returned, and the times at which it was called at all (including
   * calls that threw).
   */
  datatype Trace = Trace(last: Watch, starts: seq<int>, calls: seq<int>)

  function Replay(w: Watch, samples: seq<Sample>): Trace
    decreases |samples|
  {
    if samples == [] then Trace(w, [], [])
    else
      var d := Step(w, samples[0]);
      var rest := Replay(d.next, samples[1..]);
      Trace(rest.last,
            (if d.start && !samples[0].startFails then [samples[0].now] else []) + rest.starts,
            (if d.start then [samples[0].now] else []) + rest.calls)
  }

  /**
   * Debounce: the first start that returns comes at least 15 s after the
   * last recorded invocation (or construction), and successive starts that
   * return are at least 15 s apart, whatever the clock does in between; the
   * last of them is what `lastInvoked` remembers.
   */
  lemma StartsAreSpaced(w: Watch, samples: seq<Sample>)
    ensures var t := Replay(w, samples);
      && (t.starts != [] ==> w.lastInvoked + Window <= t.starts[0])
      && (forall i :: 0 <= i < |t.starts| - 1 ==> t.starts[i] + Window <= t.starts[i + 1])
      && t.last.lastInvoked == (if t.starts == [] then w.lastInvoked else t.starts[|t.starts| - 1])
  {
    FirstStartDebounced(w, samples);
    StartsApart(w, samples);
    LastStartRemembered(w, samples);
  }

  /** The first start that returns is at least 15 s after the last invocation. */
  lemma {:induction false} FirstStartDebounced(w: Watch, samples: seq<Sample>)
    ensures var t := Replay(w, samples);
      t.starts != [] ==> w.lastInvoked + Window <= t.starts[0]
    decreases |samples|
  {
    if samples != [] {
      var d := Step(w, samples[0]);
      FirstStartDebounced(d.next, samples[1..]);
      if !(d.start && !samples[0].startFails) {
        assert d.next.lastInvoked == w.lastInvoked;
        assert Replay(w, samples).starts == Replay(d.next, samples[1..]).starts;
      }
    }
  }

  /** Each time in `xs` is at least 15 s after the one before it. */
  predicate Spaced(xs: seq<int>)
  {
    forall i :: 0 <= i < |xs| - 1 ==> xs[i] + Window <= xs[i + 1]
  }

  /** Successive starts that return are at least 15 s apart. */
  lemma {:induction false} StartsApart(w: Watch, samples: seq<Sample>)
    ensures Spaced(Replay(w, samples).starts)
    decreases |samples|
  {
    if samples != [] {
      var d := Step(w, samples[0]);
      StartsApart(d.next, samples[1..]);
      var rest := Replay(d.next, samples[1..]);
      if d.start && !samples[0].startFails {
        FirstStartDebounced(d.next, samples[1..]);
        assert Replay(w, samples).starts == [samples[0].now] + rest.starts;
        SpacedCons(samples[0].now, rest.starts);
      } else {
        assert Replay(w, samples).starts == rest.starts;
      }
    }
  }

  /** A time at least 15 s before a spaced sequence of times extends it. */
  lemma SpacedCons(x: int, xs: seq<int>)
    requires xs != [] ==> x + Window <= xs[0]
    requires Spaced(xs)
    ensures Spaced([x] + xs)
  {
    forall i | 0 <= i < |xs| ensures ([x] + xs)[i] + Window <= ([x] + xs)[i + 1] {
      if i > 0 {
        assert ([x] + xs)[i] == xs[i - 1] && ([x] + xs)[i + 1] == xs[i];
      }
    }
  }

  /** After a run of ticks `lastInvoked` holds the time of the last start that returned. */
  lemma {:induction false} LastStartRemembered(w: Watch, samples: seq<Sample>)
    ensures var t := Replay(w, samples);
      t.last.lastInvoked == (if t.starts == [] then w.lastInvoked else t.starts[|t.starts| - 1])
    decreases |samples|
  {
    if samples != [] {
      var d := Step(w, samples[0]);
      LastStartRemembered(d.next, samples[1..]);
      var rest := Replay(d.next, samples[1..]);
      var t := Replay(w, samples);
      if d.start && !samples[0].startFails {
        assert t.starts == [samples[0].now] + rest.starts;
      } else {
        assert t.starts == rest.starts;
      }
    }
  }

  /** When no call of `start` throws, the calls and the starts that return are the same times. */
  lemma {:induction false} CallsWithoutFailuresReturn(w: Watch, samples: seq<Sample>)
    requires forall i :: 0 <= i < |samples| ==> !samples[i].startFails
    ensures Replay(w, samples).calls == Replay(w, samples).starts
    decreases |samples|
  {
    if samples != [] {
      assert !samples[0].startFails;
      forall i | 0 <= i < |samples| - 1 ensures !samples[1..][i].startFails {
        assert samples[1..][i] == samples[i + 1];
      }
      CallsWithoutFailuresReturn(Step(w, samples[0]).next, samples[1..]);
    }
  }

  /**
   * Grace period: while the broker stays down, every call of `start`, one
   * that throws included, comes more than 15 s after the last time the
   * broker was seen alive, and that time is kept.
   */
  lemma {:induction false} StartsAfterGrace(w: Watch, samples: seq<Sample>)
    requires forall i :: 0 <= i < |samples| ==> !samples[i].alive
    ensures var t := Replay(w, samples);
      && t.last.lastAlive == w.lastAlive
      && forall i :: 0 <= i < |t.calls| ==> w.lastAlive + Window < t.calls[i]
    decreases |samples|
  {
    if samples != [] {
      var d := Step(w, samples[0]);
      assert !samples[0].alive;
      forall i | 0 <= i < |samples| - 1 ensures !samples[1..][i].alive {
        assert samples[1..][i] == samples[i + 1];
      }
      StartsAfterGrace(d.next, samples[1..]);
    }
  }

  /**
   * While the broker is alive `start` is never called: `lastInvoked` is
   * kept and `lastAlive` follows the clock.
   */
  lemma {:induction false} NoStartWhileAlive(w: Watch, samples: seq<Sample>)
    requires forall i :: 0 <= i < |samples| ==> samples[i].alive
    ensures var t := Replay(w, samples);
      && t.calls == [] && t.starts == []
      && t.last.lastInvoked == w.lastInvoked
      && t.last.lastAlive == (if samples == [] then w.lastAlive else samples[|samples| - 1].now)
    decreases |samples|
  {
    if samples != [] {
      var d := Step(w, samples[0]);
      assert samples[0].alive;
      forall i | 0 <= i < |samples| - 1 ensures samples[1..][i].alive {
        assert samples[1..][i] == samples[i + 1];
      }
      NoStartWhileAlive(d.next, samples[1..]);
      if |samples| > 1 {
        assert samples[1..][|samples| - 2] == samples[|samples| - 1];
      }
    }
  }

  class AutoStarter {
    var lastAlive: int
    var lastInvoked: int

    constructor (now: int)
      ensures lastAlive == now && lastInvoked == now
    {
      lastAlive := now;
      lastInvoked := now;
    }

    function State(): Watch
      reads this
    {
      Watch(lastAlive, lastInvoked)
    }

    /**
     * OnUpdate; the result says whether it calls `start`, and `startFails`
     * whether that call throws, which leaves the method before
     * `lastInvoked` is assigned.
     */
    method OnUpdate(now: int, alive: bool, startFails: bool) returns (start: bool)
      modifies this
      ensures Decision(State(), start) == Step(old(State()), Sample(now, alive, startFails))
    {
      start := false;
      if alive {
        lastAlive := now;
      } else {
        if now < lastInvoked + Window {
          return;
        }
        if lastAlive + Window < now {
          start := true;
          if startFails {
            return;
          }
          lastInvoked := now;
        }
      }
    }
  }
}
