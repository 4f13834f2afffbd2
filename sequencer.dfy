/** The step sequencer every demo page repeats: `waitForResume` and `smartDelay`, two polling
    loops over a pause flag and an abort flag, driven by 100 ms timers.

    Timers are abstract. Each `await delay(100)` inside the two loops is one poll, and during
    one poll the user does at most one thing: nothing, press Pause/Continue, or press
    Reset/Stop. What the user will do is a finite schedule, consumed one action per poll;
    once it is used up every later poll sees no action. A wait that is paused when the
    schedule runs out would poll forever; the model reports it as stalled. */
module Sequencer {

  /** The timer granularity of both loops, in milliseconds. */
  const POLL_INTERVAL: int := 100

  /** The wait after every scripted step, in milliseconds. */
  const STEP_DELAY: int := 5000

  /** What the user does while one timer runs. */
  datatype Action = Idle | TogglePause | Reset

  /** `pauseRef.current` and `abortRef.current`. */
  datatype Signals = Signals(paused: bool, aborted: bool)

  /** How a run of a scripted sequence ends. `Suspended(k)`: paused after k steps and never
      resumed. */
  datatype Outcome = Completed | Aborted | Suspended(after: nat)

  /** The effect of one user action on the flags: `togglePause` flips the pause flag, and the
      reset handlers raise abort and clear pause. */
  function Apply(s: Signals, a: Action): (r: Signals)
    ensures r.aborted <==> s.aborted || a == Reset
    ensures a == Reset ==> !r.paused
    ensures a == TogglePause ==> r.paused != s.paused
    ensures a == Idle ==> r == s
  {
    match a
    case Idle => s
    case TogglePause => s.(paused := !s.paused)
    case Reset => Signals(false, true)
  }

  /** The action seen by the next poll. */
  function Next(schedule: seq<Action>): Action {
    if schedule == [] then Idle else schedule[0]
  }

  /** The schedule after the next poll. */
  function Rest(schedule: seq<Action>): (r: seq<Action>)
    ensures |r| == if schedule == [] then 0 else |schedule| - 1
  {
    if schedule == [] then [] else schedule[1..]
  }

  /** No Stop has been pressed and none is coming. */
  predicate Calm(s: Signals, schedule: seq<Action>) {
    !s.aborted && Reset !in schedule
  }

  /** Running, and the user will not touch the controls again. */
  predicate Still(s: Signals, schedule: seq<Action>) {
    s == Signals(false, false) && Quiet(schedule)
  }

  /** A schedule in which the user never touches the controls. */
  predicate Quiet(schedule: seq<Action>) {
    forall i :: 0 <= i < |schedule| ==> schedule[i] == Idle
  }

  function Idles(k: nat): (r: seq<Action>)
    ensures |r| == k && Quiet(r)
  {
    if k == 0 then [] else [Idle] + Idles(k - 1)
  }

  /** The polls needed to wait `ms` milliseconds: `elapsed` grows by 100 until it reaches `ms`. */
  function PollsFor(ms: int): nat {
    if ms <= 0 then 0 else (ms + POLL_INTERVAL - 1) / POLL_INTERVAL
  }

  /** What a `waitForResume` ends with: the flags, the polls it spent while paused, the
      schedule left and whether it is stuck for good. */
  datatype Resumed = Resumed(signals: Signals, frozen: nat, rest: seq<Action>, stalled: bool)

  /** `waitForResume`: poll while paused and not aborted. */
  function Resume(s: Signals, schedule: seq<Action>): (r: Resumed)
    ensures r.frozen + |r.rest| == |schedule|
    ensures r.stalled ==> r.rest == [] && r.signals.paused && !r.signals.aborted
    ensures !r.stalled ==> !r.signals.paused || r.signals.aborted
    ensures !s.paused || s.aborted ==> r == Resumed(s, 0, schedule, false)
    decreases |schedule|
  {
    if !s.paused || s.aborted then Resumed(s, 0, schedule, false)
    else if schedule == [] then Resumed(s, 0, [], true)
    else
      var r := Resume(Apply(s, schedule[0]), schedule[1..]);
      r.(frozen := r.frozen + 1)
  }

  /** What a `waitForResume` leaves of the schedule is what follows the actions it consumed. */
  lemma {:induction false} ResumeSuffix(s: Signals, schedule: seq<Action>)
    ensures var r := Resume(s, schedule); r.rest == schedule[r.frozen..]
    decreases |schedule|
  {
    if s.paused && !s.aborted && schedule != [] {
      ResumeSuffix(Apply(s, schedule[0]), schedule[1..]);
    }
  }

  /** A `waitForResume` ends aborted exactly when it was aborted already or consumed a Reset. */
  lemma {:induction false} ResumeAborts(s: Signals, schedule: seq<Action>)
    ensures var r := Resume(s, schedule);
      r.signals.aborted <==> s.aborted || Reset in schedule[..r.frozen]
    decreases |schedule|
  {
    if s.paused && !s.aborted && schedule != [] {
      var r := Resume(Apply(s, schedule[0]), schedule[1..]);
      ResumeAborts(Apply(s, schedule[0]), schedule[1..]);
      assert schedule[..r.frozen + 1] == [schedule[0]] + schedule[1..][..r.frozen];
    }
  }

  /** The pause wait at the top of a pass of `smartDelay`: `waitForResume` if paused. */
  function Unpause(s: Signals, schedule: seq<Action>): (r: Resumed)
    ensures r.frozen + |r.rest| == |schedule|
    ensures r.stalled ==> r.rest == [] && r.signals.paused && !r.signals.aborted
    ensures !r.stalled ==> !r.signals.paused || r.signals.aborted
  {
    if s.paused then Resume(s, schedule) else Resumed(s, 0, schedule, false)
  }

  /** What a `smartDelay` ends with: the flags, the elapsed counter, the polls that advanced
      it, the polls spent paused, the schedule left and whether it is stuck for good. */
  datatype Delayed = Delayed(signals: Signals, elapsed: int, progress: nat, frozen: nat,
                             rest: seq<Action>, stalled: bool)

  /** `smartDelay(ms)`, continued from a given `elapsed`. Every pass through the loop first
      waits out a pause, then polls once and adds 100 to `elapsed`. */
  function Delay(s: Signals, elapsed: int, ms: int, schedule: seq<Action>): Delayed
    decreases |schedule|, ms - elapsed
  {
    if elapsed >= ms || s.aborted then Delayed(s, elapsed, 0, 0, schedule, false)
    else
      var w := Unpause(s, schedule);
      if w.stalled then Delayed(w.signals, elapsed, 0, w.frozen, w.rest, true)
      else
        var r := Delay(Apply(w.signals, Next(w.rest)), elapsed + POLL_INTERVAL, ms, Rest(w.rest));
        r.(progress := r.progress + 1, frozen := r.frozen + w.frozen)
  }

  /** How every `smartDelay` ends: `elapsed` went up 100 for each advancing poll, the schedule
      only shrank, a stuck wait is paused with nothing left to happen, and a wait that is not
      stuck has run out its time or was aborted. */
  lemma {:induction false} DelayEnds(s: Signals, elapsed: int, ms: int, schedule: seq<Action>)
    ensures var r := Delay(s, elapsed, ms, schedule);
      r.elapsed == elapsed + POLL_INTERVAL * r.progress && |r.rest| <= |schedule| &&
      (r.stalled ==> r.rest == [] && r.signals.paused && !r.signals.aborted) &&
      (!r.stalled ==> r.elapsed >= ms || r.signals.aborted)
    decreases |schedule|, ms - elapsed
  {
    if elapsed < ms && !s.aborted {
      var w := Unpause(s, schedule);
      if !w.stalled {
        DelayEnds(Apply(w.signals, Next(w.rest)), elapsed + POLL_INTERVAL, ms, Rest(w.rest));
      }
    }
  }

  /** One pass of `smartDelay`'s loop, spelled out. */
  lemma DelayPass(s: Signals, elapsed: int, ms: int, schedule: seq<Action>)
    requires elapsed < ms && !s.aborted
    ensures var w := Unpause(s, schedule);
      var r := Delay(s, elapsed, ms, schedule);
      if w.stalled then r == Delayed(w.signals, elapsed, 0, w.frozen, w.rest, true)
      else
        var r2 := Delay(Apply(w.signals, Next(w.rest)), elapsed + POLL_INTERVAL, ms, Rest(w.rest));
        r == r2.(progress := r2.progress + 1, frozen := r2.frozen + w.frozen)
  {
  }

  lemma PollsForPass(ms: int)
    requires ms > 0
    ensures PollsFor(ms) == 1 + PollsFor(ms - POLL_INTERVAL)
  {
  }

  /** Without an abort, a wait that is not stuck polls exactly as often as `ms` takes at 100 ms
      a poll, however long it was paused in between. */
  lemma {:induction false} CompletedWaitTicks(s: Signals, elapsed: int, ms: int, schedule: seq<Action>)
    ensures var r := Delay(s, elapsed, ms, schedule);
      !r.signals.aborted && !r.stalled ==> r.progress == PollsFor(ms - elapsed)
    decreases |schedule|, ms - elapsed
  {
    if elapsed < ms && !s.aborted {
      var w := Unpause(s, schedule);
      DelayPass(s, elapsed, ms, schedule);
      PollsForPass(ms - elapsed);
      if !w.stalled {
        CompletedWaitTicks(Apply(w.signals, Next(w.rest)), elapsed + POLL_INTERVAL, ms, Rest(w.rest));
      }
    }
  }

  /** A step wait of 5000 ms is 50 polls. */
  lemma StepDelayTicks(s: Signals, schedule: seq<Action>)
    ensures var r := Delay(s, 0, STEP_DELAY, schedule);
      !r.signals.aborted && !r.stalled ==> r.progress == 50 && r.elapsed == STEP_DELAY
  {
    CompletedWaitTicks(s, 0, STEP_DELAY, schedule);
    DelayEnds(s, 0, STEP_DELAY, schedule);
  }

  /** If the user leaves the controls alone, an unpaused wait runs to its end: the flags stay
      as they were, no poll is spent paused, and the schedule left is still quiet. */
  lemma {:induction false} QuietWait(s: Signals, elapsed: int, ms: int, schedule: seq<Action>)
    requires !s.paused && !s.aborted && Quiet(schedule)
    ensures var r := Delay(s, elapsed, ms, schedule);
      r.signals == s && !r.stalled && r.frozen == 0 && Quiet(r.rest) &&
      r.progress == PollsFor(ms - elapsed)
    decreases |schedule|, ms - elapsed
  {
    if elapsed < ms {
      assert Next(schedule) == Idle;
      QuietWait(s, elapsed + POLL_INTERVAL, ms, Rest(schedule));
    }
  }

  /** Only a Reset raises the abort flag: a wait whose schedule holds none never aborts. */
  lemma {:induction false} NoResetNoAbort(s: Signals, elapsed: int, ms: int, schedule: seq<Action>)
    requires !s.aborted && Reset !in schedule
    ensures var r := Delay(s, elapsed, ms, schedule);
      !r.signals.aborted && Reset !in r.rest
    decreases |schedule|, ms - elapsed
  {
    if elapsed < ms {
      var w := Unpause(s, schedule);
      if s.paused {
        ResumeSuffix(s, schedule);
        ResumeAborts(s, schedule);
      }
      assert w.rest == schedule[w.frozen..];
      if !w.stalled {
        assert Reset !in schedule[..w.frozen];
        assert Reset !in Rest(w.rest) && Next(w.rest) != Reset;
        NoResetNoAbort(Apply(w.signals, Next(w.rest)), elapsed + POLL_INTERVAL, ms, Rest(w.rest));
      }
    }
  }

  /** Polls without a user action change nothing in a paused `waitForResume` but its count. */
  lemma {:induction false} ResumeIdles(s: Signals, k: nat, rest: seq<Action>)
    requires s.paused && !s.aborted
    ensures var r := Resume(s, rest);
      Resume(s, Idles(k) + rest) == r.(frozen := r.frozen + k)
  {
    if k > 0 {
      var schedule := Idles(k) + rest;
      assert schedule[0] == Idle && Apply(s, Idle) == s;
      assert schedule[1..] == Idles(k - 1) + rest;
      ResumeIdles(s, k - 1, rest);
      var r := Resume(s, rest);
      var r1 := Resume(s, schedule[1..]);
      assert r1 == r.(frozen := r.frozen + k - 1);
      assert Resume(s, schedule) == r1.(frozen := r1.frozen + 1);
    } else {
      assert Idles(0) + rest == rest;
    }
  }

  /** Pause freezes progress: k polls spent paused leave `elapsed`, the flags and every later
      poll exactly as they were; only the count of paused polls grows. */
  lemma PauseFreezes(s: Signals, elapsed: int, ms: int, k: nat, rest: seq<Action>)
    requires s.paused && !s.aborted && elapsed < ms
    ensures var r := Delay(s, elapsed, ms, rest);
      Delay(s, elapsed, ms, Idles(k) + rest) == r.(frozen := r.frozen + k)
  {
    ResumeIdles(s, k, rest);
  }

  /** Resuming continues the wait from the `elapsed` it reached, not from zero: a Continue
      while paused gives the wait an unpaused one from the same point would have. */
  lemma ResumeKeepsElapsed(s: Signals, elapsed: int, ms: int, rest: seq<Action>)
    requires s.paused && !s.aborted && elapsed < ms
    ensures var r := Delay(s.(paused := false), elapsed, ms, rest);
      Delay(s, elapsed, ms, [TogglePause] + rest) == r.(frozen := r.frozen + 1)
  {
    assert ([TogglePause] + rest)[1..] == rest;
  }

  /** A paused `waitForResume` consumes nothing past a Reset. */
  lemma {:induction false} ResumeStopsAtReset(s: Signals, pre: seq<Action>, post: seq<Action>)
    ensures Resume(s, pre + [Reset] + post).frozen <= |pre| + 1
    decreases |pre|
  {
    var schedule := pre + [Reset] + post;
    if s.paused && !s.aborted {
      if pre == [] {
        assert schedule[1..] == post;
      } else {
        assert schedule[1..] == pre[1..] + [Reset] + post;
        ResumeStopsAtReset(Apply(s, pre[0]), pre[1..], post);
      }
    }
  }

  /** Abort ends a wait at the next poll: no wait consumes more than one action past a Reset,
      and one that consumed the Reset returns with the abort flag up. */
  lemma {:induction false} ResetEndsWait(s: Signals, elapsed: int, ms: int, pre: seq<Action>, post: seq<Action>)
    ensures var r := Delay(s, elapsed, ms, pre + [Reset] + post);
      |r.rest| + 1 >= |post| && (|r.rest| <= |post| ==> r.signals.aborted)
    decreases |pre|, ms - elapsed, 2
  {
    var schedule := pre + [Reset] + post;
    if elapsed < ms && !s.aborted {
      if s.paused {
        ResetDuringPause(s, elapsed, ms, pre, post);
      } else {
        DelayPass(s, elapsed, ms, schedule);
        ResetAfterResume(s, elapsed, ms, pre, post);
      }
    }
  }

  /** The step of `ResetEndsWait` when the pass starts paused. */
  lemma {:induction false} ResetDuringPause(s: Signals, elapsed: int, ms: int, pre: seq<Action>, post: seq<Action>)
    requires elapsed < ms && !s.aborted && s.paused
    ensures var r := Delay(s, elapsed, ms, pre + [Reset] + post);
      |r.rest| + 1 >= |post| && (|r.rest| <= |post| ==> r.signals.aborted)
    decreases |pre|, ms - elapsed, 1
  {
    var schedule := pre + [Reset] + post;
    DelayPass(s, elapsed, ms, schedule);
    var w := Resume(s, schedule);
    ResumeStopsAtReset(s, pre, post);
    ResumeSuffix(s, schedule);
    ResumeAborts(s, schedule);
    if w.frozen == |pre| + 1 {
      assert schedule[..w.frozen][|pre|] == Reset;
      assert w.rest == post;
    } else {
      assert w.rest == pre[w.frozen..] + [Reset] + post;
      ResetAfterResume(w.signals, elapsed, ms, pre[w.frozen..], post);
    }
  }

  /** The step of `ResetEndsWait` after the pause wait of one pass, before the Reset. */
  lemma {:induction false} ResetAfterResume(s: Signals, elapsed: int, ms: int, pre: seq<Action>, post: seq<Action>)
    ensures var schedule := pre + [Reset] + post;
      var r := Delay(Apply(s, Next(schedule)), elapsed + POLL_INTERVAL, ms, Rest(schedule));
      |r.rest| + 1 >= |post| && (|r.rest| <= |post| ==> r.signals.aborted)
    decreases |pre|, ms - elapsed, 0
  {
    var schedule := pre + [Reset] + post;
    if pre == [] {
      assert Next(schedule) == Reset && Rest(schedule) == post;
    } else {
      assert Next(schedule) == pre[0] && Rest(schedule) == pre[1..] + [Reset] + post;
      ResetEndsWait(Apply(s, pre[0]), elapsed + POLL_INTERVAL, ms, pre[1..], post);
    }
  }

  /** The two flags, the user's remaining actions and a clock counting 100 ms timers. */
  class Controls {
    var signals: Signals
    var pending: seq<Action>
    var clock: nat

    /** Fresh refs (`useRef(false)` twice) and the user's actions to come. */
    constructor (schedule: seq<Action>)
      ensures signals == Signals(false, false) && pending == schedule && clock == 0
    {
      signals := Signals(false, false);
      pending := schedule;
      clock := 0;
    }

    /** `await delay(100)` inside a wait: the user may act once while the timer runs. */
    method Poll()
      modifies this
      ensures signals == Apply(old(signals), Next(old(pending)))
      ensures pending == Rest(old(pending)) && clock == old(clock) + 1
    {
      signals := Apply(signals, Next(pending));
      pending := Rest(pending);
      clock := clock + 1;
    }

    /** `togglePause`: flips the pause flag. */
    method Toggle()
      modifies this
      ensures signals == old(signals).(paused := !old(signals).paused)
      ensures pending == old(pending) && clock == old(clock)
    {
      signals := signals.(paused := !signals.paused);
    }

    /** The flag part of every reset handler: abort up, pause down. */
    method Abort()
      modifies this
      ensures signals == Signals(false, true)
      ensures pending == old(pending) && clock == old(clock)
    {
      signals := Signals(false, true);
    }

    /** The start of every run after its reset: `await delay(100)`, then
        `abortRef.current = false`. The page's inputs are still enabled during this timer, but
        no press on them is part of the schedule. */
    method Arm()
      modifies this
      ensures signals == old(signals).(aborted := false)
      ensures pending == old(pending) && clock == old(clock) + 1
    {
      clock := clock + 1;
      signals := signals.(aborted := false);
    }

    /** `waitForResume`. */
    method WaitForResume() returns (stalled: bool)
      modifies this
      ensures var r := Resume(old(signals), old(pending));
        signals == r.signals && pending == r.rest && stalled == r.stalled &&
        clock == old(clock) + r.frozen
    {
      while signals.paused && !signals.aborted && pending != []
        invariant var r0 := Resume(old(signals), old(pending));
          var r := Resume(signals, pending);
          r.signals == r0.signals && r.rest == r0.rest && r.stalled == r0.stalled &&
          clock - old(clock) + r.frozen == r0.frozen
        decreases |pending|
      {
        Poll();
      }
      stalled := signals.paused && !signals.aborted;
    }

    /** `await smartDelay(STEP_DELAY)`, the wait after every scripted step, summed up: it ends
        stuck only while paused and not aborted, it aborts only on a Reset, and a user who
        leaves the controls alone waits exactly 50 polls. */
    method StepWait() returns (stalled: bool)
      modifies this
      ensures stalled ==> signals.paused && !signals.aborted && pending == []
      ensures Calm(old(signals), old(pending)) ==> Calm(signals, pending)
      ensures Still(old(signals), old(pending)) ==> Still(signals, pending) && !stalled && clock == old(clock) + 50
    {
      ghost var s0, p0 := signals, pending;
      var elapsed;
      elapsed, stalled := SmartDelay(STEP_DELAY);
      DelayEnds(s0, 0, STEP_DELAY, p0);
      if !s0.aborted && Reset !in p0 {
        NoResetNoAbort(s0, 0, STEP_DELAY, p0);
      }
      if s0 == Signals(false, false) && Quiet(p0) {
        QuietWait(s0, 0, STEP_DELAY, p0);
      }
    }

    /** `smartDelay(ms)`. */
    method SmartDelay(ms: int) returns (elapsed: int, stalled: bool)
      modifies this
      ensures var r := Delay(old(signals), 0, ms, old(pending));
        signals == r.signals && pending == r.rest && elapsed == r.elapsed &&
        stalled == r.stalled && clock == old(clock) + r.progress + r.frozen
    {
      elapsed, stalled := 0, false;
      ghost var r0 := Delay(signals, 0, ms, pending);
      while elapsed < ms && !signals.aborted
        invariant var r := Delay(signals, elapsed, ms, pending);
          r.signals == r0.signals && r.rest == r0.rest && r.elapsed == r0.elapsed &&
          r.stalled == r0.stalled && clock - old(clock) + r.progress + r.frozen == r0.progress + r0.frozen
        invariant !stalled
        decreases |pending|, ms - elapsed
      {
        ghost var w, clock0 := Unpause(signals, pending), clock;
        DelayPass(signals, elapsed, ms, pending);
        if signals.paused {
          stalled := WaitForResume();
          if stalled {
            return;
          }
        }
        assert signals == w.signals && pending == w.rest && clock == clock0 + w.frozen;
        Poll();
        elapsed := elapsed + POLL_INTERVAL;
      }
    }
  }
}
