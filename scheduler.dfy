/** The `Scheduler` object of lib/flowbber/scheduler.py: its counters, its
    last armed time and its `sched` queue are fields that each method updates
    in place. Each method is proved to agree with the functions of module
    Schedule. The pipeline itself is not held: each handled event receives
    the outcome of its pipeline run, and the clock reading that follows it,
    as a `Tick`. */
module Schedulers {
  import opened Wrappers
  import opened Schedule

  class Scheduler {
    const frequency: int
    const samples: Option<nat>
    var start: Option<int>
    /** `_runs_passed`, `_runs_failed`, `_runs_missed`. */
    var passed: nat
    var failed: nat
    var missed: nat
    /** `_last_run`: the time of the event armed last. */
    var lastRun: Option<int>
    /** The times of the pending events of `_scheduler`, earliest first. */
    var queue: seq<int>

    function State(): SchedState
      reads this
    {
      SchedState(frequency, samples, start, passed, failed, missed, lastRun, queue)
    }

    /** `Scheduler(pipeline, frequency, samples, start)`: nothing counted,
        nothing armed, nothing pending. */
    constructor(frequency: int, samples: Option<nat>, start: Option<int>)
      ensures State() == Init(frequency, samples, start)
    {
      this.frequency := frequency;
      this.samples := samples;
      this.start := start;
      passed, failed, missed := 0, 0, 0;
      lastRun := None;
      queue := [];
    }

    /** `_sched_next`: stop once the samples are collected, else arm the next
        event one period after the last armed one, or at once (counting a
        missed tick) when that time is not in the future. */
    method SchedNext(now: int)
      requires lastRun.Some?
      modifies this`missed, this`lastRun, this`queue
      ensures State() == Next(old(State()), now)
    {
      if samples.Some? && passed >= samples.value {
        return;
      }
      var nextTime := lastRun.value + frequency;
      var eventTime;
      if nextTime <= now {
        missed := missed + 1;
        eventTime := now;
      } else {
        eventTime := nextTime;
      }
      queue := Enter(queue, eventTime);
      lastRun := Some(eventTime);
    }

    /** `_sched_work`: count the pipeline run as passed or failed, then
        `_sched_next` in any case. */
    method SchedWork(ok: bool, now: int)
      requires lastRun.Some?
      modifies this`passed, this`failed, this`missed, this`lastRun, this`queue
      ensures State() == Work(old(State()), ok, now)
    {
      if ok {
        passed := passed + 1;
      } else {
        failed := failed + 1;
      }
      SchedNext(now);
    }

    /** `run`: reject a start time in the past without changing anything;
        otherwise arm the first event and handle events, earliest first, until
        none is pending (or the ticks run out). The result is the number of
        events handled. */
    method Run(now: int, ticks: seq<Tick>) returns (r: Result<nat, ScheduleError>)
      requires queue == []
      modifies this
      ensures var armed := Start(old(State()), now);
        && (armed.Failure? ==> r == Failure(armed.error) && State() == old(State()))
        && (armed.Success? ==> Inv(armed.value) && r.Success? && LoopEnd(State(), r.value) == Loop(armed.value, ticks))
    {
      if start.Some? {
        if start.value < now {
          return Failure(InvalidStart(start.value));
        }
        queue := Enter(queue, start.value);
        lastRun := Some(start.value);
      } else {
        start := Some(now);
        queue := Enter(queue, now);
        lastRun := Some(now);
      }
      ghost var armed := State();
      assert queue == [lastRun.value];
      var i := 0;
      while queue != [] && i < |ticks|
        invariant 0 <= i <= |ticks|
        invariant Inv(armed) && Inv(State())
        invariant Loop(armed, ticks) == LoopEnd(Loop(State(), ticks[i..]).state, Loop(State(), ticks[i..]).runs + i)
        decreases |ticks| - i
      {
        ghost var before := State();
        assert ticks[i..][0] == ticks[i] && ticks[i..][1..] == ticks[i + 1..];
        queue := queue[1..];
        SchedWork(ticks[i].ok, ticks[i].now);
        assert State() == Fire(before, ticks[i]);
        FireKeepsInv(before, ticks[i]);
        i := i + 1;
      }
      return Success(i);
    }
  }
}
