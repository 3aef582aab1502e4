/** The recurring scheduler of lib/flowbber/scheduler.py as a state machine
    over its counters, its last armed time and its queue of pending events.
    The clock is a `now` argument of each step; times are integers. Every
    event in the queue is a call of `_sched_work`, so only its time is kept. */
module Schedule {
  import opened Wrappers

  datatype SchedState = SchedState(
    frequency: int,
    samples: Option<nat>,
    start: Option<int>,
    passed: nat,
    failed: nat,
    missed: nat,
    lastRun: Option<int>,
    queue: seq<int>)

  /** `ValueError('Invalid start time ...')`. */
  datatype ScheduleError = InvalidStart(start: int)

  /** What happens while an event is being handled: whether the pipeline run
      succeeded, and the clock `_sched_next` reads afterwards. */
  datatype Tick = Tick(ok: bool, now: int)

  ghost predicate Sorted(q: seq<int>) {
    forall i, j :: 0 <= i < j < |q| ==> q[i] <= q[j]
  }

  /** `enterabs(t, 1, ...)`: the queue stays ordered by time, and an event
      goes after those already queued for the same time (all have priority 1). */
  function Enter(q: seq<int>, t: int): (r: seq<int>)
    ensures |r| == |q| + 1
    decreases |q|
  {
    if q == [] then [t]
    else if t < q[0] then [t] + q
    else [q[0]] + Enter(q[1..], t)
  }

  /** Entering adds exactly the one event and loses none. */
  lemma {:induction false} EnterContents(q: seq<int>, t: int)
    ensures multiset(Enter(q, t)) == multiset(q) + multiset{t}
    decreases |q|
  {
    if q != [] && t >= q[0] {
      EnterContents(q[1..], t);
      assert q == [q[0]] + q[1..];
    }
  }

  /** Entering an event keeps a time-ordered queue ordered. */
  lemma {:induction false} EnterKeepsOrder(q: seq<int>, t: int)
    requires Sorted(q)
    ensures Sorted(Enter(q, t))
    decreases |q|
  {
    if q != [] && t >= q[0] {
      var tail := q[1..];
      assert Sorted(tail) by {
        forall a, b | 0 <= a < b < |tail| ensures tail[a] <= tail[b] {
          assert tail[a] == q[a + 1] && tail[b] == q[b + 1];
        }
      }
      var rest := Enter(tail, t);
      EnterKeepsOrder(tail, t);
      EnterContents(tail, t);
      assert forall k :: 0 <= k < |rest| ==> q[0] <= rest[k] by {
        forall k | 0 <= k < |rest| ensures q[0] <= rest[k] {
          assert rest[k] in multiset(rest);
          if rest[k] != t {
            assert rest[k] in multiset(tail);
            var m :| 0 <= m < |tail| && tail[m] == rest[k];
            assert tail[m] == q[m + 1];
          }
        }
      }
      var r := [q[0]] + rest;
      assert r == Enter(q, t);
      forall a, b | 0 <= a < b < |r| ensures r[a] <= r[b] {
        assert r[b] == rest[b - 1];
        if a > 0 {
          assert r[a] == rest[a - 1];
        }
      }
    }
  }

  /** An event goes behind every event queued for a time not later than its
      own: those keep their places (all events share priority 1). */
  lemma {:induction false} EnterIsStable(q: seq<int>, t: int)
    requires Sorted(q)
    ensures forall j :: 0 <= j < |q| && q[j] <= t ==> Enter(q, t)[j] == q[j]
    decreases |q|
  {
    if q != [] && t >= q[0] {
      var tail := q[1..];
      assert Sorted(tail) by {
        forall a, b | 0 <= a < b < |tail| ensures tail[a] <= tail[b] {
          assert tail[a] == q[a + 1] && tail[b] == q[b + 1];
        }
      }
      EnterIsStable(tail, t);
      forall j | 0 <= j < |q| && q[j] <= t ensures Enter(q, t)[j] == q[j] {
        if j > 0 {
          assert tail[j - 1] == q[j];
        }
      }
    }
  }

  /** `Scheduler(pipeline, frequency, samples, start)`. */
  function Init(frequency: int, samples: Option<nat>, start: Option<int>): SchedState {
    SchedState(frequency, samples, start, 0, 0, 0, None, [])
  }

  /** `run` until its event loop: validates the start time and arms the first event. */
  function Start(s: SchedState, now: int): Result<SchedState, ScheduleError> {
    match s.start
    case Some(t) =>
      if t < now then Failure(InvalidStart(t))
      else Success(s.(lastRun := Some(t), queue := Enter(s.queue, t)))
    case None =>
      Success(s.(start := Some(now), lastRun := Some(now), queue := Enter(s.queue, now)))
  }

  predicate SamplesMet(s: SchedState) {
    s.samples.Some? && s.passed >= s.samples.value
  }

  /** `_sched_next`. */
  function Next(s: SchedState, now: int): SchedState
    requires s.lastRun.Some?
  {
    if SamplesMet(s) then s
    else
      var nextTime := s.lastRun.value + s.frequency;
      if nextTime <= now then
        s.(missed := s.missed + 1, queue := Enter(s.queue, now), lastRun := Some(now))
      else
        s.(queue := Enter(s.queue, nextTime), lastRun := Some(nextTime))
  }

  /** `_sched_work`: count the run as passed or failed, then `_sched_next` whatever the outcome. */
  function Work(s: SchedState, ok: bool, now: int): SchedState
    requires s.lastRun.Some?
  {
    Next(if ok then s.(passed := s.passed + 1) else s.(failed := s.failed + 1), now)
  }

  /** At most one event is pending, and it is the one last armed. */
  ghost predicate Inv(s: SchedState) {
    && |s.queue| <= 1
    && (s.queue != [] ==> s.lastRun == Some(s.queue[0]))
  }

  /** The event loop handling the earliest pending event. */
  function Fire(s: SchedState, tick: Tick): SchedState
    requires Inv(s) && s.queue != []
  {
    Work(s.(queue := s.queue[1..]), tick.ok, tick.now)
  }

  /** Where the event loop stopped, and how many events it handled. */
  datatype LoopEnd = LoopEnd(state: SchedState, runs: nat)

  /** The event loop fed with `ticks`: it handles events until none is pending
      or the ticks run out, and says how many it handled. */
  function Loop(s: SchedState, ticks: seq<Tick>): LoopEnd
    requires Inv(s)
    decreases |ticks|
  {
    if s.queue == [] || ticks == [] then LoopEnd(s, 0)
    else
      FireKeepsInv(s, ticks[0]);
      var rest := Loop(Fire(s, ticks[0]), ticks[1..]);
      LoopEnd(rest.state, rest.runs + 1)
  }

  /** Handling an event leaves at most one pending: the one `_sched_next` armed. */
  lemma FireKeepsInv(s: SchedState, tick: Tick)
    requires Inv(s) && s.queue != []
    ensures Inv(Fire(s, tick))
  {
  }

  // ---------------------------------------------------------------------
  // Start

  /** A start time before `now` is rejected before anything is armed; a start
      time equal to `now` is accepted. Otherwise exactly one event is pending,
      at the start time, or at `now` when none was given, and never in the past. */
  lemma StartArmsOnce(frequency: int, samples: Option<nat>, start: Option<int>, now: int)
    ensures var r := Start(Init(frequency, samples, start), now);
      && (r.Failure? <==> start.Some? && start.value < now)
      && (r.Failure? ==> r.error == InvalidStart(start.value))
      && (r.Success? ==>
            && Inv(r.value)
            && |r.value.queue| == 1
            && r.value.queue[0] == (if start.Some? then start.value else now)
            && r.value.queue[0] >= now
            && r.value.start == Some(r.value.queue[0])
            && r.value.passed == 0 && r.value.failed == 0 && r.value.missed == 0)
  {
  }

  // ---------------------------------------------------------------------
  // Next

  /** Once `samples` successful runs are in, nothing more is armed and nothing changes. */
  lemma NextStopsAtSamples(s: SchedState, now: int)
    requires s.lastRun.Some? && SamplesMet(s)
    ensures Next(s, now) == s
  {
  }

  /** The next event is anchored on the last armed time, not on `now`: it is
      armed at `lastRun + frequency` if that is still ahead, else at `now`,
      counting exactly one missed tick however many periods went by. */
  lemma NextIsDriftFree(s: SchedState, now: int)
    requires s.lastRun.Some? && !SamplesMet(s)
    ensures var anchor := s.lastRun.value + s.frequency;
      var s' := Next(s, now);
      var armed := if anchor <= now then now else anchor;
      && s'.lastRun == Some(armed)
      && armed >= now
      && (anchor > now ==> armed == anchor)
      && s'.queue == Enter(s.queue, armed)
      && s'.missed == (if anchor <= now then s.missed + 1 else s.missed)
      && s'.passed == s.passed && s'.failed == s.failed
      && s'.frequency == s.frequency && s'.samples == s.samples && s'.start == s.start
  {
  }

  // ---------------------------------------------------------------------
  // Work

  /** Each handled event counts exactly one run, as passed or as failed;
      `missed` only grows through a missed tick, by one at most. */
  lemma WorkCountsOneRun(s: SchedState, ok: bool, now: int)
    requires s.lastRun.Some?
    ensures var s' := Work(s, ok, now);
      && s'.passed == s.passed + (if ok then 1 else 0)
      && s'.failed == s.failed + (if ok then 0 else 1)
      && s.missed <= s'.missed <= s.missed + 1
  {
  }

  /** A failed run never brings the scheduler closer to its sample count, so it
      cannot stop it: after a failure the next event is armed unless the count
      was already met. */
  lemma FailureRearms(s: SchedState, now: int)
    requires s.lastRun.Some? && !SamplesMet(s)
    ensures |Work(s, false, now).queue| == |s.queue| + 1
  {
  }

  // ---------------------------------------------------------------------
  // The event loop

  function CountOk(ticks: seq<Tick>): nat
    decreases |ticks|
  {
    if ticks == [] then 0 else (if ticks[0].ok then 1 else 0) + CountOk(ticks[1..])
  }

  /** Over any stretch of the loop the counters never decrease, `passed +
      failed` grows by the number of handled events, `passed` by the number
      of successful ones among them, and at most one event stays pending. */
  lemma {:induction false} LoopCounts(s: SchedState, ticks: seq<Tick>)
    requires Inv(s)
    ensures var e := Loop(s, ticks); var s' := e.state; var n := e.runs;
      && n <= |ticks|
      && Inv(s')
      && s'.passed + s'.failed == s.passed + s.failed + n
      && s'.passed == s.passed + CountOk(ticks[..n])
      && s.failed <= s'.failed && s.missed <= s'.missed
      && s'.frequency == s.frequency && s'.samples == s.samples
      && (n < |ticks| ==> s'.queue == [])
    decreases |ticks|
  {
    if s.queue != [] && ticks != [] {
      FireKeepsInv(s, ticks[0]);
      var s1 := Fire(s, ticks[0]);
      LoopCounts(s1, ticks[1..]);
      var e := Loop(s1, ticks[1..]);
      var s', n := e.state, e.runs;
      assert ticks[..n + 1] == [ticks[0]] + ticks[1..][..n];
      assert CountOk(ticks[..n + 1]) == (if ticks[0].ok then 1 else 0) + CountOk(ticks[1..][..n]);
    }
  }

  /** Without a missed tick and with an event still pending, the `n`-th handled
      event arms the next one exactly `n` periods after the first: run
      durations never shift the schedule. */
  lemma {:induction false} NoDriftWithoutMisses(s: SchedState, ticks: seq<Tick>)
    requires Inv(s) && s.queue != []
    ensures var e := Loop(s, ticks); var s' := e.state; var n := e.runs;
      s'.missed == s.missed && s'.queue != [] ==>
        s'.lastRun == Some(s.lastRun.value + n * s.frequency)
    decreases |ticks|
  {
    if ticks != [] {
      FireKeepsInv(s, ticks[0]);
      FireOnTime(s, ticks[0]);
      var s1 := Fire(s, ticks[0]);
      var e := Loop(s1, ticks[1..]);
      LoopKeepsMissed(s1, ticks[1..]);
      if e.state.missed == s.missed && e.state.queue != [] {
        NoDriftWithoutMisses(s1, ticks[1..]);
        assert s.lastRun.value + s.frequency + e.runs * s.frequency == s.lastRun.value + (e.runs + 1) * s.frequency;
      }
    }
  }

  /** A handled event that counts no missed tick arms the next one a period
      after it (or arms nothing). */
  lemma FireOnTime(s: SchedState, tick: Tick)
    requires Inv(s) && s.queue != []
    ensures var s1 := Fire(s, tick);
      && s1.frequency == s.frequency
      && s.missed <= s1.missed
      && (s1.missed == s.missed && s1.queue != [] ==> s1.lastRun == Some(s.lastRun.value + s.frequency))
  {
  }

  /** The event loop never lowers `missed` and never changes the period. */
  lemma {:induction false} LoopKeepsMissed(s: SchedState, ticks: seq<Tick>)
    requires Inv(s)
    ensures s.missed <= Loop(s, ticks).state.missed
    ensures Loop(s, ticks).state.missed == s.missed && s.queue != [] && ticks != [] ==> Fire(s, ticks[0]).missed == s.missed
    ensures Loop(s, ticks).state.frequency == s.frequency
    decreases |ticks|
  {
    if s.queue != [] && ticks != [] {
      FireKeepsInv(s, ticks[0]);
      FireOnTime(s, ticks[0]);
      LoopKeepsMissed(Fire(s, ticks[0]), ticks[1..]);
    }
  }

  /** The loop leaves nothing pending only once the sample count is met: a
      failed run, or a scheduler without a sample count, always arms another
      event. */
  lemma {:induction false} StopsOnlyAtCap(s: SchedState, ticks: seq<Tick>)
    requires Inv(s) && s.queue != []
    ensures Loop(s, ticks).state.queue == [] ==> SamplesMet(Loop(s, ticks).state)
    decreases |ticks|
  {
    if ticks != [] {
      FireKeepsInv(s, ticks[0]);
      var s1 := Fire(s, ticks[0]);
      if s1.queue != [] {
        StopsOnlyAtCap(s1, ticks[1..]);
      }
    }
  }

  /** Without a sample count the scheduler never stops by itself: the loop
      handles one event per tick it is given. */
  lemma NoCapRunsForever(s: SchedState, ticks: seq<Tick>)
    requires Inv(s) && s.queue != [] && s.samples.None?
    ensures Loop(s, ticks).runs == |ticks|
    ensures Loop(s, ticks).state.queue != []
  {
    LoopCounts(s, ticks);
    StopsOnlyAtCap(s, ticks);
  }

  ghost predicate AllOk(ticks: seq<Tick>) {
    forall i :: 0 <= i < |ticks| ==> ticks[i].ok
  }

  /** With a sample count, every run succeeding and one event pending, the loop
      handles exactly the missing samples (one when none is missing, since the
      count is checked only after a run) and then nothing is pending. */
  lemma {:induction false} SamplesEndLoop(s: SchedState, ticks: seq<Tick>)
    requires Inv(s) && s.queue != [] && s.samples.Some?
    requires AllOk(ticks)
    requires var todo := if s.passed < s.samples.value then s.samples.value - s.passed else 1;
      |ticks| >= todo
    ensures var todo := if s.passed < s.samples.value then s.samples.value - s.passed else 1;
      var e := Loop(s, ticks); var s' := e.state; var n := e.runs;
      && n == todo
      && s'.queue == []
      && s'.passed == s.passed + todo
      && s'.failed == s.failed
    decreases |ticks|
  {
    FireKeepsInv(s, ticks[0]);
    var s1 := Fire(s, ticks[0]);
    assert ticks[0].ok;
    assert s1.passed == s.passed + 1 && s1.failed == s.failed;
    if s.passed + 1 >= s.samples.value {
      assert SamplesMet(s.(queue := s.queue[1..], passed := s.passed + 1));
      assert s1.queue == [];
    } else {
      assert AllOk(ticks[1..]) by {
        forall i | 0 <= i < |ticks[1..]| ensures ticks[1..][i].ok {
          assert ticks[1..][i] == ticks[i + 1];
        }
      }
      SamplesEndLoop(s1, ticks[1..]);
    }
  }

  /** `Scheduler(pipeline, frequency, samples=n).run()` with every run
      succeeding: exactly `n` runs (one if `n` is 0), `passed == n` runs counted,
      and the queue empties, so `run` returns; a start in the past runs nothing. */
  lemma SampleCapTerminates(frequency: int, n: nat, start: Option<int>, now: int, ticks: seq<Tick>)
    requires AllOk(ticks) && |ticks| >= n && |ticks| >= 1
    ensures var r := Start(Init(frequency, Some(n), start), now);
      && (r.Failure? <==> start.Some? && start.value < now)
      && (r.Success? ==>
            var e := Loop(r.value, ticks);
            && e.runs == (if n == 0 then 1 else n)
            && e.state.passed == e.runs && e.state.failed == 0
            && e.state.queue == [])
  {
    StartArmsOnce(frequency, Some(n), start, now);
    var r := Start(Init(frequency, Some(n), start), now);
    if r.Success? {
      SamplesEndLoop(r.value, ticks);
    }
  }
}
