/** What one run of a pipeline computes (lib/flowbber/pipeline.py, `run`,
    `_run_sources`, `_run_aggregators`, `_run_sinks`), as functions of the
    built stages and of what the worker processes and the aggregators do.
    The class in pipeline.dfy runs the same steps in place and is proved
    to agree with these functions. */
module Runs {
  import opened Wrappers
  import opened OrderedMaps
  import opened Entities

  /** What a worker process gives back: its pid, its exit code and the
      duration the entity reported (an integer count of time units). */
  datatype Proc = Proc(pid: int, exitcode: int, duration: int)

  /** A source's worker: the map it put on its result channel, and the process itself. */
  datatype SourceRun = SourceRun(result: DataMap, proc: Proc)

  /** What `aggregator.accumulate(data)` does to the shared data: it returns
      after `duration`, or it raises, leaving the map as far as it had changed it. */
  datatype AggOutcome = Accumulated(data: DataMap, duration: int) | Raised(data: DataMap)

  /** Journal entries: sources and sinks record their process, aggregators do not. */
  datatype JournalEntry =
    | ProcessEntry(index: nat, id: string, pid: int, name: string, exitcode: int, duration: int)
    | AggregatorEntry(index: nat, id: string, name: string, duration: int)

  datatype Journal = Journal(sources: seq<JournalEntry>, aggregators: seq<JournalEntry>, sinks: seq<JournalEntry>)

  /** `RuntimeError` for a crashed source or sink process; whatever an aggregator raised. */
  datatype RunError =
    | Crashed(stage: Stage, pid: int, index: nat, id: string, exitcode: int)
    | AggregatorRaised(index: nat, id: string)

  /** Everything a run depends on besides the pipeline itself. */
  datatype RunEnv = RunEnv(
    sourceRuns: seq<SourceRun>,
    accumulate: (Entity, DataMap) -> AggOutcome,
    sinkRuns: seq<Proc>)

  /** A run either saves its journal or raises. */
  datatype RunOutcome = Saved(journal: Journal) | Failed(error: RunError)

  /** The shared data after a run, and how the run ended. */
  datatype RunResult = RunResult(data: DataMap, outcome: RunOutcome)

  /** One worker per source and one per sink. */
  predicate Fits(p: Stages, env: RunEnv) {
    |env.sourceRuns| == |p.sources| && |env.sinkRuns| == |p.sinks|
  }

  function Results(runs: seq<SourceRun>): (rs: seq<DataMap>)
    ensures |rs| == |runs| && forall i :: 0 <= i < |runs| ==> rs[i] == runs[i].result
  {
    seq(|runs|, i requires 0 <= i < |runs| => runs[i].result)
  }

  function Procs(runs: seq<SourceRun>): (ps: seq<Proc>)
    ensures |ps| == |runs| && forall i :: 0 <= i < |runs| ==> ps[i] == runs[i].proc
  {
    seq(|runs|, i requires 0 <= i < |runs| => runs[i].proc)
  }

  // ---------------------------------------------------------------------
  // Merging the source results

  /** `data.update(result)` for each result in declaration order. */
  function MergeAll(d: DataMap, rs: seq<DataMap>): DataMap
    decreases |rs|
  {
    if rs == [] then d else Update(MergeAll(d, rs[..|rs| - 1]), rs[|rs| - 1])
  }

  /** The position of the last result that has key `k`. */
  function LastWriter(rs: seq<DataMap>, k: Key): (r: Option<nat>)
    ensures r.Some? ==> r.value < |rs| && k in rs[r.value].values
    ensures r.Some? ==> forall j :: r.value < j < |rs| ==> k !in rs[j].values
    ensures r.None? ==> forall j :: 0 <= j < |rs| ==> k !in rs[j].values
    decreases |rs|
  {
    if rs == [] then None
    else if k in rs[|rs| - 1].values then Some(|rs| - 1)
    else LastWriter(rs[..|rs| - 1], k)
  }

  ghost predicate AllValid(rs: seq<DataMap>) {
    forall i :: 0 <= i < |rs| ==> Valid(rs[i])
  }

  /** Last writer wins: a key takes its value from the latest-declared result
      that has it, and a key that no result has keeps its value. */
  lemma {:induction false} MergeGet(d: DataMap, rs: seq<DataMap>, k: Key)
    requires Valid(d) && AllValid(rs)
    ensures Valid(MergeAll(d, rs))
    ensures Get(MergeAll(d, rs), k) == match LastWriter(rs, k)
      case Some(i) => Some(rs[i].values[k])
      case None => Get(d, k)
    decreases |rs|
  {
    if rs != [] {
      var init := rs[..|rs| - 1];
      MergeGet(d, init, k);
      UpdateSpec(MergeAll(d, init), rs[|rs| - 1]);
    }
  }

  /** Keys already present keep their positions, and the merged map holds
      exactly the keys of `d` and of the results. */
  lemma {:induction false} MergeKeys(d: DataMap, rs: seq<DataMap>, k: Key)
    requires Valid(d) && AllValid(rs)
    ensures d.keys <= MergeAll(d, rs).keys
    ensures k in MergeAll(d, rs).keys <==> k in d.keys || exists i :: 0 <= i < |rs| && k in rs[i].keys
    decreases |rs|
  {
    if rs != [] {
      var init := rs[..|rs| - 1];
      var last := rs[|rs| - 1];
      MergeKeys(d, init, k);
      MergeGet(d, init, k);
      UpdateSpec(MergeAll(d, init), last);
      FreshMembers(MergeAll(d, init).keys, last.keys, k);
      if k in last.keys {
        assert k in rs[|rs| - 1].keys;
      }
      if exists i :: 0 <= i < |rs| && k in rs[i].keys {
        var i :| 0 <= i < |rs| && k in rs[i].keys;
        if i < |rs| - 1 {
          assert k in init[i].keys;
        }
      }
    }
  }

  // ---------------------------------------------------------------------
  // Source and sink stages: joining the processes in declaration order

  /** The position of the first process that exited with a non-zero code. */
  function FirstCrash(ps: seq<Proc>): (r: Option<nat>)
    ensures r.Some? ==> r.value < |ps| && ps[r.value].exitcode != 0
    ensures r.Some? ==> forall j :: 0 <= j < r.value ==> ps[j].exitcode == 0
    ensures r.None? ==> forall j :: 0 <= j < |ps| ==> ps[j].exitcode == 0
    decreases |ps|
  {
    if ps == [] then None
    else if ps[0].exitcode != 0 then Some(0)
    else match FirstCrash(ps[1..])
      case None => None
      case Some(j) => Some(j + 1)
  }

  function Entry(i: nat, e: Entity, p: Proc): JournalEntry {
    ProcessEntry(i, e.id, p.pid, e.name, p.exitcode, p.duration)
  }

  /** The entries a process stage appends: one per process joined, up to and
      including the first that crashed. */
  function StageJournal(es: seq<Entity>, ps: seq<Proc>): seq<JournalEntry>
    requires |es| == |ps|
  {
    var n := match FirstCrash(ps) case Some(k) => k + 1 case None => |ps|;
    seq(n, i requires 0 <= i < n => Entry(i, es[i], ps[i]))
  }

  /** The error a process stage raises, built from the crashed process's entry. */
  function StageCrash(stage: Stage, es: seq<Entity>, ps: seq<Proc>): Option<RunError>
    requires |es| == |ps|
  {
    match FirstCrash(ps)
    case Some(k) => Some(Crashed(stage, ps[k].pid, k, es[k].id, ps[k].exitcode))
    case None => None
  }

  /** A process stage stops at its first crash: the journal ends with the crashed
      entity's entry, whose fields the error repeats, and every entry before it
      exited with 0; without a crash every entity has an entry. */
  lemma JournalStopsAtCrash(stage: Stage, es: seq<Entity>, ps: seq<Proc>)
    requires |es| == |ps|
    ensures var j := StageJournal(es, ps);
      && (forall i :: 0 <= i < |j| ==> j[i] == ProcessEntry(i, es[i].id, ps[i].pid, es[i].name, ps[i].exitcode, ps[i].duration))
      && match StageCrash(stage, es, ps)
         case Some(e) =>
           && |j| > 0
           && e == Crashed(stage, j[|j| - 1].pid, |j| - 1, j[|j| - 1].id, j[|j| - 1].exitcode)
           && e.exitcode != 0
           && forall i :: 0 <= i < |j| - 1 ==> j[i].exitcode == 0
         case None => |j| == |es| && forall i :: 0 <= i < |j| ==> j[i].exitcode == 0
  {
  }

  // ---------------------------------------------------------------------
  // Aggregator stage

  /** The aggregator stage from position `i` on: the data it leaves, the entries
      it appends and the error, if any, that stops it. */
  datatype AggStage = AggStage(data: DataMap, entries: seq<JournalEntry>, error: Option<RunError>)

  /** Runs the aggregators from position `i` serially on `d`. An entry is
      appended only once `accumulate` has returned; an aggregator that raises
      ends the stage. */
  function Aggregate(aggs: seq<Entity>, acc: (Entity, DataMap) -> AggOutcome, i: nat, d: DataMap): AggStage
    decreases |aggs| - i
  {
    if i >= |aggs| then AggStage(d, [], None)
    else match acc(aggs[i], d)
      case Raised(d') => AggStage(d', [], Some(AggregatorRaised(i, aggs[i].id)))
      case Accumulated(d', t) =>
        var rest := Aggregate(aggs, acc, i + 1, d');
        rest.(entries := [AggregatorEntry(i, aggs[i].id, aggs[i].name, t)] + rest.entries)
  }

  /** Entries `i`, `i + 1`, ... follow the declaration; without an error there is
      one per aggregator from `i` on, and an error names the aggregator right
      after the last entry. */
  lemma {:induction false} AggregateShape(aggs: seq<Entity>, acc: (Entity, DataMap) -> AggOutcome, i: nat, d: DataMap)
    requires i <= |aggs|
    ensures var r := Aggregate(aggs, acc, i, d);
      && i + |r.entries| <= |aggs|
      && (forall j :: 0 <= j < |r.entries| ==>
            r.entries[j].AggregatorEntry? && r.entries[j].index == i + j &&
            r.entries[j].id == aggs[i + j].id && r.entries[j].name == aggs[i + j].name)
      && (r.error.None? ==> i + |r.entries| == |aggs|)
      && (r.error.Some? ==>
            && i + |r.entries| < |aggs|
            && r.error == Some(AggregatorRaised(i + |r.entries|, aggs[i + |r.entries|].id)))
    decreases |aggs| - i
  {
    if i < |aggs| {
      match acc(aggs[i], d)
      case Raised(_) =>
      case Accumulated(d', _) =>
        AggregateShape(aggs, acc, i + 1, d');
    }
  }

  /** Nothing after a failing aggregator runs: dropping every aggregator behind
      the one that raised does not change the stage's result. */
  lemma {:induction false} AggregateStopsAtFailure(aggs: seq<Entity>, acc: (Entity, DataMap) -> AggOutcome, i: nat, d: DataMap)
    requires i <= |aggs|
    ensures var r := Aggregate(aggs, acc, i, d);
      r.error.Some? ==>
        && i + |r.entries| < |aggs|
        && Aggregate(aggs[..i + |r.entries| + 1], acc, i, d) == r
    decreases |aggs| - i
  {
    AggregateShape(aggs, acc, i, d);
    var r := Aggregate(aggs, acc, i, d);
    if i < |aggs| && r.error.Some? {
      var cut := aggs[..i + |r.entries| + 1];
      assert cut[i] == aggs[i];
      match acc(aggs[i], d)
      case Raised(_) =>
      case Accumulated(d', t) =>
        var rest := Aggregate(aggs, acc, i + 1, d');
        AggregateShape(aggs, acc, i + 1, d');
        AggregateStopsAtFailure(aggs, acc, i + 1, d');
        assert i + 1 + |rest.entries| + 1 == i + |r.entries| + 1;
    }
  }

  // ---------------------------------------------------------------------
  // A whole run

  /** `run` on a freshly reset shared map: sources, merge, aggregators, sinks,
      and the journal saved only if no stage raised. */
  function RunSpec(p: Stages, env: RunEnv): RunResult
    requires Fits(p, env)
  {
    var merged := MergeAll(Empty(), Results(env.sourceRuns));
    var sourceProcs := Procs(env.sourceRuns);
    match StageCrash(SourceStage, p.sources, sourceProcs)
    case Some(e) => RunResult(merged, Failed(e))
    case None =>
      var agg := Aggregate(p.aggregators, env.accumulate, 0, merged);
      match agg.error
      case Some(e) => RunResult(agg.data, Failed(e))
      case None =>
        match StageCrash(SinkStage, p.sinks, env.sinkRuns)
        case Some(e) => RunResult(agg.data, Failed(e))
        case None =>
          RunResult(agg.data, Saved(Journal(
            StageJournal(p.sources, sourceProcs),
            agg.entries,
            StageJournal(p.sinks, env.sinkRuns))))
  }

  /** A run saves its journal exactly when no source or sink crashed and no
      aggregator raised, and the saved journal has one entry per entity,
      grouped by stage, each at its declaration index. */
  lemma SavedJournalComplete(p: Stages, env: RunEnv)
    requires Fits(p, env)
    ensures var r := RunSpec(p, env);
      r.outcome.Saved? <==>
        && FirstCrash(Procs(env.sourceRuns)).None?
        && Aggregate(p.aggregators, env.accumulate, 0, MergeAll(Empty(), Results(env.sourceRuns))).error.None?
        && FirstCrash(env.sinkRuns).None?
    ensures var r := RunSpec(p, env);
      r.outcome.Saved? ==>
        && |r.outcome.journal.sources| == |p.sources|
        && |r.outcome.journal.aggregators| == |p.aggregators|
        && |r.outcome.journal.sinks| == |p.sinks|
        && (forall i :: 0 <= i < |p.sources| ==>
              r.outcome.journal.sources[i].index == i && r.outcome.journal.sources[i].id == p.sources[i].id)
        && (forall i :: 0 <= i < |p.aggregators| ==>
              r.outcome.journal.aggregators[i].index == i && r.outcome.journal.aggregators[i].id == p.aggregators[i].id)
        && (forall i :: 0 <= i < |p.sinks| ==>
              r.outcome.journal.sinks[i].index == i && r.outcome.journal.sinks[i].id == p.sinks[i].id)
  {
    var merged := MergeAll(Empty(), Results(env.sourceRuns));
    AggregateShape(p.aggregators, env.accumulate, 0, merged);
  }

  /** A crashed source ends the run with that source's error: the aggregators
      never see the data and the sinks never run, so neither can change the result. */
  lemma SourceCrashAbortsRun(p: Stages, env: RunEnv, accumulate: (Entity, DataMap) -> AggOutcome, sinkRuns: seq<Proc>)
    requires Fits(p, env) && |sinkRuns| == |p.sinks|
    requires FirstCrash(Procs(env.sourceRuns)).Some?
    ensures var k := FirstCrash(Procs(env.sourceRuns)).value;
      var proc := env.sourceRuns[k].proc;
      RunSpec(p, env) == RunResult(
        MergeAll(Empty(), Results(env.sourceRuns)),
        Failed(Crashed(SourceStage, proc.pid, k, p.sources[k].id, proc.exitcode)))
    ensures RunSpec(p, env) == RunSpec(p, env.(accumulate := accumulate, sinkRuns := sinkRuns))
  {
  }

  /** A raising aggregator ends the run with its error; the sinks never run. */
  lemma AggregatorFailureAbortsRun(p: Stages, env: RunEnv, sinkRuns: seq<Proc>)
    requires Fits(p, env) && |sinkRuns| == |p.sinks|
    requires FirstCrash(Procs(env.sourceRuns)).None?
    requires Aggregate(p.aggregators, env.accumulate, 0, MergeAll(Empty(), Results(env.sourceRuns))).error.Some?
    ensures var agg := Aggregate(p.aggregators, env.accumulate, 0, MergeAll(Empty(), Results(env.sourceRuns)));
      var k := |agg.entries|;
      && k < |p.aggregators|
      && RunSpec(p, env) == RunResult(agg.data, Failed(AggregatorRaised(k, p.aggregators[k].id)))
    ensures RunSpec(p, env) == RunSpec(p, env.(sinkRuns := sinkRuns))
  {
    AggregateShape(p.aggregators, env.accumulate, 0, MergeAll(Empty(), Results(env.sourceRuns)));
  }

  /** Nothing leaks from an earlier run: after the source stage, the data holds
      exactly the keys the sources returned, each with the value of the last
      source that returned it. */
  lemma NoStaleKeys(env: RunEnv, k: Key)
    requires AllValid(Results(env.sourceRuns))
    ensures var merged := MergeAll(Empty(), Results(env.sourceRuns));
      && Valid(merged)
      && (k in merged.keys <==> exists i :: 0 <= i < |env.sourceRuns| && k in env.sourceRuns[i].result.keys)
      && Get(merged, k) == match LastWriter(Results(env.sourceRuns), k)
           case Some(i) => Some(env.sourceRuns[i].result.values[k])
           case None => None
  {
    var rs := Results(env.sourceRuns);
    MergeGet(Empty(), rs, k);
    MergeKeys(Empty(), rs, k);
    if exists i :: 0 <= i < |env.sourceRuns| && k in env.sourceRuns[i].result.keys {
      var i :| 0 <= i < |env.sourceRuns| && k in env.sourceRuns[i].result.keys;
      assert k in rs[i].keys;
    }
  }
}
