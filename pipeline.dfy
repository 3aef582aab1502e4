/** The `Pipeline` object of lib/flowbber/pipeline.py: its stage lists are
    fixed by the build, and `run` updates the shared data in place and
    bumps the run counter. Each method is proved to agree with the
    functions of module Runs. */
module Pipelines {
  import opened Wrappers
  import opened OrderedMaps
  import opened Entities
  import opened Runs

  /** Joins the processes of a stage in declaration order, appending one entry
      per process and stopping with an error at the first non-zero exit code. */
  method Join(stage: Stage, es: seq<Entity>, ps: seq<Proc>) returns (entries: seq<JournalEntry>, crash: Option<RunError>)
    requires |es| == |ps|
    ensures entries == StageJournal(es, ps)
    ensures crash == StageCrash(stage, es, ps)
  {
    entries := [];
    var i := 0;
    while i < |ps|
      invariant 0 <= i <= |ps|
      invariant forall j :: 0 <= j < i ==> ps[j].exitcode == 0
      invariant entries == seq(i, j requires 0 <= j < i => Entry(j, es[j], ps[j]))
    {
      entries := entries + [Entry(i, es[i], ps[i])];
      if ps[i].exitcode != 0 {
        assert FirstCrash(ps) == Some(i);
        return entries, Some(Crashed(stage, ps[i].pid, i, es[i].id, ps[i].exitcode));
      }
      i := i + 1;
    }
    crash := None;
  }

  /** The aggregator stage with a journal prefix in front of it. */
  function Prepend(entries: seq<JournalEntry>, s: AggStage): AggStage {
    s.(entries := entries + s.entries)
  }

  class Pipeline {
    const name: string
    const sources: seq<Entity>
    const aggregators: seq<Entity>
    const sinks: seq<Entity>
    /** `_executed`: 0 before the first run, 1 from then on. */
    var executed: nat
    /** `_data`: the shared ordered map. */
    var data: DataMap

    ghost predicate Valid()
      reads this
    {
      executed <= 1 && (executed == 0 ==> data == Empty())
    }

    function Built(): Stages {
      Stages(sources, aggregators, sinks)
    }

    constructor(name: string, stages: Stages)
      ensures Valid() && executed == 0 && data == Empty()
      ensures this.name == name && Built() == stages
    {
      this.name := name;
      sources, aggregators, sinks := stages.sources, stages.aggregators, stages.sinks;
      executed := 0;
      data := Empty();
    }

    /** `Pipeline(pipeline, name)` with the plugin tables given: builds the
        stages, or raises the build error and produces no pipeline. */
    static method Create(definition: PipelineDef, name: string, registries: Registries)
      returns (r: Result<Pipeline, BuildError>)
      ensures r.Failure? <==> FirstBuildError(definition, registries).Some?
      ensures r.Failure? ==> r.error == FirstBuildError(definition, registries).value
      ensures r.Success? ==> fresh(r.value) && r.value.Valid() && r.value.executed == 0
      ensures r.Success? ==> r.value.name == name && StagesBuilt(r.value.Built(), definition, registries)
    {
      var stages := Build(definition, registries);
      if stages.Failure? {
        return Failure(stages.error);
      }
      var p := new Pipeline(name, stages.value);
      return Success(p);
    }

    /** `_run_sources`: every result is merged, in declaration order, before
        any process is joined; then the processes are joined in order. */
    method RunSources(runs: seq<SourceRun>) returns (entries: seq<JournalEntry>, crash: Option<RunError>)
      requires executed == 1 && |runs| == |sources|
      modifies this`data
      ensures Valid()
      ensures data == MergeAll(old(data), Results(runs))
      ensures entries == StageJournal(sources, Procs(runs))
      ensures crash == StageCrash(SourceStage, sources, Procs(runs))
    {
      var rs := Results(runs);
      var i := 0;
      while i < |runs|
        invariant 0 <= i <= |runs|
        invariant data == MergeAll(old(data), rs[..i])
      {
        assert rs[..i + 1][..i] == rs[..i];
        data := Update(data, runs[i].result);
        i := i + 1;
      }
      assert rs[..|runs|] == rs;
      entries, crash := Join(SourceStage, sources, Procs(runs));
    }

    /** `_run_aggregators`: each aggregator in turn changes the shared data;
        its entry is appended only after `accumulate` returns. */
    method RunAggregators(accumulate: (Entity, DataMap) -> AggOutcome)
      returns (entries: seq<JournalEntry>, error: Option<RunError>)
      requires executed == 1
      modifies this`data
      ensures Valid()
      ensures AggStage(data, entries, error) == Aggregate(aggregators, accumulate, 0, old(data))
    {
      entries, error := [], None;
      var i := 0;
      while i < |aggregators|
        invariant 0 <= i <= |aggregators|
        invariant Aggregate(aggregators, accumulate, 0, old(data)) == Prepend(entries, Aggregate(aggregators, accumulate, i, data))
      {
        match accumulate(aggregators[i], data) {
          case Raised(d) =>
            data := d;
            error := Some(AggregatorRaised(i, aggregators[i].id));
            return;
          case Accumulated(d, duration) =>
            var entry := AggregatorEntry(i, aggregators[i].id, aggregators[i].name, duration);
            assert entries + ([entry] + Aggregate(aggregators, accumulate, i + 1, d).entries)
                == (entries + [entry]) + Aggregate(aggregators, accumulate, i + 1, d).entries;
            data := d;
            entries := entries + [entry];
        }
        i := i + 1;
      }
    }

    /** `_run_sinks`: every sink process is started with the same data before
        any is joined; then they are joined in declaration order. */
    method RunSinks(runs: seq<Proc>) returns (delivered: seq<DataMap>, entries: seq<JournalEntry>, crash: Option<RunError>)
      requires |runs| == |sinks|
      ensures |delivered| == |sinks| && forall i :: 0 <= i < |sinks| ==> delivered[i] == data
      ensures entries == StageJournal(sinks, runs)
      ensures crash == StageCrash(SinkStage, sinks, runs)
    {
      var snapshot := data;
      delivered := seq(|sinks|, _ => snapshot);
      entries, crash := Join(SinkStage, sinks, runs);
    }

    /** `run`: the data is reset on every run after the first, then sources,
        aggregators and sinks run in that order and the journal is saved;
        a stage that raises ends the run and nothing is saved. */
    method Run(env: RunEnv) returns (outcome: RunOutcome)
      requires Valid() && Fits(Built(), env)
      modifies this`data, this`executed
      ensures Valid() && executed == 1
      ensures RunResult(data, outcome) == RunSpec(Built(), env)
    {
      if executed > 0 {
        data := Empty();
      } else {
        executed := executed + 1;
      }
      var sourceEntries, sourceCrash := RunSources(env.sourceRuns);
      if sourceCrash.Some? {
        return Failed(sourceCrash.value);
      }
      var aggregatorEntries, aggregatorError := RunAggregators(env.accumulate);
      if aggregatorError.Some? {
        return Failed(aggregatorError.value);
      }
      var delivered, sinkEntries, sinkCrash := RunSinks(env.sinkRuns);
      if sinkCrash.Some? {
        return Failed(sinkCrash.value);
      }
      outcome := Saved(Journal(sourceEntries, aggregatorEntries, sinkEntries));
    }
  }
}
