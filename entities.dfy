/** Pipeline definitions, entity instances and the build step that turns the
    first into the second (lib/flowbber/pipeline.py, `_build_pipeline`). */
module Entities {
  import opened Wrappers
  import opened OrderedMaps

  /** The values a source can hand back across a process boundary. Nested
      dictionaries are kept as key/value lists: the engine never looks inside them. */
  datatype Value =
    | Null
    | Bool(b: bool)
    | Int(i: int)
    | Str(s: string)
    | List(items: seq<Value>)
    | Dict(entries: seq<(string, Value)>)

  /** The shared data of a run, and the options of an entity. */
  type DataMap = OrderedMap<Value>

  datatype Stage = SourceStage | AggregatorStage | SinkStage

  /** One declared entity: its `type`, its `id` and its optional `config`. */
  datatype Definition = Definition(typeName: string, id: string, config: Option<DataMap>)

  /** The `sources`, `aggregators` and `sinks` lists of a pipeline definition. */
  datatype PipelineDef = PipelineDef(sources: seq<Definition>, aggregators: seq<Definition>, sinks: seq<Definition>)

  /** What the plugin loaders found for one stage: each available type name
      mapped to the name of the class that implements it (`str()` of an
      instance is its class name). */
  type Registry = map<string, string>

  datatype Registries = Registries(sources: Registry, aggregators: Registry, sinks: Registry)

  /** An instance built with `clss(index, type, id, config)`; `name` is its `str()`. */
  datatype Entity = Entity(index: nat, typeName: string, id: string, config: DataMap, name: string)

  datatype Stages = Stages(sources: seq<Entity>, aggregators: seq<Entity>, sinks: seq<Entity>)

  /** `ValueError('Unknown <stage> <type>')`. */
  datatype BuildError = Unknown(stage: Stage, typeName: string)

  function ConfigOf(d: Definition): DataMap {
    d.config.GetOr(Empty())
  }

  /** The instance built for the `i`-th definition of a stage. */
  function Instance(i: nat, d: Definition, available: Registry): (e: Entity)
    requires d.typeName in available
    ensures e.index == i && e.typeName == d.typeName && e.id == d.id
    ensures e.config == (if d.config.Some? then d.config.value else Empty())
    ensures e.name == available[d.typeName]
  {
    Entity(i, d.typeName, d.id, ConfigOf(d), available[d.typeName])
  }

  /** The position of the first definition whose type is not available. */
  function FirstUnknown(available: Registry, defined: seq<Definition>): (r: Option<nat>)
    ensures r.Some? ==> r.value < |defined| && defined[r.value].typeName !in available
    ensures r.Some? ==> forall i :: 0 <= i < r.value ==> defined[i].typeName in available
    ensures r.None? ==> forall i :: 0 <= i < |defined| ==> defined[i].typeName in available
    decreases |defined|
  {
    if defined == [] then None
    else if defined[0].typeName !in available then Some(0)
    else match FirstUnknown(available, defined[1..])
      case None => None
      case Some(j) => Some(j + 1)
  }

  /** The error a stage's build raises, if any. */
  function StageError(stage: Stage, available: Registry, defined: seq<Definition>): Option<BuildError> {
    match FirstUnknown(available, defined)
    case Some(j) => Some(Unknown(stage, defined[j].typeName))
    case None => None
  }

  /** One stage of `_build_pipeline`: instantiate the definitions in order,
      raising at the first unknown type. The instances carry their position,
      the definition's type and id, and its config or an empty one. */
  method BuildStage(stage: Stage, available: Registry, defined: seq<Definition>)
    returns (r: Result<seq<Entity>, BuildError>)
    ensures match FirstUnknown(available, defined)
      case Some(j) => r == Failure(Unknown(stage, defined[j].typeName))
      case None =>
        && r.Success?
        && |r.value| == |defined|
        && forall i :: 0 <= i < |defined| ==> r.value[i] == Instance(i, defined[i], available)
  {
    var destination := [];
    var index := 0;
    while index < |defined|
      invariant 0 <= index <= |defined|
      invariant forall i :: 0 <= i < index ==> defined[i].typeName in available
      invariant |destination| == index
      invariant forall i :: 0 <= i < index ==> destination[i] == Instance(i, defined[i], available)
    {
      var entity := defined[index];
      if entity.typeName !in available {
        return Failure(Unknown(stage, entity.typeName));
      }
      destination := destination + [Instance(index, entity, available)];
      index := index + 1;
    }
    return Success(destination);
  }

  /** The error `_build_pipeline` raises: the first unknown type of the
      sources, else of the aggregators, else of the sinks. */
  function FirstBuildError(definition: PipelineDef, registries: Registries): Option<BuildError> {
    var sources := StageError(SourceStage, registries.sources, definition.sources);
    var aggregators := StageError(AggregatorStage, registries.aggregators, definition.aggregators);
    var sinks := StageError(SinkStage, registries.sinks, definition.sinks);
    if sources.Some? then sources else if aggregators.Some? then aggregators else sinks
  }

  /** `_build_pipeline`: sources, then aggregators, then sinks; the first
      unknown type in that order is the error and no pipeline is built. */
  method Build(definition: PipelineDef, registries: Registries) returns (r: Result<Stages, BuildError>)
    ensures r.Failure? <==> FirstBuildError(definition, registries).Some?
    ensures r.Failure? ==> r.error == FirstBuildError(definition, registries).value
    ensures r.Success? ==> StagesBuilt(r.value, definition, registries)
  {
    var sources := BuildStage(SourceStage, registries.sources, definition.sources);
    if sources.Failure? {
      return Failure(sources.error);
    }
    var aggregators := BuildStage(AggregatorStage, registries.aggregators, definition.aggregators);
    if aggregators.Failure? {
      return Failure(aggregators.error);
    }
    var sinks := BuildStage(SinkStage, registries.sinks, definition.sinks);
    if sinks.Failure? {
      return Failure(sinks.error);
    }
    return Success(Stages(sources.value, aggregators.value, sinks.value));
  }

  /** Each stage list has one instance per definition, built from it at its position. */
  ghost predicate StageBuilt(built: seq<Entity>, defined: seq<Definition>, available: Registry) {
    && |built| == |defined|
    && forall i :: 0 <= i < |defined| ==>
         defined[i].typeName in available && built[i] == Instance(i, defined[i], available)
  }

  ghost predicate StagesBuilt(s: Stages, definition: PipelineDef, registries: Registries) {
    && StageBuilt(s.sources, definition.sources, registries.sources)
    && StageBuilt(s.aggregators, definition.aggregators, registries.aggregators)
    && StageBuilt(s.sinks, definition.sinks, registries.sinks)
  }
}
