/**
 * A whole session of calls on the singleton, and the unique-id guarantee
 * across it: ids are handed out one by one, across kinds and across
 * close / init cycles, and are never reused.
 */
module Session {
  import opened Wrappers
  import opened Properties
  import opened Service
  import opened Events
  import opened Factory

  /** One call on the factory's public surface. `os` is the process environment at an init. */
  datatype Call =
    | InitCall(directory: Option<string>, os: OsEnv)
    | CloseCall
    | EnvSetCall(name: string, value: Option<string>)
    | CreateCall(kind: Kind, profile: Option<Profile>, service: Option<string>, input: Input)
    | CleanUpCall(ptr: nat, destructor: Option<nat>)

  /** What stays fixed over a session: install paths, listeners and the repository's constructor. */
  datatype World = World(build: Build, hub: Hub, creator: Creator)

  /** The `_unique_id` an object carries, or -1 when it has none. */
  function IdOf(o: Obj): int {
    if "_unique_id" in o.props && o.props["_unique_id"].Int? then o.props["_unique_id"].number else -1
  }

  /**
   * One call, with the ids of the objects it stamped. None where the call
   * leaves the model: a creation or a clean-up registration while not
   * initialised (before the first init it hands NULL objects to the event
   * hub, the repository and the property store; after a close, freed ones),
   * or an environment write after a close (a use of the freed set).
   */
  function Step(f: Factory, w: World, c: Call): (r: Option<(Factory, seq<int>)>)
    requires Valid(f)
    ensures r.Some? ==> Valid(r.value.0)
    ensures r.Some? ==> r.value.0.uniqueId == f.uniqueId + |r.value.1|
    ensures r.Some? ==> forall i :: 0 <= i < |r.value.1| ==> r.value.1[i] == f.uniqueId + 1 + i
    ensures r.None? <==> ((c.CreateCall? || c.CleanUpCall?) && !Initialised(f)) || (c.EnvSetCall? && !EnvReadable(f))
  {
    match c
    case InitCall(d, os) => Some((Init(f, w.build, os, d).0, []))
    case CloseCall => Some((Close(f), []))
    case EnvSetCall(name, value) =>
      if EnvReadable(f) then Some((EnvSet(f, name, value).0, [])) else None
    case CreateCall(kind, profile, service, input) =>
      if !Initialised(f) then None
      else
        var r := Create(f, w.hub, w.creator, kind, profile, service, input);
        Some((r.factory, if r.factory.uniqueId == f.uniqueId then [] else [IdOf(r.obj.value)]))
    case CleanUpCall(ptr, destructor) =>
      if Initialised(f) then Some((RegisterForCleanUp(f, ptr, destructor), [])) else None
  }

  /**
   * Run calls in order until one the source leaves undefined. The result
   * is the final factory and the ids of every object stamped, in order:
   * exactly the numbers after the starting counter, one per stamp.
   */
  function Run(f: Factory, w: World, calls: seq<Call>): (r: (Factory, seq<int>))
    requires Valid(f)
    ensures Valid(r.0)
    ensures r.0.uniqueId == f.uniqueId + |r.1|
    ensures forall i :: 0 <= i < |r.1| ==> r.1[i] == f.uniqueId + 1 + i
    decreases |calls|
  {
    if |calls| == 0 then (f, [])
    else
      match Step(f, w, calls[0])
      case None => (f, [])
      case Some(s) =>
        var rest := Run(s.0, w, calls[1..]);
        (rest.0, s.1 + rest.1)
  }

  /** Ids stamped over a session strictly increase, so no two objects share one, whatever the kinds and however often the factory was closed and re-initialised. */
  lemma IdsStrictlyIncrease(f: Factory, w: World, calls: seq<Call>)
    requires Valid(f)
    ensures var ids := Run(f, w, calls).1;
      forall i, j :: 0 <= i < j < |ids| ==> f.uniqueId < ids[i] < ids[j]
  {
  }

  /** A close never resets the counter: a session of inits and closes leaves it where it was. */
  lemma LifecycleKeepsCounter(f: Factory, w: World, calls: seq<Call>)
    requires Valid(f)
    requires forall i :: 0 <= i < |calls| ==> calls[i].InitCall? || calls[i].CloseCall?
    ensures Run(f, w, calls).0.uniqueId == f.uniqueId
    ensures Run(f, w, calls).1 == []
    decreases |calls|
  {
    if |calls| > 0 {
      LifecycleKeepsCounter(Step(f, w, calls[0]).value.0, w, calls[1..]);
    }
  }
}
