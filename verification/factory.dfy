/**
 * The factory singleton of mlt_factory.c as an explicit state record with
 * pure transitions. The process environment, the build-time install paths,
 * the event listeners and the repository's constructor are parameters.
 */
module Factory {
  import opened Wrappers
  import opened Decimal
  import opened Properties
  import opened Service
  import opened Events

  /** The compile-time install locations (`LIBDIR` and `PREFIX`). */
  datatype Build = Build(libDir: string, prefix: string)

  function PrefixLib(b: Build): string {
    b.libDir + "/mlt"
  }

  function PrefixData(b: Build): string {
    b.prefix + "/share/mlt"
  }

  /** The process environment, as `getenv` sees it. */
  type OsEnv = map<string, string>

  function GetEnv(os: OsEnv, name: string): Option<string> {
    if name in os then Some(os[name]) else None
  }

  /** A repository handle: the repository scanned from a module directory. */
  datatype Repo = Repo(directory: string)

  /** `mlt_repository_create`: external, may give NULL. */
  type Creator = (Repo, Option<Profile>, Kind, Option<string>, Input) -> Option<Obj>

  /**
   * The singleton. `globals` is None while `global_properties` is still NULL
   * (before the first init); after a close it still holds the freed set, and
   * `globalsLive` is false. `events` is the event object's slot table (empty
   * while `event_object` is still NULL); like the environment and the
   * repository, a close leaves it behind freed, with `eventsLive` false.
   */
  datatype Factory = Factory(
    directory: Option<string>,
    globals: Option<Props>,
    globalsLive: bool,
    events: map<string, Transmitter>,
    eventsLive: bool,
    repository: Option<Repo>,
    repositoryLive: bool,
    poolLive: bool,
    uniqueId: nat)

  /** The process start state: every pointer NULL, the counter 0. */
  function Uninitialised(): Factory {
    Factory(None, None, false, map[], false, None, false, false, 0)
  }

  predicate Initialised(f: Factory) {
    f.directory.Some?
  }

  /** The directory is set exactly when every owned collaborator is live. */
  ghost predicate Valid(f: Factory) {
    && (Initialised(f) <==> f.globalsLive)
    && (Initialised(f) <==> f.repositoryLive)
    && (Initialised(f) <==> f.poolLive)
    && (Initialised(f) <==> f.eventsLive)
    && f.events == (if f.globals.Some? then StandardSlots() else map[])
    && (f.globalsLive ==> f.globals.Some?)
    && (f.repositoryLive ==> f.repository == Some(Repo(f.directory.value)))
    && (f.globals.Some? <==> f.repository.Some?)
  }

  /** The environment may be read: before the first init (NULL) or while live, not after a close. */
  predicate EnvReadable(f: Factory) {
    f.globals.None? || f.globalsLive
  }

  /** The module directory a first init settles on. */
  function SelectDirectory(b: Build, os: OsEnv, directory: Option<string>): (d: string)
    ensures directory.Some? && directory.value != "" ==> d == directory.value
    ensures (directory.None? || directory.value == "") && "MLT_REPOSITORY" in os ==> d == os["MLT_REPOSITORY"]
    ensures (directory.None? || directory.value == "") && "MLT_REPOSITORY" !in os ==> d == PrefixLib(b)
  {
    var explicit := if directory.None? || directory.value == "" then GetEnv(os, "MLT_REPOSITORY") else directory;
    explicit.GetOr(PrefixLib(b))
  }

  /** The environment keys every init writes. */
  function SeedKeys(): set<string> {
    {"MLT_NORMALISATION", "MLT_PRODUCER", "MLT_CONSUMER", "MLT_TEST_CARD", "MLT_PROFILE", "MLT_DATA"}
  }

  /** The documented fallback of each defaulted key; MLT_TEST_CARD has none. */
  function SeedDefaults(b: Build): map<string, string> {
    map["MLT_NORMALISATION" := "PAL", "MLT_PRODUCER" := "fezzik", "MLT_CONSUMER" := "sdl",
        "MLT_PROFILE" := "dv_pal", "MLT_DATA" := PrefixData(b)]
  }

  lemma SeedKeysDistinct()
    ensures |SeedKeys()| == 6
  {
    assert "MLT_PRODUCER"[4] != "MLT_CONSUMER"[4];
  }

  /** What a seeded key holds afterwards: the process value, else the fallback, else NULL. */
  function SeededValue(b: Build, os: OsEnv, name: string): Value {
    if name in os then Text(os[name])
    else if name in SeedDefaults(b) then Text(SeedDefaults(b)[name])
    else Null
  }

  /** The property refresh every init performs, in the order of the source. */
  function Seed(p: Props, b: Build, os: OsEnv): (r: Props)
    ensures r.Keys == p.Keys + SeedKeys()
    ensures forall k :: k in SeedKeys() ==> r[k] == SeededValue(b, os, k)
    ensures forall k :: k in p && k !in SeedKeys() ==> r[k] == p[k]
  {
    var p1 := SetOrDefault(p, "MLT_NORMALISATION", GetEnv(os, "MLT_NORMALISATION"), "PAL");
    var p2 := SetOrDefault(p1, "MLT_PRODUCER", GetEnv(os, "MLT_PRODUCER"), "fezzik");
    var p3 := SetOrDefault(p2, "MLT_CONSUMER", GetEnv(os, "MLT_CONSUMER"), "sdl");
    var p4 := Set(p3, "MLT_TEST_CARD", GetEnv(os, "MLT_TEST_CARD"));
    var p5 := SetOrDefault(p4, "MLT_PROFILE", GetEnv(os, "MLT_PROFILE"), "dv_pal");
    var p6 := SetOrDefault(p5, "MLT_DATA", GetEnv(os, "MLT_DATA"), PrefixData(b));
    SeedMatches(p, b, os);
    p6
  }

  /** The six writes, one after the other, amount to one update per key with its seeded value. */
  lemma SeedMatches(p: Props, b: Build, os: OsEnv)
    ensures
      var p6 := SetOrDefault(SetOrDefault(Set(SetOrDefault(SetOrDefault(SetOrDefault(p,
                  "MLT_NORMALISATION", GetEnv(os, "MLT_NORMALISATION"), "PAL"),
                  "MLT_PRODUCER", GetEnv(os, "MLT_PRODUCER"), "fezzik"),
                  "MLT_CONSUMER", GetEnv(os, "MLT_CONSUMER"), "sdl"),
                  "MLT_TEST_CARD", GetEnv(os, "MLT_TEST_CARD")),
                  "MLT_PROFILE", GetEnv(os, "MLT_PROFILE"), "dv_pal"),
                  "MLT_DATA", GetEnv(os, "MLT_DATA"), PrefixData(b));
      && p6.Keys == p.Keys + SeedKeys()
      && (forall k :: k in SeedKeys() ==> p6[k] == SeededValue(b, os, k))
      && (forall k :: k in p && k !in SeedKeys() ==> p6[k] == p[k])
  {
    var d := SeedDefaults(b);
    assert d["MLT_NORMALISATION"] == "PAL" && d["MLT_PRODUCER"] == "fezzik" && d["MLT_CONSUMER"] == "sdl";
    assert d["MLT_PROFILE"] == "dv_pal" && d["MLT_DATA"] == PrefixData(b) && "MLT_TEST_CARD" !in d;
    var p1 := SetOrDefault(p, "MLT_NORMALISATION", GetEnv(os, "MLT_NORMALISATION"), "PAL");
    assert p1 == p["MLT_NORMALISATION" := SeededValue(b, os, "MLT_NORMALISATION")];
    var p2 := SetOrDefault(p1, "MLT_PRODUCER", GetEnv(os, "MLT_PRODUCER"), "fezzik");
    assert p2 == p1["MLT_PRODUCER" := SeededValue(b, os, "MLT_PRODUCER")];
    var p3 := SetOrDefault(p2, "MLT_CONSUMER", GetEnv(os, "MLT_CONSUMER"), "sdl");
    assert p3 == p2["MLT_CONSUMER" := SeededValue(b, os, "MLT_CONSUMER")];
    var p4 := Set(p3, "MLT_TEST_CARD", GetEnv(os, "MLT_TEST_CARD"));
    assert p4 == p3["MLT_TEST_CARD" := SeededValue(b, os, "MLT_TEST_CARD")];
    var p5 := SetOrDefault(p4, "MLT_PROFILE", GetEnv(os, "MLT_PROFILE"), "dv_pal");
    assert p5 == p4["MLT_PROFILE" := SeededValue(b, os, "MLT_PROFILE")];
    var p6 := SetOrDefault(p5, "MLT_DATA", GetEnv(os, "MLT_DATA"), PrefixData(b));
    assert p6 == p5["MLT_DATA" := SeededValue(b, os, "MLT_DATA")];
    SixWrites(p, SeededValue(b, os, "MLT_NORMALISATION"), SeededValue(b, os, "MLT_PRODUCER"),
              SeededValue(b, os, "MLT_CONSUMER"), SeededValue(b, os, "MLT_TEST_CARD"),
              SeededValue(b, os, "MLT_PROFILE"), SeededValue(b, os, "MLT_DATA"));
  }

  /** Writing the six seeded keys in the source's order, whatever the values. */
  lemma SixWrites(p: Props, v1: Value, v2: Value, v3: Value, v4: Value, v5: Value, v6: Value)
    ensures
      var q := p["MLT_NORMALISATION" := v1]["MLT_PRODUCER" := v2]["MLT_CONSUMER" := v3]
                ["MLT_TEST_CARD" := v4]["MLT_PROFILE" := v5]["MLT_DATA" := v6];
      && q.Keys == p.Keys + SeedKeys()
      && q["MLT_NORMALISATION"] == v1 && q["MLT_PRODUCER"] == v2 && q["MLT_CONSUMER"] == v3
      && q["MLT_TEST_CARD"] == v4 && q["MLT_PROFILE"] == v5 && q["MLT_DATA"] == v6
      && (forall k :: k in p && k !in SeedKeys() ==> q[k] == p[k])
  {
    SeedKeysDistinct();
  }

  /** The construction a first init (or an init after a close) performs. */
  function Construct(f: Factory, b: Build, os: OsEnv, directory: Option<string>): Factory {
    var d := SelectDirectory(b, os, directory);
    Factory(Some(d), Some(map[]), true, StandardSlots(), true, Some(Repo(d)), true, true, f.uniqueId)
  }

  /** `mlt_factory_init`: the factory afterwards and the repository it returns. */
  function Init(f: Factory, b: Build, os: OsEnv, directory: Option<string>): (r: (Factory, Repo))
    requires Valid(f)
    ensures Valid(r.0) && Initialised(r.0)
    ensures r.0.uniqueId == f.uniqueId
    ensures r.0.repository == Some(r.1)
    ensures !Initialised(f) ==> r.0.directory == Some(SelectDirectory(b, os, directory))
    ensures !Initialised(f) ==> r.0.globals == Some(Seed(map[], b, os))
    ensures Initialised(f) ==> r.0 == f.(globals := Some(Seed(f.globals.value, b, os)))
  {
    var g := if Initialised(f) then f else Construct(f, b, os, directory);
    var h := g.(globals := Some(Seed(g.globals.value, b, os)));
    (h, h.repository.value)
  }

  /** `mlt_factory_close`: tears everything down when initialised, does nothing otherwise. */
  function Close(f: Factory): (r: Factory)
    requires Valid(f)
    ensures Valid(r) && !Initialised(r)
    ensures r.uniqueId == f.uniqueId
    ensures !Initialised(f) ==> r == f
    ensures r.globals == f.globals && r.events == f.events && r.repository == f.repository
  {
    if !Initialised(f) then f
    else f.(directory := None, globalsLive := false, eventsLive := false, repositoryLive := false, poolLive := false)
  }

  /** `mlt_factory_directory`. */
  function Directory(f: Factory): (d: Option<string>)
    requires Valid(f)
    ensures d.Some? <==> Initialised(f) && f.globalsLive && f.repositoryLive
  {
    f.directory
  }

  /** `mlt_environment`: NULL before the first init. */
  function EnvGet(f: Factory, name: string): (r: Option<string>)
    requires EnvReadable(f)
    ensures f.globals.None? ==> r.None?
    ensures f.globals.Some? && name !in f.globals.value ==> r.None?
  {
    if f.globals.None? then None else Get(f.globals.value, name)
  }

  /** `mlt_environment_set`: -1 and no change before the first init, 0 after storing the value. */
  function EnvSet(f: Factory, name: string, value: Option<string>): (r: (Factory, int))
    requires EnvReadable(f)
    ensures f.globals.None? ==> r == (f, -1)
    ensures f.globals.Some? ==> r.1 == 0 && r.0 == f.(globals := Some(f.globals.value[name := TextOrNull(value)]))
  {
    if f.globals.None? then (f, -1) else (f.(globals := Some(Set(f.globals.value, name, value))), 0)
  }

  /** The properties `set_common_properties` may write. */
  function StampKeys(): set<string> {
    {"_unique_id", "mlt_type", "mlt_service", "_profile"}
  }

  /** A service that has named itself and wants that name kept. */
  predicate ServiceHidden(p: Props) {
    GetInt(p, "_mlt_service_hidden") != 0
  }

  /** `set_common_properties`: take the next id, then tag the object. */
  function SetCommonProperties(f: Factory, props: Props, profile: Option<Profile>, kind: Kind, service: Option<string>): (r: (Factory, Props))
    ensures r.0 == f.(uniqueId := f.uniqueId + 1)
    ensures "_unique_id" in r.1 && r.1["_unique_id"] == Int(r.0.uniqueId)
    ensures "mlt_type" in r.1 && r.1["mlt_type"] == Text(KindName(kind))
    ensures !ServiceHidden(props) ==> "mlt_service" in r.1 && r.1["mlt_service"] == TextOrNull(service)
    ensures ServiceHidden(props) ==> ("mlt_service" in r.1 <==> "mlt_service" in props)
    ensures ServiceHidden(props) && "mlt_service" in props ==> r.1["mlt_service"] == props["mlt_service"]
    ensures profile.Some? ==> "_profile" in r.1 && r.1["_profile"] == Data(profile.value, None)
    ensures profile.None? ==> ("_profile" in r.1 <==> "_profile" in props)
    ensures profile.None? && "_profile" in props ==> r.1["_profile"] == props["_profile"]
    ensures r.1.Keys - StampKeys() == props.Keys - StampKeys()
    ensures forall k :: k in props && k !in StampKeys() ==> k in r.1 && r.1[k] == props[k]
  {
    var id := f.uniqueId + 1;
    var p1 := SetInt(props, "_unique_id", id);
    var p2 := Set(p1, "mlt_type", Some(KindName(kind)));
    var p3 := if GetInt(p2, "_mlt_service_hidden") == 0 then Set(p2, "mlt_service", service) else p2;
    var p4 := if profile.Some? then SetData(p3, "_profile", profile.value, None) else p3;
    (f.(uniqueId := id), p4)
  }

  /** The environment key holding the default service of a kind, if it has one. */
  function DefaultServiceKey(kind: Kind): Option<string> {
    match kind
    case Producer => Some("MLT_PRODUCER")
    case Consumer => Some("MLT_CONSUMER")
    case _ => None
  }

  /** The service name a creation uses: a NULL name is replaced only for producers and consumers. */
  function ResolveService(f: Factory, kind: Kind, service: Option<string>): (s: Option<string>)
    requires EnvReadable(f)
    ensures service.Some? ==> s == service
    ensures kind == Filter || kind == Transition ==> s == service
    ensures service.None? && kind == Producer ==> s == EnvGet(f, "MLT_PRODUCER")
    ensures service.None? && kind == Consumer ==> s == EnvGet(f, "MLT_CONSUMER")
  {
    if service.None? && DefaultServiceKey(kind).Some? then EnvGet(f, DefaultServiceKey(kind).value) else service
  }

  /** The outcome of one creation: the factory afterwards, the object returned, and what was fired. */
  datatype Created = Created(factory: Factory, obj: Option<Obj>, trace: seq<Signal>)

  /** Stamp an object: the next id and the tags, on its property set. */
  function StampObject(f: Factory, o: Obj, profile: Option<Profile>, kind: Kind, service: Option<string>): (r: (Factory, Obj))
    ensures r.0.uniqueId == f.uniqueId + 1
    ensures r.1.handle == o.handle
  {
    var s := SetCommonProperties(f, o.props, profile, kind, service);
    (s.0, o.(props := s.1))
  }

  /** Does this kind's path stamp an object a request listener supplied? Only the producer's does not. */
  predicate StampsSupplied(kind: Kind) {
    kind != Producer
  }

  /**
   * `mlt_factory_producer`, `_filter`, `_transition` and `_consumer`.
   * The request fires first; only when no listener supplied an object is the
   * repository asked and the done event fired; a non-NULL result is stamped,
   * except a producer supplied by a listener.
   */
  function Create(f: Factory, hub: Hub, creator: Creator, kind: Kind, profile: Option<Profile>, service: Option<string>, input: Input): (r: Created)
    requires Valid(f) && Initialised(f)
    ensures Valid(r.factory)
    ensures r.factory == f.(uniqueId := r.factory.uniqueId)
    ensures |r.trace| >= 1 && r.trace[0] == Requested(kind, ResolveService(f, kind, service))
    ensures
      var svc := ResolveService(f, kind, service);
      var supplied := TransmitCreateRequest(hub.request(kind), svc, input, None);
      && (supplied.Some? ==> r.trace == [Requested(kind, svc)])
      && (supplied.None? ==>
            var made := creator(f.repository.value, profile, kind, svc, input);
            && r.trace == [Requested(kind, svc), RepositoryAsked(kind, svc),
                           Done(kind, svc, made, TransmitCreateDone(hub.done(kind), svc, input, made))]
            && (r.obj.Some? <==> made.Some?)
            && (made.None? ==> r.factory.uniqueId == f.uniqueId)
            && (made.Some? ==>
                  && r.obj.value.handle == made.value.handle
                  && r.factory.uniqueId == f.uniqueId + 1
                  && r.obj.value.props == SetCommonProperties(f, made.value.props, profile, kind, svc).1))
      && (supplied.Some? ==> r.obj.Some? && r.obj.value.handle == supplied.value.handle)
      && (supplied.Some? && kind == Producer ==> r.obj == supplied && r.factory.uniqueId == f.uniqueId)
      && (supplied.Some? && kind != Producer ==>
            && r.factory.uniqueId == f.uniqueId + 1
            && r.obj.value.props == SetCommonProperties(f, supplied.value.props, profile, kind, svc).1)
  {
    var svc := ResolveService(f, kind, service);
    var supplied := TransmitCreateRequest(hub.request(kind), svc, input, None);
    if supplied.Some? then
      if StampsSupplied(kind) then
        var s := StampObject(f, supplied.value, profile, kind, svc);
        Created(s.0, Some(s.1), [Requested(kind, svc)])
      else
        Created(f, supplied, [Requested(kind, svc)])
    else
      var made := creator(f.repository.value, profile, kind, svc, input);
      var trace := [Requested(kind, svc), RepositoryAsked(kind, svc),
                    Done(kind, svc, made, TransmitCreateDone(hub.done(kind), svc, input, made))];
      if made.None? then
        Created(f, None, trace)
      else
        var s := StampObject(f, made.value, profile, kind, svc);
        Created(s.0, Some(s.1), trace)
  }

  /** The key `mlt_factory_register_for_clean_up` files an entry under: `%08d` of the current count. */
  function CleanUpKey(count: nat): (key: string)
    ensures AllDigits(key) && |key| >= 8
    ensures count < Pow10(8) ==> |key| == 8
    ensures NumberOf(key) == count
  {
    PadWidth(count, 8);
    ZeroPadRoundTrip(count, 8);
    ZeroPad(count, 8)
  }

  /** `mlt_factory_register_for_clean_up`: file the pointer and destructor under the next key. */
  function RegisterForCleanUp(f: Factory, ptr: nat, destructor: Option<nat>): (r: Factory)
    requires Valid(f) && Initialised(f)
    ensures Valid(r)
    ensures r == f.(globals := r.globals)
    ensures
      var key := CleanUpKey(|f.globals.value|);
      && r.globals == Some(f.globals.value[key := Data(ptr, destructor)])
      && |r.globals.value| == |f.globals.value| + (if key in f.globals.value then 0 else 1)
  {
    var g := f.globals.value;
    f.(globals := Some(SetData(g, CleanUpKey(|g|), ptr, destructor)))
  }
}
