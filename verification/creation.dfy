/** Properties of stamping and of the request / create / done protocol. */
module Creation {
  import opened Wrappers
  import opened Properties
  import opened Service
  import opened Events
  import opened Factory

  /**
   * The hidden-service flag spares only the service-name tag: stamping a
   * hidden set and the same set with the flag cleared gives the same id,
   * kind tag, profile and other properties; only `mlt_service` differs,
   * and the hidden one keeps what it had.
   */
  lemma HiddenSparesOnlyName(f: Factory, props: Props, profile: Option<Profile>, kind: Kind, service: Option<string>)
    requires ServiceHidden(props)
    ensures
      var shown := props["_mlt_service_hidden" := Int(0)];
      var a := SetCommonProperties(f, props, profile, kind, service);
      var u := SetCommonProperties(f, shown, profile, kind, service);
      && a.0 == u.0
      && (forall k :: k != "mlt_service" && k != "_mlt_service_hidden" ==> (k in a.1 <==> k in u.1))
      && (forall k :: k in a.1 && k != "mlt_service" && k != "_mlt_service_hidden" ==> a.1[k] == u.1[k])
      && ("mlt_service" in a.1 <==> "mlt_service" in props)
      && ("mlt_service" in props ==> a.1["mlt_service"] == props["mlt_service"])
      && u.1["mlt_service"] == TextOrNull(service)
  {
  }

  /** Whether a request listener answered a creation. */
  function Supplied(f: Factory, hub: Hub, kind: Kind, service: Option<string>, input: Input): Option<Obj>
    requires EnvReadable(f)
  {
    TransmitCreateRequest(hub.request(kind), ResolveService(f, kind, service), input, None)
  }

  /** The request fires first; the repository is asked, and the done event fired after it, exactly when no listener supplied an object. */
  lemma RepositoryOnlyWhenUnanswered(f: Factory, hub: Hub, creator: Creator, kind: Kind, profile: Option<Profile>, service: Option<string>, input: Input)
    requires Valid(f) && Initialised(f)
    ensures
      var r := Create(f, hub, creator, kind, profile, service, input);
      && r.trace[0].Requested?
      && ((exists i :: 0 <= i < |r.trace| && r.trace[i].RepositoryAsked?) <==> Supplied(f, hub, kind, service, input).None?)
      && ((exists i :: 0 <= i < |r.trace| && r.trace[i].Done?) <==> Supplied(f, hub, kind, service, input).None?)
      && (forall i, j :: 0 <= i < |r.trace| && 0 <= j < |r.trace| && r.trace[i].RepositoryAsked? && r.trace[j].Done? ==> 0 < i < j)
  {
    var r := Create(f, hub, creator, kind, profile, service, input);
    if Supplied(f, hub, kind, service, input).None? {
      assert r.trace[1].RepositoryAsked? && r.trace[2].Done?;
    }
  }

  /** Without any request listener, every creation goes to the repository. */
  lemma NoListenerMeansRepository(f: Factory, hub: Hub, creator: Creator, kind: Kind, profile: Option<Profile>, service: Option<string>, input: Input)
    requires Valid(f) && Initialised(f) && hub.request(kind).None?
    ensures |Create(f, hub, creator, kind, profile, service, input).trace| == 3
    ensures Create(f, hub, creator, kind, profile, service, input).trace[1]
            == RepositoryAsked(kind, ResolveService(f, kind, service))
  {
  }

  /**
   * An object a request listener supplies is returned untouched by the
   * producer path and stamped with a fresh id and the kind tag by every
   * other path.
   */
  lemma SuppliedObjectStamping(f: Factory, hub: Hub, creator: Creator, kind: Kind, profile: Option<Profile>, service: Option<string>, input: Input)
    requires Valid(f) && Initialised(f) && Supplied(f, hub, kind, service, input).Some?
    ensures
      var r := Create(f, hub, creator, kind, profile, service, input);
      var o := Supplied(f, hub, kind, service, input).value;
      && r.obj.Some? && r.obj.value.handle == o.handle
      && (kind == Producer <==> r.obj.value == o && r.factory == f)
      && (kind != Producer ==>
            && r.factory.uniqueId == f.uniqueId + 1
            && r.obj.value.props["_unique_id"] == Int(f.uniqueId + 1)
            && r.obj.value.props["mlt_type"] == Text(KindName(kind)))
  {
    var r := Create(f, hub, creator, kind, profile, service, input);
    if kind != Producer {
      assert r.factory.uniqueId == f.uniqueId + 1;
    }
  }

  /**
   * A repository-made object is stamped on every path: the constructor's
   * object gets the next id and the kind tag, its name tag unless it hid its
   * name (then its own name stays), the profile when one is given, and every
   * other property its constructor set survives. A NULL result leaves the
   * factory as it was.
   */
  lemma RepositoryObjectStamping(f: Factory, hub: Hub, creator: Creator, kind: Kind, profile: Option<Profile>, service: Option<string>, input: Input)
    requires Valid(f) && Initialised(f) && Supplied(f, hub, kind, service, input).None?
    ensures
      var r := Create(f, hub, creator, kind, profile, service, input);
      var svc := ResolveService(f, kind, service);
      var made := creator(f.repository.value, profile, kind, svc, input);
      && (made.None? ==> r.obj.None? && r.factory == f)
      && (made.Some? ==>
            var built := made.value.props;
            var p := r.obj.value.props;
            && r.obj.value.handle == made.value.handle
            && r.factory.uniqueId == f.uniqueId + 1
            && p == SetCommonProperties(f, built, profile, kind, svc).1
            && p["_unique_id"] == Int(f.uniqueId + 1)
            && p["mlt_type"] == Text(KindName(kind))
            && (!ServiceHidden(built) ==> p["mlt_service"] == TextOrNull(svc))
            && (ServiceHidden(built) && "mlt_service" in built ==> p["mlt_service"] == built["mlt_service"])
            && (profile.Some? ==> p["_profile"] == Data(profile.value, None))
            && (forall k :: k in built && k !in StampKeys() ==> k in p && p[k] == built[k]))
  {
  }

  /** A NULL name becomes the environment's default producer or consumer; filters and transitions keep NULL. */
  lemma DefaultServiceName(f: Factory, hub: Hub, creator: Creator, kind: Kind, profile: Option<Profile>, input: Input)
    requires Valid(f) && Initialised(f)
    ensures
      var r := Create(f, hub, creator, kind, profile, None, input);
      && (kind == Producer ==> r.trace[0] == Requested(Producer, EnvGet(f, "MLT_PRODUCER")))
      && (kind == Consumer ==> r.trace[0] == Requested(Consumer, EnvGet(f, "MLT_CONSUMER")))
      && (kind == Filter || kind == Transition ==> r.trace[0] == Requested(kind, None))
  {
  }
}
