/** Properties of the init / close lifecycle and of the environment accessors. */
module Lifecycle {
  import opened Wrappers
  import opened Properties
  import opened Factory

  /** A repeated init ignores its directory argument, keeps the directory, event object and repository, and returns that repository. */
  lemma InitAgainKeepsState(f: Factory, b: Build, os: OsEnv, d1: Option<string>, d2: Option<string>)
    requires Valid(f) && Initialised(f)
    ensures Init(f, b, os, d1) == Init(f, b, os, d2)
    ensures Directory(Init(f, b, os, d1).0) == Directory(f)
    ensures Init(f, b, os, d1).0.events == f.events
    ensures Init(f, b, os, d1).0.repository == f.repository && Init(f, b, os, d1).1 == f.repository.value
  {
  }

  /** The refresh leaves a set it has already refreshed unchanged. */
  lemma SeedIdempotent(p: Props, b: Build, os: OsEnv)
    ensures Seed(Seed(p, b, os), b, os) == Seed(p, b, os)
  {
  }

  /** Init is idempotent: a second init with the same process environment changes nothing, whatever its directory argument. */
  lemma InitIdempotent(f: Factory, b: Build, os: OsEnv, d1: Option<string>, d2: Option<string>)
    requires Valid(f)
    ensures Init(Init(f, b, os, d1).0, b, os, d2).0 == Init(f, b, os, d1).0
    ensures Init(Init(f, b, os, d1).0, b, os, d2).1 == Init(f, b, os, d1).1
  {
    SeedIdempotent(if Initialised(f) then f.globals.value else map[], b, os);
  }

  /** A re-init reads the process environment again: every seeded key reflects the environment of the latest call. */
  lemma ReinitRefreshes(f: Factory, b: Build, os1: OsEnv, os2: OsEnv, d1: Option<string>, d2: Option<string>, name: string)
    requires Valid(f) && name in SeedKeys()
    ensures
      var g := Init(Init(f, b, os1, d1).0, b, os2, d2).0;
      g.globals.value[name] == SeededValue(b, os2, name)
  {
  }

  /** A value stored with `mlt_environment_set` under a seeded key does not survive a re-init. */
  lemma ReinitOverridesSetting(f: Factory, b: Build, os: OsEnv, d: Option<string>, name: string, value: Option<string>)
    requires Valid(f) && Initialised(f) && name in SeedKeys()
    ensures
      var g := Init(EnvSet(f, name, value).0, b, os, d).0;
      g.globals.value[name] == SeededValue(b, os, name)
  {
  }

  /** A re-init leaves every key other than the six seeded ones as it was. */
  lemma ReinitKeepsOtherKeys(f: Factory, b: Build, os: OsEnv, d: Option<string>, name: string)
    requires Valid(f) && Initialised(f) && name !in SeedKeys()
    ensures EnvGet(Init(f, b, os, d).0, name) == EnvGet(f, name)
  {
  }

  /** Close is idempotent; a second close does nothing. */
  lemma CloseIdempotent(f: Factory)
    requires Valid(f)
    ensures Close(Close(f)) == Close(f)
    ensures !Initialised(f) ==> Close(f) == f
  {
  }

  /** After a close, the next init builds afresh: its own directory argument counts, the earlier environment is gone, and the counter carries on. */
  lemma CloseThenInit(f: Factory, b: Build, os: OsEnv, d: Option<string>)
    requires Valid(f) && Initialised(f)
    ensures
      var g := Init(Close(f), b, os, d).0;
      && Directory(g) == Some(SelectDirectory(b, os, d))
      && g.globals == Some(Seed(map[], b, os))
      && g.globals.value.Keys == SeedKeys()
      && g.uniqueId == f.uniqueId
  {
  }

  /** Before the first init the environment reads NULL and refuses writes with -1. */
  lemma EnvironmentBeforeInit(name: string, value: Option<string>)
    ensures EnvGet(Uninitialised(), name).None?
    ensures EnvSet(Uninitialised(), name, value) == (Uninitialised(), -1)
  {
  }

  /** Once initialised, a written value reads back, and only that key changes. */
  lemma EnvironmentSetThenGet(f: Factory, name: string, value: Option<string>, other: string)
    requires Valid(f) && Initialised(f)
    ensures EnvSet(f, name, value).1 == 0
    ensures EnvGet(EnvSet(f, name, value).0, name) == value
    ensures other != name ==> EnvGet(EnvSet(f, name, value).0, other) == EnvGet(f, other)
  {
    GetAfterSet(f.globals.value, name, value, other);
  }

  /** Right after an init, the default producer and consumer names are the process values or "fezzik" and "sdl". */
  lemma InitDefaultServices(f: Factory, b: Build, os: OsEnv, d: Option<string>)
    requires Valid(f)
    ensures EnvGet(Init(f, b, os, d).0, "MLT_PRODUCER") == Some(GetEnv(os, "MLT_PRODUCER").GetOr("fezzik"))
    ensures EnvGet(Init(f, b, os, d).0, "MLT_CONSUMER") == Some(GetEnv(os, "MLT_CONSUMER").GetOr("sdl"))
    ensures EnvGet(Init(f, b, os, d).0, "MLT_TEST_CARD") == GetEnv(os, "MLT_TEST_CARD")
  {
  }
}
