# MLT factory singleton, modelled in Dafny

This project models the factory of the MLT multimedia framework
(`src/framework/mlt_factory.c`). The factory is a process-wide singleton.
It turns a service kind (producer, filter, transition or consumer) and a
service name into a tagged service object. It owns the module directory,
the global "environment" property set, the event object and the repository
handle. It also keeps the counter that hands out `_unique_id`s.

The singleton is an immutable `Factory.Factory` record. Every entry point is
a pure transition function on that record:

- `Init` models `mlt_factory_init`.
- `Close` models `mlt_factory_close`.
- `Directory` models `mlt_factory_directory`.
- `EnvGet` and `EnvSet` model `mlt_environment` and `mlt_environment_set`.
- `SetCommonProperties` models `set_common_properties`.
- `Create` covers the four `mlt_factory_<kind>` functions. It branches on the kind where they differ.
- `RegisterForCleanUp` and `CleanUpKey` model `mlt_factory_register_for_clean_up`.
- `Events.TransmitCreateRequest` and `Events.TransmitCreateDone` model the two transmitters.

Everything outside this file is a parameter:

- the process environment (`OsEnv`, what `getenv` returns);
- the compile-time `LIBDIR` and `PREFIX` (`Build`);
- the listeners attached to the event object (`Events.Hub`): a request listener is a function that may write an object into the out-slot, and a done listener is an observer that receives a `Notice`;
- the repository's constructor (`Creator`, which may return NULL).

Property sets, for objects and for the environment alike, are
`map<string, Value>`. A value is NULL, a string, an integer, or data (a
reference plus an optional destructor). The clean-up key counts every global
property, environment entries included, so the two share one map.

`globals` is `None` while `global_properties` is still NULL, which is the
case before the first init. After a close it still holds the freed set, and
`globalsLive` is false. `Session.Run` runs any sequence of calls. Its
contract shows that stamped ids are exactly the numbers following the
starting counter, one per stamp, across all kinds and all close/init cycles.

Modules:

- `Wrappers`: the `Option` type.
- `Decimal`: the `%d` and `%08d` conversions, and reading digits back.
- `Properties`: the property-store contract the factory relies on.
- `Service`: kinds and objects.
- `Events`: slots, transmitters and signals.
- `Factory`: the state and its transitions.
- `Lifecycle`, `Creation`, `CleanUp` and `Session`: properties of the model.

## Model

| member | source | states |
|---|---|---|
| Factory.SelectDirectory | src/framework/mlt_factory.c:63-69 | A first init uses the argument when it is non-NULL and non-empty. Otherwise it uses `MLT_REPOSITORY` when that is set, even if empty. Otherwise it uses `LIBDIR "/mlt"`. |
| Factory.Init | src/framework/mlt_factory.c:58-111 | Afterwards the factory is initialised and valid, and the counter is untouched. Init returns the stored repository. A first init stores the selected directory and a fresh environment holding only the seeded keys. A repeated init changes nothing except the refreshed environment. |
| Factory.Seed | src/framework/mlt_factory.c:99-108 | The refresh adds exactly the six seeded keys. Each defaulted key holds the process value, else its fallback ("PAL", "fezzik", "sdl", "dv_pal", `PREFIX "/share/mlt"`). `MLT_TEST_CARD` holds the process value or NULL. Every other key is unchanged. |
| Factory.Close | src/framework/mlt_factory.c:278-289 | Close leaves a valid, uninitialised factory with the counter unchanged. It does nothing when the factory is not initialised. The freed event object, environment and repository stay behind as stale references. |
| Factory.Directory | src/framework/mlt_factory.c:125-128 | The directory is present exactly while the factory is initialised and its environment and repository are live. |
| Factory.EnvGet | src/framework/mlt_factory.c:133-139 | Reads NULL before the first init and for absent keys. |
| Factory.EnvSet | src/framework/mlt_factory.c:144-150 | Returns -1 with no change before the first init. Otherwise it returns 0 and stores the value, possibly NULL, under that one key. |
| Factory.SetCommonProperties | src/framework/mlt_factory.c:152-160 | The counter grows by exactly one and `_unique_id` gets the new value. `mlt_type` gets the kind. `mlt_service` gets the name unless the hidden flag is set, and then stays as it was. `_profile` gets the profile only when one is given. No key outside these four changes. |
| Factory.ResolveService | src/framework/mlt_factory.c:169-171 | A NULL name becomes env `MLT_PRODUCER` for producers and `MLT_CONSUMER` for consumers. Filters and transitions keep the name as given. A non-NULL name is never replaced. |
| Factory.Create | src/framework/mlt_factory.c:165-262 | The request fires first. If a listener supplied an object, that is the whole trace. Otherwise the repository is asked and the done event fires with its result. A NULL result is returned unstamped. A listener's producer is returned exactly as supplied. A repository-made object, and a listener's filter, transition or consumer, come back as that object with the stamp applied to its own properties. Only the counter of the factory may change. |
| Factory.CleanUpKey | src/framework/mlt_factory.c:270-271 | The key is all digits and at least 8 long. It is exactly 8 long below 10^8, and it reads back as the count. |
| Factory.RegisterForCleanUp | src/framework/mlt_factory.c:268-273 | Files the pointer and destructor under the key for the current property count. The count grows by one unless that key was already taken. Nothing else changes. |
| Events.TransmitCreateRequest | src/framework/mlt_factory.c:43-47 | With no listener the out-slot keeps its content. Otherwise the slot holds whatever the listener leaves in it. |
| Events.TransmitCreateDone | src/framework/mlt_factory.c:49-53 | With no listener nothing is delivered. Otherwise the listener receives the name, the input and the created object unchanged. |
| Events.StandardSlotsShape | src/framework/mlt_factory.c:77-87 | Init registers eight distinct slots. Each kind's request slot uses the request transmitter and its done slot uses the done transmitter. |
| Lifecycle.InitAgainKeepsState | src/framework/mlt_factory.c:60-111 | On an initialised factory the directory argument is ignored. Directory, event object and repository stay, and the same repository is returned. |
| Lifecycle.SeedIdempotent | src/framework/mlt_factory.c:99-108 | Refreshing twice from the same process environment equals refreshing once. |
| Lifecycle.InitIdempotent | src/framework/mlt_factory.c:58-111 | A second init with the same process environment changes nothing and returns the same repository. |
| Lifecycle.ReinitRefreshes | src/framework/mlt_factory.c:99-108 | After a re-init, each seeded key reflects the process environment of the latest call. |
| Lifecycle.ReinitOverridesSetting | src/framework/mlt_factory.c:99-108 | A value written with `mlt_environment_set` under a seeded key is replaced by the next init. |
| Lifecycle.ReinitKeepsOtherKeys | src/framework/mlt_factory.c:99-108 | A re-init leaves every non-seeded environment key as it was. |
| Lifecycle.CloseIdempotent | src/framework/mlt_factory.c:278-289 | Two closes equal one close. A close on an uninitialised factory is the identity. |
| Lifecycle.CloseThenInit | src/framework/mlt_factory.c:58-97 | After a close, init builds afresh. The new directory argument counts, the environment holds only the seeded keys, and the counter carries on. |
| Lifecycle.EnvironmentBeforeInit | src/framework/mlt_factory.c:133-150 | Before the first init, reads give NULL and writes give -1 without change. |
| Lifecycle.EnvironmentSetThenGet | src/framework/mlt_factory.c:133-150 | Once initialised, a written value reads back and no other key's value changes. |
| Lifecycle.InitDefaultServices | src/framework/mlt_factory.c:102-105 | After init the default producer is the process value or "fezzik". The default consumer is the process value or "sdl". The test card is the process value or NULL. |
| Creation.HiddenSparesOnlyName | src/framework/mlt_factory.c:152-160 | Stamping a hidden set differs from stamping the same set unhidden only in `mlt_service`. That tag keeps its old value, and id, kind tag, profile and other keys agree. |
| Creation.RepositoryOnlyWhenUnanswered | src/framework/mlt_factory.c:173-180 | The request signal comes first. The repository is consulted, and the done event fired after it, if and only if no listener supplied an object. |
| Creation.NoListenerMeansRepository | src/framework/mlt_factory.c:43-47 | With no request listener for a kind, every creation asks the repository. |
| Creation.SuppliedObjectStamping | src/framework/mlt_factory.c:177-211 | A listener-supplied object is returned. It and the factory are left untouched if and only if the kind is producer. Otherwise it gets the next id and the kind tag. |
| Creation.RepositoryObjectStamping | src/framework/mlt_factory.c:251-262 | A repository-made object, on every path, carries the stamp of its constructor's properties: the next id and the kind tag, the name tag unless the object hid its name (then its own name stays), the profile when given, and every other property its constructor set. A NULL result leaves the factory unchanged. |
| Creation.DefaultServiceName | src/framework/mlt_factory.c:245-246 | With a NULL name the request fires with env `MLT_PRODUCER` or `MLT_CONSUMER` for those kinds, and with NULL for filters and transitions. |
| Session.Step | src/framework/mlt_factory.c:152-154 | One call keeps the factory valid and raises the counter by the number of objects it stamped, each stamped with the next number. It leaves the model exactly for a creation or registration while not initialised (NULL or freed collaborators are handed to code outside the model), or an environment write after a close (a use of the freed set). |
| Session.Run | src/framework/mlt_factory.c:38 | Over any sequence of calls, the stamped ids are exactly counter+1, counter+2, and so on, one per stamp. The counter ends at the start value plus their number. |
| Session.IdsStrictlyIncrease | src/framework/mlt_factory.c:154 | Stamped ids strictly increase over a session, so they are pairwise distinct across kinds and close/init cycles. |
| Session.LifecycleKeepsCounter | src/framework/mlt_factory.c:278-289 | Any sequence of inits and closes leaves the counter where it was. |
| CleanUp.KeysDistinct | src/framework/mlt_factory.c:271 | Different counts give different keys. |
| CleanUp.SuccessiveRegistrationsKeepBoth | src/framework/mlt_factory.c:268-273 | Two registrations in a row, starting from a free key, keep both entries under two distinct keys. |
| CleanUp.TakenKeyIsReused | src/framework/mlt_factory.c:268-273 | When the current count's key is already taken, a registration overwrites it without growing the set. The next registration then reuses the key, and the first entry is lost. |

## Behaviour of the code worth knowing

- Only the producer path skips stamping an object a request listener supplied (lines 177-186). The filter, transition and consumer paths stamp any non-NULL result (lines 206-210, 230-234, 257-261), and so does the model.
- `atexit` is called on every fresh init, including one after a close (line 96). The extra hooks are harmless because close is idempotent.
- An empty `MLT_REPOSITORY` is used as the directory. Line 68 only checks for NULL.

## Left out

- `util.h`: colour conversion, shader compilation, file reading and matrix printing are floating-point and graphics code outside the factory.
- Pool start and stop, `strdup`/`free` of the directory and the `atexit` registration (lines 72, 75, 96, 285, 287) are process plumbing. The state keeps only a `poolLive` flag.
- The event hub's variadic dispatch and listener registration (lines 78-87) are outside the model. There is at most one listener per slot, given as a parameter. Listeners do not survive a close in the code, and the model does not track them.
- `mlt_factory_event_object` (lines 117-120) is represented only by the `events` slot table.
- Repository scanning and `mlt_repository_create` are outside the model. The repository handle is identified by its directory, and creation is an arbitrary function. `mlt_repository_init` and `mlt_properties_new` are assumed never to fail.
- Property-store internals are outside the model. `set_or_default` is assumed to store the value when it is non-NULL and the fallback otherwise. `get_int` on a string is assumed to read an optional minus sign and the leading decimal digits. `get` on a data-only property is assumed to give NULL. `set` is assumed to return 0.
- Factory.EnvGet: requires a readable environment. After a close `global_properties` is freed but not reset to NULL, so access is a use-after-free, not a NULL result.
- Factory.EnvSet: requires a readable environment, for the same reason.
- Factory.Create: requires an initialised factory. Before init the code passes NULL event and repository objects to code outside this model.
- Factory.RegisterForCleanUp: requires an initialised factory. The code has no NULL guard, and what the property store does with NULL is not part of this model.
- Running the registered destructors at close is outside the model, and no ordering is claimed. It happens inside the property store.
- `unique_id` is a C `int` (line 38), and the model's counter is unbounded. The id guarantees hold only for fewer than 2^31 - 1 stamps. Signed overflow is undefined in C.
- The teardown order inside close (event object, environment, repository) is outside the model. Only the resulting liveness flags are kept.
- Whether a filter or transition with a NULL name yields NULL depends on the repository, so the model does not claim it.
- Re-entry: repository constructors and listeners are pure functions here, so they cannot call back into the factory. In the code they are arbitrary code; a normalising producer (line 169), for one, creates further services through the factory. Such a call advances `unique_id` or writes the environment between the request and the stamp. Factory.Create's "only the counter changes" and "counter + 1" hold only for creations that do not re-enter the factory.
- Concurrency: the singleton is unsynchronised by design, and the model is sequential.
