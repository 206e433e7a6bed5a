/** Properties of the clean-up registry keys. */
module CleanUp {
  import opened Wrappers
  import opened Decimal
  import opened Properties
  import opened Factory

  /** Different counts give different keys, so keys of different counts never collide. */
  lemma KeysDistinct(m: nat, n: nat)
    requires m != n
    ensures CleanUpKey(m) != CleanUpKey(n)
  {
  }

  /** Two registrations in a row under a fresh key keep both entries, under two distinct keys. */
  lemma SuccessiveRegistrationsKeepBoth(f: Factory, p1: nat, d1: Option<nat>, p2: nat, d2: Option<nat>)
    requires Valid(f) && Initialised(f) && CleanUpKey(|f.globals.value|) !in f.globals.value
    ensures
      var n := |f.globals.value|;
      var g := RegisterForCleanUp(RegisterForCleanUp(f, p1, d1), p2, d2).globals.value;
      && CleanUpKey(n) != CleanUpKey(n + 1)
      && g[CleanUpKey(n)] == Data(p1, d1)
      && g[CleanUpKey(n + 1)] == Data(p2, d2)
  {
    KeysDistinct(|f.globals.value|, |f.globals.value| + 1);
  }

  /**
   * When the key for the current count is already taken (by an environment
   * entry of that name), a registration replaces it without growing the set,
   * so the next registration reuses the key and the first entry is lost.
   */
  lemma TakenKeyIsReused(f: Factory, p1: nat, d1: Option<nat>, p2: nat, d2: Option<nat>)
    requires Valid(f) && Initialised(f) && CleanUpKey(|f.globals.value|) in f.globals.value
    ensures
      var key := CleanUpKey(|f.globals.value|);
      var g1 := RegisterForCleanUp(f, p1, d1);
      var g2 := RegisterForCleanUp(g1, p2, d2);
      && |g1.globals.value| == |f.globals.value|
      && g2.globals.value == f.globals.value[key := Data(p2, d2)]
  {
  }
}
