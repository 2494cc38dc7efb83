/**
 * The feature-flag store: built-in defaults, local overrides and the remote
 * provider, resolved per key, plus `initFeatureFlags`.
 */
module FeatureFlags {
  import opened Wrappers

  /** `FeatureFlagKey`: the keys of `FeatureFlags`. */
  datatype FlagKey = NewDashboard | DarkModeV2 | BetaFeatures | MaintenanceMode

  /** `FeatureFlagValue`: boolean | string | number (numbers as integers here). */
  datatype FlagValue = BoolFlag(b: bool) | StringFlag(s: string) | NumberFlag(n: int)

  /** `FeatureFlags`: a boolean per key. */
  type Flags = map<FlagKey, bool>

  /** `Partial<FeatureFlags>`: a key may be absent, or present and holding `undefined` (None). */
  type Overrides = map<FlagKey, Option<bool>>

  /** `defaultFlags`: every flag off. */
  const DefaultFlags: Flags :=
    map[NewDashboard := false, DarkModeV2 := false, BetaFeatures := false, MaintenanceMode := false]

  /** The remote source as the store calls it; None is `undefined`. */
  datatype Remote = Remote(isFeatureEnabled: FlagKey -> Option<bool>, getFeatureFlag: FlagKey -> Option<FlagValue>)

  /**
   * The analytics wrapper the store actually calls: whether the SDK was
   * initialised, and the SDK's own answers (which may be `undefined`).
   */
  datatype PostHog = PostHog(initialized: bool, sdkIsEnabled: FlagKey -> Option<bool>, sdkGetFlag: FlagKey -> Option<FlagValue>)

  /** The wrapper's `isFeatureEnabled`: false when uninitialised, otherwise the SDK answer `?? false`. */
  function IsFeatureEnabled(p: PostHog, key: FlagKey): (r: bool)
    ensures !p.initialized ==> !r
    ensures p.initialized && p.sdkIsEnabled(key).None? ==> !r
    ensures p.initialized && p.sdkIsEnabled(key).Some? ==> r == p.sdkIsEnabled(key).value
  {
    if !p.initialized then false else p.sdkIsEnabled(key).GetOr(false)
  }

  /** The wrapper's `getFeatureFlag`: `undefined` when uninitialised, otherwise the SDK answer. */
  function GetFeatureFlag(p: PostHog, key: FlagKey): (r: Option<FlagValue>)
    ensures !p.initialized ==> r.None?
    ensures p.initialized ==> r == p.sdkGetFlag(key)
  {
    if !p.initialized then None else p.sdkGetFlag(key)
  }

  /** The wrapper as the store's remote source: its `isFeatureEnabled` is never `undefined`. */
  function AsRemote(p: PostHog): (r: Remote)
    ensures forall key :: r.isFeatureEnabled(key) == Some(IsFeatureEnabled(p, key))
    ensures forall key :: r.getFeatureFlag(key) == GetFeatureFlag(p, key)
  {
    Remote(key => Some(IsFeatureEnabled(p, key)), key => GetFeatureFlag(p, key))
  }

  /** The part of `FeatureFlagConfig` that `initFeatureFlags` reads. */
  datatype FlagConfig = FlagConfig(defaults: Flags, overrides: Option<Overrides>)

  class FeatureFlagStore {
    var flags: Flags
    var overrides: Overrides
    var isLoaded: bool

    /** The store as created: defaults, no overrides, not loaded. */
    constructor ()
      ensures flags == DefaultFlags && overrides == map[] && !isLoaded
    {
      flags := DefaultFlags;
      overrides := map[];
      isLoaded := false;
    }

    /** `setOverride(key, value)`: inserts or replaces that one override. */
    method SetOverride(key: FlagKey, value: bool)
      modifies this
      ensures overrides == old(overrides)[key := Some(value)]
      ensures forall k :: k != key && k in old(overrides) ==> k in overrides && overrides[k] == old(overrides)[k]
      ensures flags == old(flags) && isLoaded == old(isLoaded)
    {
      overrides := overrides[key := Some(value)];
    }

    /** `clearOverrides()`. */
    method ClearOverrides()
      modifies this
      ensures overrides == map[]
      ensures flags == old(flags) && isLoaded == old(isLoaded)
    {
      overrides := map[];
    }

    /** The loaded callback registered by `initFeatureFlags`. */
    method OnFlagsLoaded()
      modifies this
      ensures isLoaded
      ensures flags == old(flags) && overrides == old(overrides)
    {
      isLoaded := true;
    }

    /** `isEnabled(key)`: override, then remote, then `flags[key] ?? false`. */
    function IsEnabled(key: FlagKey, remote: Remote): (r: bool)
      reads this
      // An override decides alone; an override holding `undefined` reads as false.
      ensures key in overrides ==> r == (overrides[key] == Some(true))
      // Without an override, a defined remote answer decides.
      ensures key !in overrides && remote.isFeatureEnabled(key).Some?
          ==> r == remote.isFeatureEnabled(key).value
      // Otherwise the store's flag, and false when even that is missing.
      ensures key !in overrides && remote.isFeatureEnabled(key).None?
          ==> r == (key in flags && flags[key])
    {
      if key in overrides then overrides[key].GetOr(false)
      else match remote.isFeatureEnabled(key)
        case Some(v) => v
        case None => if key in flags then flags[key] else false
    }

    /** `getValue(key)`: override, then remote, then `undefined`; the defaults are never read. */
    function GetValue(key: FlagKey, remote: Remote): (r: Option<FlagValue>)
      reads this
      ensures key in overrides && overrides[key].Some? ==> r == Some(BoolFlag(overrides[key].value))
      ensures key in overrides && overrides[key].None? ==> r == None
      ensures key !in overrides ==> r == remote.getFeatureFlag(key)
    {
      if key in overrides then
        match overrides[key]
        case Some(b) => Some(BoolFlag(b))
        case None => None
      else remote.getFeatureFlag(key)
    }
  }

  /**
   * `initFeatureFlags(config)`: `config.defaults` merged over the built-in
   * defaults (not over the current flags), `config.overrides` replacing the
   * overrides wholesale, and the loaded callback registered only when the
   * wrapper is initialised. `isLoaded` itself is left to that callback.
   */
  method InitFeatureFlags(store: FeatureFlagStore, config: Option<FlagConfig>, p: PostHog) returns (listening: bool)
    modifies store
    ensures store.flags == if config.Some? then DefaultFlags + config.value.defaults else old(store.flags)
    ensures store.overrides == if config.Some? && config.value.overrides.Some? then config.value.overrides.value
                               else old(store.overrides)
    ensures store.isLoaded == old(store.isLoaded)
    ensures listening == p.initialized
  {
    if config.Some? {
      store.flags := DefaultFlags + config.value.defaults;
    }
    if config.Some? && config.value.overrides.Some? {
      store.overrides := config.value.overrides.value;
    }
    listening := p.initialized;
  }

  /** The merged defaults cover every key; a key given in the config takes the config's value. */
  lemma MergedDefaults(d: Flags, key: FlagKey)
    ensures key in DefaultFlags + d
    ensures (DefaultFlags + d)[key] == if key in d then d[key] else false
  {
  }

  /**
   * With the real wrapper, the remote answer is never `undefined`, so `isEnabled`
   * never reaches the store's defaults: without an override it is the wrapper's answer.
   */
  lemma PostHogNeverReachesDefaults(store: FeatureFlagStore, p: PostHog, key: FlagKey)
    ensures store.IsEnabled(key, AsRemote(p))
         == if key in store.overrides then store.overrides[key] == Some(true) else IsFeatureEnabled(p, key)
  {
  }

  /** Consequently, before the wrapper is initialised, a flag without an override is off even if its default is on. */
  lemma UninitialisedPostHogIgnoresDefaults(store: FeatureFlagStore, p: PostHog, key: FlagKey)
    requires !p.initialized && key !in store.overrides
    ensures !store.IsEnabled(key, AsRemote(p))
  {
    PostHogNeverReachesDefaults(store, p, key);
  }

  /** `getValue` depends on the overrides and the remote only: two stores that differ only in flags agree. */
  lemma GetValueIgnoresFlags(a: FeatureFlagStore, b: FeatureFlagStore, key: FlagKey, remote: Remote)
    requires a.overrides == b.overrides
    ensures a.GetValue(key, remote) == b.GetValue(key, remote)
  {
  }

  /** Without overrides (after `clearOverrides`), `isEnabled` is the remote answer, else the store's flag. */
  lemma NoOverridesFallsThrough(store: FeatureFlagStore, key: FlagKey, remote: Remote)
    requires store.overrides == map[]
    ensures store.IsEnabled(key, remote)
         == remote.isFeatureEnabled(key).GetOr(key in store.flags && store.flags[key])
  {
  }

  /** An override beats the remote and the defaults: override on, remote off, default off gives on. */
  lemma OverrideWins(store: FeatureFlagStore, key: FlagKey, remote: Remote)
    requires key in store.overrides && store.overrides[key] == Some(true)
    requires remote.isFeatureEnabled(key) == Some(false)
    requires key in store.flags && !store.flags[key]
    ensures store.IsEnabled(key, remote)
  {
  }

  /** A remote source with no answer falls through to the store's flag. */
  lemma SilentRemoteFallsToDefault(store: FeatureFlagStore, key: FlagKey, remote: Remote)
    requires key !in store.overrides && remote.isFeatureEnabled(key).None?
    requires key in store.flags && store.flags[key]
    ensures store.IsEnabled(key, remote)
  {
  }

  /** With no override and no remote value, `getValue` is `undefined`, while `isEnabled` still gives a boolean. */
  lemma GetValueUndefinedWithoutSources(store: FeatureFlagStore, key: FlagKey, remote: Remote)
    requires key !in store.overrides && remote.getFeatureFlag(key).None?
    ensures store.GetValue(key, remote) == None
  {
  }
}
