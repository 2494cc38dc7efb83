/** `FeatureFlag` and `FeatureFlagOff`: which of their props each component renders. */
module FeatureFlagView {
  import opened Wrappers
  import opened FeatureFlags

  /** What a component renders: its children, its fallback, or nothing (`null`). */
  datatype View<N> = ShowChildren(children: N) | ShowFallback(fallback: N) | Empty

  /** `<FeatureFlag flag fallback>`: children when enabled, else the fallback, which defaults to `null`. */
  function FeatureFlag<N>(store: FeatureFlagStore, flag: FlagKey, remote: Remote, children: N, fallback: Option<N>): (v: View<N>)
    reads store
    ensures v.ShowChildren? <==> store.IsEnabled(flag, remote)
    ensures v.ShowChildren? ==> v.children == children
    ensures !v.ShowChildren? ==> v == (if fallback.Some? then ShowFallback(fallback.value) else Empty)
  {
    if store.IsEnabled(flag, remote) then ShowChildren(children)
    else match fallback
      case Some(f) => ShowFallback(f)
      case None => Empty
  }

  /** `<FeatureFlagOff flag>`: children when disabled, nothing when enabled. */
  function FeatureFlagOff<N>(store: FeatureFlagStore, flag: FlagKey, remote: Remote, children: N): (v: View<N>)
    reads store
    ensures v.ShowChildren? <==> !store.IsEnabled(flag, remote)
    ensures v.ShowChildren? ==> v.children == children
    ensures !v.ShowChildren? ==> v == Empty
  {
    if !store.IsEnabled(flag, remote) then ShowChildren(children) else Empty
  }

  /** For one flag, exactly one of the two components shows its children. */
  lemma ExactlyOneShows<N>(store: FeatureFlagStore, flag: FlagKey, remote: Remote, on: N, fallback: Option<N>, off: N)
    ensures FeatureFlag(store, flag, remote, on, fallback).ShowChildren?
        != FeatureFlagOff(store, flag, remote, off).ShowChildren?
  {
  }
}
