/**
 * The ARIA attribute filter built in `LiveRegion.render` and, without
 * `aria-busy`, again in `AriaLive.render` (src/app.jsx). A setting whose
 * value is the sentinel `[disabled]` is left out of the attribute set.
 */
module Aria {
  import opened Wrappers

  const Disabled := "[disabled]"

  /** The four user-selectable ARIA settings of a region. */
  datatype AriaConfig = AriaConfig(role: string, ariaLive: string, ariaAtomic: string, ariaRelevant: string)

  /** An attribute value: the text of a setting, or the `aria-busy` flag
      (`None` while the component has not yet set `ariaBusy`). */
  datatype AttrValue = Text(text: string) | BusyFlag(busy: Option<bool>)

  type Attrs = map<string, AttrValue>

  /** The attribute named `name` is present exactly when `value` is not the
      sentinel, and then carries `value` unchanged. */
  predicate Emitted(r: Attrs, name: string, value: string) {
    (name in r <==> value != Disabled) && (name in r ==> r[name] == Text(value))
  }

  /** The `ariaProps` object of `LiveRegion.render`. */
  function RegionAttrs(cfg: AriaConfig, busyEnabled: bool, busy: Option<bool>): (r: Attrs)
    ensures Emitted(r, "role", cfg.role)
    ensures Emitted(r, "aria-live", cfg.ariaLive)
    ensures Emitted(r, "aria-atomic", cfg.ariaAtomic)
    ensures Emitted(r, "aria-relevant", cfg.ariaRelevant)
    ensures "aria-busy" in r <==> busyEnabled
    ensures busyEnabled ==> r["aria-busy"] == BusyFlag(busy)
    ensures r.Keys <= {"aria-busy", "role", "aria-live", "aria-atomic", "aria-relevant"}
  {
    var p0: Attrs := if busyEnabled then map["aria-busy" := BusyFlag(busy)] else map[];
    var p1 := if cfg.role != Disabled then p0["role" := Text(cfg.role)] else p0;
    var p2 := if cfg.ariaLive != Disabled then p1["aria-live" := Text(cfg.ariaLive)] else p1;
    var p3 := if cfg.ariaAtomic != Disabled then p2["aria-atomic" := Text(cfg.ariaAtomic)] else p2;
    if cfg.ariaRelevant != Disabled then p3["aria-relevant" := Text(cfg.ariaRelevant)] else p3
  }

  /** The `ariaProps` object of `AriaLive.render`, which has no `aria-busy`. */
  function LiveAttrs(cfg: AriaConfig): (r: Attrs)
    ensures Emitted(r, "role", cfg.role)
    ensures Emitted(r, "aria-live", cfg.ariaLive)
    ensures Emitted(r, "aria-atomic", cfg.ariaAtomic)
    ensures Emitted(r, "aria-relevant", cfg.ariaRelevant)
    ensures r.Keys <= {"role", "aria-live", "aria-atomic", "aria-relevant"}
  {
    var p0: Attrs := map[];
    var p1 := if cfg.role != Disabled then p0["role" := Text(cfg.role)] else p0;
    var p2 := if cfg.ariaLive != Disabled then p1["aria-live" := Text(cfg.ariaLive)] else p1;
    var p3 := if cfg.ariaAtomic != Disabled then p2["aria-atomic" := Text(cfg.ariaAtomic)] else p2;
    if cfg.ariaRelevant != Disabled then p3["aria-relevant" := Text(cfg.ariaRelevant)] else p3
  }

  /** The two copies of the filter agree: AriaLive's is LiveRegion's with
      `aria-busy` switched off. */
  lemma LiveAttrsAreRegionAttrsWithoutBusy(cfg: AriaConfig, busy: Option<bool>)
    ensures LiveAttrs(cfg) == RegionAttrs(cfg, false, busy)
  {
    var a, b := LiveAttrs(cfg), RegionAttrs(cfg, false, busy);
    assert a.Keys == b.Keys;
  }

  /** The sentinel never reaches the DOM: no emitted attribute carries it. */
  lemma SentinelNeverEmitted(cfg: AriaConfig, busyEnabled: bool, busy: Option<bool>)
    ensures forall name :: name in RegionAttrs(cfg, busyEnabled, busy) ==>
      RegionAttrs(cfg, busyEnabled, busy)[name] != Text(Disabled)
  {
  }
}
