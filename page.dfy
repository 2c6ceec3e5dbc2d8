/**
 * The components of the page draw from the one counter `createCounter`
 * returns (src/app.jsx:19): each constructor's `m` and `i` calls follow the
 * previous constructor's on the same table.
 */
module Page {
  import opened Counters
  import opened Format
  import opened Generators
  import opened LiveRegions

  /** A LiveRegion constructed after a MessageGenerator: the region's form
      id differs from the generator's, although both are `i('form')` and the
      generator's `m` call comes in between. */
  lemma FormIdsDistinctAcrossComponents(t: Table, p: GeneratorProps)
    ensures var (generated, t1) := Calls(t, ConstructorCalls(p));
      IdsOf(t1, RegionIdKeys).0[0] != generated[1]
  {
    var gen := ConstructorCalls(p);
    var cs := gen + IdCalls(RegionIdKeys);
    CallsAppend(t, gen, IdCalls(RegionIdKeys));
    IdsOfAreCalls(Calls(t, gen).1, RegionIdKeys);
    CallIdsDistinct(t, cs, 1, 5);
  }
}
