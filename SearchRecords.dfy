/**
  The records a search reads and returns: its parameters and its result.
*/
module SearchRecords {
  import opened Base
  import opened Verse
  import SearchItems

  /** The options of one search. Only `desperate` is ever written after construction (the
      engine sets it before the desperate tier), so every other field is a constant. */
  class FoodSearchParameters {
    const getter: Pawn
    const eater: Pawn
    var desperate: bool
    const canUseInventory: bool
    const minPref: FoodPreferability
    const maxPref: FoodPreferability
    const allowPlant: bool
    const allowDrug: bool
    const allowCorpse: bool
    const allowForbidden: bool
    const allowSociallyImproper: bool
    const allowHarvest: bool
    const forceScanWholeMap: bool

    /** Every field from its argument, except `minPref`, which always starts at DesperateOnly. */
    constructor (getter: Pawn, eater: Pawn, desperate: bool, canUseInventory: bool, maxPref: FoodPreferability,
                 allowPlant: bool, allowDrug: bool, allowCorpse: bool, allowForbidden: bool,
                 allowSociallyImproper: bool, allowHarvest: bool, forceScanWholeMap: bool)
      ensures this.getter == getter && this.eater == eater && this.desperate == desperate
      ensures this.canUseInventory == canUseInventory && this.maxPref == maxPref
      ensures this.allowPlant == allowPlant && this.allowDrug == allowDrug && this.allowCorpse == allowCorpse
      ensures this.allowForbidden == allowForbidden && this.allowSociallyImproper == allowSociallyImproper
      ensures this.allowHarvest == allowHarvest && this.forceScanWholeMap == forceScanWholeMap
      ensures minPref == DesperateOnly
    {
      this.getter := getter;
      this.eater := eater;
      this.desperate := desperate;
      this.canUseInventory := canUseInventory;
      this.minPref := DesperateOnly;
      this.maxPref := maxPref;
      this.allowPlant := allowPlant;
      this.allowDrug := allowDrug;
      this.allowCorpse := allowCorpse;
      this.allowForbidden := allowForbidden;
      this.allowSociallyImproper := allowSociallyImproper;
      this.allowHarvest := allowHarvest;
      this.forceScanWholeMap := forceScanWholeMap;
    }
  }

  /** A search result. `success` tells the caller whether to use it (true: skip the host's own
      search, even with no thing) or to fall back to the host's search (false). */
  datatype FoodSearchResult = FoodSearchResult(thing: Option<Thing>, def: Option<ThingDef>, success: bool)

  /** The default result: not successful, no thing and no definition. */
  function DefaultResult(): (r: FoodSearchResult)
    ensures !r.success && r.thing.None? && r.def.None?
  {
    FoodSearchResult(None, None, false)
  }

  /** A successful result for an item, carrying its (lazily fetched) definition. */
  method ResultFor(item: SearchItems.FoodSearchItem, finalIngestibleDef: Option<ThingDef>) returns (r: FoodSearchResult)
    modifies item`def
    ensures r.success && r.thing == Some(item.thing)
    ensures r.def == (if old(item.def).Some? then old(item.def) else finalIngestibleDef)
    ensures item.def == r.def
  {
    var d := item.Def(finalIngestibleDef);
    r := FoodSearchResult(Some(item.thing), d, true);
  }
}
