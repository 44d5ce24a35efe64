/**
  A search candidate: a thing with its category (read once through the newer cache), the
  cell used for reachability and home-area tests, and its distance from the search origin.
  Carried items are built from the `Invalid` origin and get distance -1.
*/
module SearchItems {
  import opened Base
  import opened Verse
  import opened FoodCategories
  import CategoryCache11
  import Seqs

  /** The cell used for a thing: a dispenser's interaction cell, otherwise its own position. */
  function ThingPosition(thing: Thing): IntVec3 {
    match thing.kind
    case NutrientPasteDispenser(_, cell) => cell
    case _ => thing.position
  }

  /** The position an item gets when built from `origin`. */
  function ItemPosition(origin: IntVec3, thing: Thing): IntVec3 {
    if origin == Invalid then Invalid else ThingPosition(thing)
  }

  /** The distance an item gets when built from `origin`: the inventory sentinel -1, or the
      Manhattan length from the origin to the thing's own position (never the interaction cell). */
  function ItemDistance(origin: IntVec3, thing: Thing): (d: int)
    ensures origin == Invalid <==> d == -1
    ensures origin != Invalid ==> d >= 0 && d == origin.Minus(thing.position).LengthManhattan()
  {
    if origin == Invalid then -1 else origin.Minus(thing.position).LengthManhattan()
  }

  /** The pre-filter on a thing of a given category: never Null or Ignore; dispensers and
      pawns pass for later checks; everything else reports for itself. */
  predicate ThingIngestibleNow(thing: Thing, category: FoodCategory) {
    if category == Null || category == Ignore then false
    else if thing.kind.NutrientPasteDispenser? then true
    else if thing.kind.PawnThing? then true
    else thing.ingestibleNow
  }

  class FoodSearchItem {
    const thing: Thing
    const position: IntVec3
    const distance: int
    const foodCategory: FoodCategory
    /** The lazily fetched ingestible definition. */
    var def: Option<ThingDef>

    /** Builds the item; the category comes from the cache, which may add one entry. */
    constructor (thing: Thing, searchingFrom: IntVec3, cache: CategoryCache11.FoodCategoryCache)
      requires cache.Valid()
      modifies cache
      ensures cache.Valid() && CategoryCache11.Extends(cache.cache, old(cache.cache))
      ensures thing.def !in old(cache.cache) ==>
                cache.cache == old(cache.cache)[thing.def := DetermineThingCategory(thing)]
      ensures thing.def in old(cache.cache) ==> cache.cache == old(cache.cache)
      ensures BuiltFrom(this, searchingFrom, cache.cache) && this.thing == thing
      ensures def == None
    {
      var category := cache.GetFor(thing);
      this.thing := thing;
      foodCategory := category;
      if searchingFrom == Invalid {
        position := Invalid;
        distance := -1;
      } else {
        position := ThingPosition(thing);
        distance := searchingFrom.Minus(thing.position).LengthManhattan();
      }
      def := None;
    }

    /** The ingestible definition, fetched from the host on first use and remembered once
        non-null; `finalIngestibleDef` is the host's answer for this thing. */
    method Def(finalIngestibleDef: Option<ThingDef>) returns (d: Option<ThingDef>)
      modifies this`def
      ensures old(def).Some? ==> d == old(def) && def == old(def)
      ensures old(def).None? ==> d == finalIngestibleDef && def == finalIngestibleDef
    {
      if def.None? {
        def := finalIngestibleDef;
      }
      d := def;
    }

    predicate IsIngestibleNow() {
      ThingIngestibleNow(thing, foodCategory)
    }

    predicate IsInInventory() {
      position == Invalid
    }
  }

  /** The things the items stand for, in order. */
  function ThingsOf(items: seq<FoodSearchItem>): seq<Thing> {
    Seqs.Map(items, (x: FoodSearchItem) => x.thing)
  }

  /** `x` is the item built for its thing from `origin` against the cache contents `entries`. */
  ghost predicate BuiltFrom(x: FoodSearchItem, origin: IntVec3, entries: map<ThingDef, FoodCategory>) {
    && x.thing.def in entries && x.foodCategory == entries[x.thing.def]
    && x.position == ItemPosition(origin, x.thing)
    && x.distance == ItemDistance(origin, x.thing)
  }

  /** Building keeps holding as the cache only grows. */
  lemma BuiltFromExtends(x: FoodSearchItem, origin: IntVec3, e1: map<ThingDef, FoodCategory>, e2: map<ThingDef, FoodCategory>)
    requires BuiltFrom(x, origin, e1) && CategoryCache11.Extends(e2, e1)
    ensures BuiltFrom(x, origin, e2)
  {
  }

  /** An item built from `Invalid` is in the inventory with distance -1; one built from any
      other origin has a non-negative distance, and is "in inventory" only if its cell is `Invalid`. */
  lemma ItemPlacement(x: FoodSearchItem, origin: IntVec3, entries: map<ThingDef, FoodCategory>)
    requires BuiltFrom(x, origin, entries)
    ensures origin == Invalid ==> x.IsInInventory() && x.distance == -1
    ensures origin != Invalid ==> x.distance >= 0 && (x.IsInInventory() <==> ThingPosition(x.thing) == Invalid)
    ensures x.thing.kind.NutrientPasteDispenser? && origin != Invalid ==> x.position == x.thing.kind.interactionCell
  {
  }

  /** The pre-filter: false on Null/Ignore; otherwise true for dispensers and pawns, and the
      thing's own report for everything else. */
  lemma IngestibleNowCases(x: FoodSearchItem)
    ensures x.foodCategory in {Null, Ignore} ==> !x.IsIngestibleNow()
    ensures x.foodCategory !in {Null, Ignore} ==>
              (x.IsIngestibleNow() <==> x.thing.kind.NutrientPasteDispenser? || x.thing.kind.PawnThing? || x.thing.ingestibleNow)
    ensures x.IsIngestibleNow() ==> IsValidFoodCategory(x.foodCategory)
  {
  }
}
