/**
  The newer category cache: keyed by the thing's definition, but the value stored on a miss
  is the thing's own category, so a dispenser's entry records what it dispenses, and every
  later thing with the same definition receives the first thing's category.
*/
module CategoryCache11 {
  import opened Verse
  import opened FoodCategories

  /** `updated` keeps every entry of `original` unchanged. */
  ghost predicate Extends(updated: map<ThingDef, FoodCategory>, original: map<ThingDef, FoodCategory>) {
    forall d :: d in original ==> d in updated && updated[d] == original[d]
  }

  class FoodCategoryCache {
    var cache: map<ThingDef, FoodCategory>
    /** For each key, the thing whose lookup created the entry. */
    ghost var firstSeen: map<ThingDef, Thing>

    /** Every stored category is the classification of the first thing seen with that definition. */
    ghost predicate Valid()
      reads this
    {
      forall d :: d in cache ==>
        d in firstSeen && firstSeen[d].def == d && cache[d] == DetermineThingCategory(firstSeen[d])
    }

    constructor ()
      ensures Valid() && cache == map[]
    {
      cache := map[];
      firstSeen := map[];
    }

    method GetFor(thing: Thing) returns (category: FoodCategory)
      requires Valid()
      modifies this
      ensures Valid()
      ensures Extends(cache, old(cache))
      ensures thing.def in cache && category == cache[thing.def]
      ensures thing.def in old(cache) ==> cache == old(cache) && category == old(cache)[thing.def]
      ensures thing.def !in old(cache) ==>
                cache == old(cache)[thing.def := category] && category == DetermineThingCategory(thing)
    {
      if thing.def in cache {
        return cache[thing.def];
      }
      category := DetermineThingCategory(thing);
      cache := cache[thing.def := category];
      firstSeen := firstSeen[thing.def := thing];
    }
  }

  /** A nutrient paste dispenser: a building definition (neither ingestible nor a corpse)
      that dispenses an awful meal. */
  function PasteDispenser(): Thing {
    var building := ThingDef("NutrientPasteDispenser", false, Base.None, false, false, [], Base.None);
    var paste := ThingDef("MealNutrientPaste", false,
      Base.Some(IngestibleProps(true, false, FoodPreferability.MealAwful, {MealFlag, ProcessedFlag},
                                false, Base.None, false, false)),
      false, false, [], Base.None);
    Thing(0, building, NutrientPasteDispenser(paste, IntVec3(1, 0, 1)), IntVec3(1, 0, 0), false)
  }

  /** An illustration on one concrete dispenser: unlike the older cache, an entry need not be
      the classification of its key. The entry this dispenser creates holds MealAwful, while its
      definition alone classifies as Null. The general rule, for every dispenser, is
      `FoodCategories.DispenserUsesDispensableDef` together with `Valid`. */
  lemma DispenserEntryDiffersFromKey()
    ensures var t := PasteDispenser();
            DetermineThingCategory(t) == FoodCategory.MealAwful && DetermineFoodCategory(t.def) == Null
  {
  }
}
