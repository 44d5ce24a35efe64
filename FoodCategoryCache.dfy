/**
  The older category cache: a dictionary from definition to category that is filled on
  first use. It is kept as an explicit object rather than a process-wide static.
*/
module CategoryCache {
  import opened Verse
  import opened FoodCategories

  class FoodCategoryCache {
    var cache: map<ThingDef, FoodCategory>

    /** Every stored category is the classifier's value for its key. */
    ghost predicate Valid()
      reads this
    {
      forall d :: d in cache ==> cache[d] == DetermineFoodCategory(d)
    }

    constructor ()
      ensures Valid() && cache == map[]
    {
      cache := map[];
    }

    /** Looks the definition up, classifying and storing it on a miss. */
    method GetFor(def: ThingDef) returns (category: FoodCategory)
      requires Valid()
      modifies this
      ensures Valid()
      ensures category == DetermineFoodCategory(def)
      ensures def in old(cache) ==> cache == old(cache) && category == old(cache)[def]
      ensures def !in old(cache) ==> cache == old(cache)[def := category]
    {
      if def in cache {
        return cache[def];
      }
      category := DetermineFoodCategory(def);
      cache := cache[def := category];
    }

    /** A thing is looked up by its own definition, so a dispenser is classified as a building. */
    method GetForThing(thing: Thing) returns (category: FoodCategory)
      requires Valid()
      modifies this
      ensures Valid()
      ensures category == DetermineFoodCategory(thing.def)
      ensures thing.def in old(cache) ==> cache == old(cache)
      ensures thing.def !in old(cache) ==> cache == old(cache)[thing.def := category]
    {
      category := GetFor(thing.def);
    }
  }
}
