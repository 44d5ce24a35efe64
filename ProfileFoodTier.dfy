/**
  A named food tier: category groups in preference order plus the predicate that decides
  whether a pawn may use the tier at all. All three parts are fixed at construction.
*/
module ProfileFoodTiers {
  import Verse
  import opened FoodCategories

  datatype ProfileFoodTier = ProfileFoodTier(name: string, data: seq<seq<FoodCategory>>, shouldUse: Verse.Pawn -> bool)
  {
    function Name(): string { name }

    predicate ShouldUse(pawn: Verse.Pawn) { shouldUse(pawn) }

    /** Enumeration delegates to the stored groups. */
    function Groups(): seq<seq<FoodCategory>> { data }
  }

  /** The accessors return exactly what the tier was built from. */
  lemma TierKeepsItsParts(name: string, data: seq<seq<FoodCategory>>, shouldUse: Verse.Pawn -> bool, pawn: Verse.Pawn)
    ensures ProfileFoodTier(name, data, shouldUse).Name() == name
    ensures ProfileFoodTier(name, data, shouldUse).Groups() == data
    ensures ProfileFoodTier(name, data, shouldUse).ShouldUse(pawn) == shouldUse(pawn)
  {
  }
}
