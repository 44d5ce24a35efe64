/**
  The food categoriser: a first-match decision tree from a thing definition to a closed set
  of categories. A nutrient paste dispenser is classified by the definition it dispenses.
*/
module FoodCategories {
  import opened Base
  import opened Verse

  datatype FoodCategory =
    | Null | HumanlikeCorpse | InsectCorpse | Corpse | Hay | Kibble | RawBad | RawTasty
    | RawInsect | RawHuman | FertEggs | AnimalProduct | MealAwful | MealSurvival | MealSimple
    | MealFine | MealLavish | Plant | PlantMatter | Grass | Luxury | Hunt | Tree | Ignore
  {
    /** The byte value of the enumeration member. */
    function Value(): (b: nat)
      ensures b < 256
      ensures b == 0 <==> this == Null
      ensures b == 255 <==> this == Ignore
    {
      match this
      case Null => 0
      case HumanlikeCorpse => 1
      case InsectCorpse => 2
      case Corpse => 3
      case Hay => 4
      case Kibble => 5
      case RawBad => 6
      case RawTasty => 7
      case RawInsect => 8
      case RawHuman => 9
      case FertEggs => 10
      case AnimalProduct => 11
      case MealAwful => 12
      case MealSurvival => 13
      case MealSimple => 14
      case MealFine => 15
      case MealLavish => 16
      case Plant => 17
      case PlantMatter => 18
      case Grass => 19
      case Luxury => 20
      case Hunt => 21
      case Tree => 22
      case Ignore => 255
    }
  }

  /** Every stage of the thought lowers mood (vacuously true without stages). */
  predicate AllStagesNegative(t: ThoughtDef) {
    forall i :: 0 <= i < |t.stageMoodEffects| ==> t.stageMoodEffects[i] < 0
  }

  /** No stage of the thought lowers mood. */
  predicate AllStagesNonNegative(t: ThoughtDef) {
    forall i :: 0 <= i < |t.stageMoodEffects| ==> t.stageMoodEffects[i] >= 0
  }

  predicate IsSurvivalMeal(def: ThingDef) {
    def.defName == "MealSurvivalPack" || def.defName == "Pemmican"
  }

  predicate IsInsectMeat(def: ThingDef, taste: ThoughtDef) {
    def.defName == "Meat_Megaspider" || taste.defName == "AteInsectMeatAsIngredient"
  }

  /** The category of a definition that no ingestible rule decided. */
  function Unclassified(def: ThingDef): FoodCategory {
    if def.isCorpse then Ignore else Null
  }

  /** The decision tree on a (non-null) definition. */
  function DetermineFoodCategory(def: ThingDef): (r: FoodCategory)
    ensures r == Hunt <==> def.hasRace
    ensures def.ingestible.None? ==> r in {Hunt, Ignore, Null}
  {
    if def.hasRace then Hunt
    else if def.ingestible.Some? then
      var ing := def.ingestible.value;
      var pref := ing.preferability;
      if !ing.positiveNutrition || def.IsDrug() then Ignore
      else if pref == FoodPreferability.NeverForNutrition then Ignore
      else if pref == FoodPreferability.MealFine then FoodCategory.MealFine
      else if pref == FoodPreferability.MealAwful then FoodCategory.MealAwful
      else if pref == FoodPreferability.MealSimple then
        (if IsSurvivalMeal(def) then MealSurvival else FoodCategory.MealSimple)
      else if pref == FoodPreferability.MealLavish then FoodCategory.MealLavish
      else if KibbleFlag in ing.foodType then Kibble
      else if AnimalProductFlag in ing.foodType then
        (if def.hasHatcherComp then FertEggs else AnimalProduct)
      else if ing.gluttonousJoy then Luxury
      else if TreeFlag in ing.foodType then Tree
      else if PlantFlag in ing.foodType then
        if def.defName == "Hay" then Hay
        else if def.plant.Some? && |def.plant.value.sowTags| > 0 then Plant
        else if PlantMatterCategory in def.thingCategories then PlantMatter
        else if pref == FoodPreferability.DesperateOnly then Ignore
        else Grass
      else if def.isCorpse then
        if ing.humanlikeMeat then HumanlikeCorpse
        else if |def.thingCategories| > 0 && def.thingCategories[0] == CorpsesInsect then InsectCorpse
        else if ing.mechanoidSource then Ignore
        else Corpse
      else if ing.tasteThought.Some? && AllStagesNegative(ing.tasteThought.value) then
        if ing.humanlikeMeat then RawHuman
        else if IsInsectMeat(def, ing.tasteThought.value) then RawInsect
        else FoodCategory.RawBad
      else if ing.tasteThought.None? || AllStagesNonNegative(ing.tasteThought.value) then FoodCategory.RawTasty
      else Unclassified(def)
    else Unclassified(def)
  }

  /** The entry point that receives a possibly-null definition: null throws. */
  function DetermineFoodCategoryOf(def: Option<ThingDef>): (r: Result<FoodCategory>)
    ensures r.Throws? <==> def.None?
    ensures r.Throws? ==> r.exception == ArgumentNull
    ensures def.Some? ==> r == Ok(DetermineFoodCategory(def.value))
  {
    match def
    case None => Throws(ArgumentNull)
    case Some(d) => Ok(DetermineFoodCategory(d))
  }

  /** The category of a thing: a dispenser is classified by what it dispenses. */
  function DetermineThingCategory(thing: Thing): FoodCategory {
    match thing.kind
    case NutrientPasteDispenser(dispensable, _) => DetermineFoodCategory(dispensable)
    case _ => DetermineFoodCategory(thing.def)
  }

  /** Neither `Null` nor `Ignore`. */
  predicate IsValidFoodCategory(c: FoodCategory) {
    c != Ignore && c != Null
  }

  // ---- one lemma per branch of the tree ----

  lemma DispenserUsesDispensableDef(thing: Thing)
    ensures thing.kind.NutrientPasteDispenser? ==>
              DetermineThingCategory(thing) == DetermineFoodCategory(thing.kind.dispensableDef)
    ensures !thing.kind.NutrientPasteDispenser? ==>
              DetermineThingCategory(thing) == DetermineFoodCategory(thing.def)
  {
  }

  lemma RaceIsHunt(def: ThingDef)
    requires def.hasRace
    ensures DetermineFoodCategory(def) == Hunt
  {
  }

  /** Race precedes every ingestible rule: whatever the ingestible data, a race means Hunt. */
  lemma RacePrecedesIngestible(def: ThingDef, ing: Option<IngestibleProps>)
    requires def.hasRace
    ensures DetermineFoodCategory(def.(ingestible := ing)) == Hunt
  {
  }

  lemma NoNutritionOrDrugIsIgnored(def: ThingDef)
    requires !def.hasRace && def.ingestible.Some?
    requires !def.ingestible.value.positiveNutrition || def.ingestible.value.drug
             || def.ingestible.value.preferability == FoodPreferability.NeverForNutrition
    ensures DetermineFoodCategory(def) == Ignore
  {
  }

  /** The usable ingestibles the meal and food-type rules see. */
  predicate UsableIngestible(def: ThingDef) {
    && !def.hasRace && def.ingestible.Some?
    && def.ingestible.value.positiveNutrition && !def.ingestible.value.drug
    && def.ingestible.value.preferability != FoodPreferability.NeverForNutrition
  }

  lemma MealPreferabilities(def: ThingDef)
    requires UsableIngestible(def)
    ensures var pref := def.ingestible.value.preferability;
            var r := DetermineFoodCategory(def);
            && (pref == FoodPreferability.MealFine ==> r == FoodCategory.MealFine)
            && (pref == FoodPreferability.MealAwful ==> r == FoodCategory.MealAwful)
            && (pref == FoodPreferability.MealLavish ==> r == FoodCategory.MealLavish)
            && (pref == FoodPreferability.MealSimple ==>
                  (r == MealSurvival <==> IsSurvivalMeal(def)) && r in {MealSurvival, FoodCategory.MealSimple})
  {
  }

  /** Meal preferability beats every food-type flag. */
  lemma MealsPrecedeFoodType(def: ThingDef, flags: set<FoodTypeFlag>)
    requires UsableIngestible(def)
    requires def.ingestible.value.preferability in
               {FoodPreferability.MealFine, FoodPreferability.MealAwful,
                FoodPreferability.MealSimple, FoodPreferability.MealLavish}
    ensures var def' := def.(ingestible := Some(def.ingestible.value.(foodType := flags)));
            DetermineFoodCategory(def') == DetermineFoodCategory(def)
  {
  }

  /** Non-meal preferability. */
  predicate NotMeal(def: ThingDef)
    requires def.ingestible.Some?
  {
    def.ingestible.value.preferability !in
      {FoodPreferability.MealFine, FoodPreferability.MealAwful,
       FoodPreferability.MealSimple, FoodPreferability.MealLavish}
  }

  lemma FoodTypeOrder(def: ThingDef)
    requires UsableIngestible(def) && NotMeal(def)
    ensures var ing := def.ingestible.value;
            var r := DetermineFoodCategory(def);
            && (KibbleFlag in ing.foodType ==> r == Kibble)
            && (KibbleFlag !in ing.foodType && AnimalProductFlag in ing.foodType ==>
                  r == (if def.hasHatcherComp then FertEggs else AnimalProduct))
            && ((KibbleFlag !in ing.foodType && AnimalProductFlag !in ing.foodType
                 && ing.gluttonousJoy) ==> r == Luxury)
            && ((KibbleFlag !in ing.foodType && AnimalProductFlag !in ing.foodType
                 && !ing.gluttonousJoy && TreeFlag in ing.foodType) ==> r == Tree)
  {
  }

  /** The food-type rules the plant, corpse and taste rules are reached through. */
  predicate NoEarlierFoodType(def: ThingDef)
    requires def.ingestible.Some?
  {
    var ing := def.ingestible.value;
    && KibbleFlag !in ing.foodType && AnimalProductFlag !in ing.foodType
    && !ing.gluttonousJoy && TreeFlag !in ing.foodType
  }

  lemma PlantRules(def: ThingDef)
    requires UsableIngestible(def) && NotMeal(def) && NoEarlierFoodType(def)
    requires PlantFlag in def.ingestible.value.foodType
    ensures var r := DetermineFoodCategory(def);
            var sown := def.plant.Some? && |def.plant.value.sowTags| > 0;
            var matter := PlantMatterCategory in def.thingCategories;
            && (def.defName == "Hay" ==> r == Hay)
            && (def.defName != "Hay" && sown ==> r == Plant)
            && (def.defName != "Hay" && !sown && matter ==> r == PlantMatter)
            && (def.defName != "Hay" && !sown && !matter ==>
                  r == (if def.ingestible.value.preferability == FoodPreferability.DesperateOnly
                        then Ignore else Grass))
  {
  }

  lemma CorpseRules(def: ThingDef)
    requires UsableIngestible(def) && NotMeal(def) && NoEarlierFoodType(def)
    requires PlantFlag !in def.ingestible.value.foodType && def.isCorpse
    ensures var ing := def.ingestible.value;
            var r := DetermineFoodCategory(def);
            var insect := |def.thingCategories| > 0 && def.thingCategories[0] == CorpsesInsect;
            && (ing.humanlikeMeat ==> r == HumanlikeCorpse)
            && (!ing.humanlikeMeat && insect ==> r == InsectCorpse)
            && (!ing.humanlikeMeat && !insect ==> r == (if ing.mechanoidSource then Ignore else Corpse))
  {
  }

  lemma TasteRules(def: ThingDef)
    requires UsableIngestible(def) && NotMeal(def) && NoEarlierFoodType(def)
    requires PlantFlag !in def.ingestible.value.foodType && !def.isCorpse
    ensures var ing := def.ingestible.value;
            var r := DetermineFoodCategory(def);
            && (ing.tasteThought.None? ==> r == FoodCategory.RawTasty)
            && (ing.tasteThought.Some? && AllStagesNegative(ing.tasteThought.value) ==>
                  r == (if ing.humanlikeMeat then RawHuman
                        else if IsInsectMeat(def, ing.tasteThought.value) then RawInsect
                        else FoodCategory.RawBad))
            && ((ing.tasteThought.Some? && !AllStagesNegative(ing.tasteThought.value)
                 && AllStagesNonNegative(ing.tasteThought.value)) ==> r == FoodCategory.RawTasty)
            && ((ing.tasteThought.Some? && !AllStagesNegative(ing.tasteThought.value)
                 && !AllStagesNonNegative(ing.tasteThought.value)) ==> r == Null)
  {
  }

  /** A taste thought without stages is "all negative": such a food is raw bad, not tasty. */
  lemma EmptyTasteIsBad(def: ThingDef)
    requires UsableIngestible(def) && NotMeal(def) && NoEarlierFoodType(def)
    requires PlantFlag !in def.ingestible.value.foodType && !def.isCorpse
    requires !def.ingestible.value.humanlikeMeat
    requires def.ingestible.value.tasteThought.Some?
    requires def.ingestible.value.tasteThought.value.stageMoodEffects == []
    requires !IsInsectMeat(def, def.ingestible.value.tasteThought.value)
    ensures DetermineFoodCategory(def) == FoodCategory.RawBad
  {
  }

  lemma NonIngestibleRules(def: ThingDef)
    requires !def.hasRace && def.ingestible.None?
    ensures DetermineFoodCategory(def) == (if def.isCorpse then Ignore else Null)
  {
  }

  /** Null comes only from an ingestible with mixed-sign taste stages or a non-corpse
      definition without ingestible data. */
  lemma NullOnlyWhen(def: ThingDef)
    requires DetermineFoodCategory(def) == Null
    ensures !def.hasRace && !def.isCorpse
    ensures def.ingestible.None? ||
            (def.ingestible.value.tasteThought.Some?
             && !AllStagesNegative(def.ingestible.value.tasteThought.value)
             && !AllStagesNonNegative(def.ingestible.value.tasteThought.value))
  {
  }
}
