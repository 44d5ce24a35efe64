/**
  The older engine's preference profiles: for each kind of eater, three tiers (Good, Bad,
  Desperate) of category groups in decreasing preference, and the dispatch from a pawn to
  its profile.
*/
module Profiles {
  import Base
  import Verse
  import Extensions
  import opened FoodCategories

  datatype Profile = Profile(
    name: string,
    good: seq<seq<FoodCategory>>,        // good food
    bad: seq<seq<FoodCategory>>,         // only when urgently hungry
    desperate: seq<seq<FoodCategory>>)   // only when starving

  /** Colonist first, then pet, then ascetic; everyone else has no profile and is left to
      the host's own search. */
  function For(pawn: Verse.Pawn): (r: Base.Option<Profile>)
    ensures r.None? <==> !Extensions.IsColonist(pawn) && !Extensions.IsPet(pawn) && !Extensions.IsAscetic(pawn)
    ensures Extensions.IsColonist(pawn) ==> r == Base.Some(Colonist())
    ensures !Extensions.IsColonist(pawn) && Extensions.IsPet(pawn) ==> r == Base.Some(Pet())
    ensures !Extensions.IsColonist(pawn) && !Extensions.IsPet(pawn) && Extensions.IsAscetic(pawn) ==> r == Base.Some(Ascetic())
  {
    if Extensions.IsColonist(pawn) then Base.Some(Colonist())
    else if Extensions.IsPet(pawn) then Base.Some(Pet())
    else if Extensions.IsAscetic(pawn) then Base.Some(Ascetic())
    else Base.None
  }

  function Colonist(): Profile {
    Profile(
      "Colonist",
      [[MealLavish], [MealFine], [MealSimple], [RawTasty], [MealSurvival], [MealAwful]],
      [[FertEggs], [RawBad, AnimalProduct], [Luxury]],
      [[Plant, PlantMatter], [RawInsect], [Kibble], [Corpse], [InsectCorpse], [HumanlikeCorpse]])
  }

  function Pet(): Profile {
    Profile(
      "Pet",
      [[Grass, Hunt], [Hay], [Kibble], [MealAwful], [RawInsect, InsectCorpse], [RawHuman, HumanlikeCorpse],
       [RawBad], [Corpse], [RawTasty, AnimalProduct]],
      [[MealSimple], [Plant, PlantMatter, Tree]],
      [[FertEggs]])
  }

  function Ascetic(): Profile {
    Profile(
      "Ascetic",
      [[MealAwful], [MealSimple], [RawBad, AnimalProduct], [RawTasty], [MealSurvival]],
      [[Plant, PlantMatter], [MealFine], [MealLavish], [FertEggs]],
      [[RawInsect], [Kibble], [Corpse], [InsectCorpse], [HumanlikeCorpse]])
  }

  /** The categories of a tier's groups, in order. */
  function Flatten(groups: seq<seq<FoodCategory>>): seq<FoodCategory> {
    if groups == [] then [] else groups[0] + Flatten(groups[1..])
  }

  /** Every category a profile lists, Good then Bad then Desperate. */
  function Categories(p: Profile): seq<FoodCategory> {
    Flatten(p.good) + Flatten(p.bad) + Flatten(p.desperate)
  }

  ghost predicate Distinct(s: seq<FoodCategory>) {
    forall i, j :: 0 <= i < j < |s| ==> s[i] != s[j]
  }

  /** Some group of the tier lists `c`. */
  predicate Lists(groups: seq<seq<FoodCategory>>, c: FoodCategory) {
    exists i :: 0 <= i < |groups| && c in groups[i]
  }

  /** Flattening loses and invents no category. */
  lemma {:induction false} FlattenMembership(groups: seq<seq<FoodCategory>>, c: FoodCategory)
    ensures c in Flatten(groups) <==> Lists(groups, c)
  {
    if groups != [] {
      FlattenMembership(groups[1..], c);
      if Lists(groups[1..], c) {
        var i :| 0 <= i < |groups[1..]| && c in groups[1..][i];
        assert c in groups[i + 1];
      }
      if Lists(groups, c) && c !in groups[0] {
        var i :| 0 <= i < |groups| && c in groups[i];
        assert c in groups[1..][i - 1];
      }
    }
  }

  /** A profile lists `c` in some tier exactly when `c` is among its categories. */
  lemma ProfileMembership(p: Profile, c: FoodCategory)
    ensures c in Categories(p) <==> Lists(p.good, c) || Lists(p.bad, c) || Lists(p.desperate, c)
  {
    FlattenMembership(p.good, c);
    FlattenMembership(p.bad, c);
    FlattenMembership(p.desperate, c);
  }

  /** The categories of each tier, in table order. */
  lemma ColonistGoodCategories()
    ensures Flatten(Colonist().good) == [MealLavish, MealFine, MealSimple, RawTasty, MealSurvival, MealAwful]
  {
    var groups := Colonist().good;
    assert groups[1..] == [[MealFine], [MealSimple], [RawTasty], [MealSurvival], [MealAwful]];
    assert groups[3..] == [[RawTasty], [MealSurvival], [MealAwful]];
  }

  lemma ColonistBadCategories()
    ensures Flatten(Colonist().bad) == [FertEggs, RawBad, AnimalProduct, Luxury]
  {
  }

  lemma ColonistDesperateCategories()
    ensures Flatten(Colonist().desperate) == [Plant, PlantMatter, RawInsect, Kibble, Corpse, InsectCorpse, HumanlikeCorpse]
  {
    var groups := Colonist().desperate;
    assert groups[1..] == [[RawInsect], [Kibble], [Corpse], [InsectCorpse], [HumanlikeCorpse]];
    assert groups[3..] == [[Corpse], [InsectCorpse], [HumanlikeCorpse]];
  }

  lemma PetGoodCategories()
    ensures Flatten(Pet().good) == [Grass, Hunt, Hay, Kibble, MealAwful, RawInsect, InsectCorpse, RawHuman, HumanlikeCorpse, RawBad, Corpse, RawTasty, AnimalProduct]
  {
    var groups := Pet().good;
    assert groups[1..] == [[Hay], [Kibble], [MealAwful], [RawInsect, InsectCorpse], [RawHuman, HumanlikeCorpse], [RawBad], [Corpse], [RawTasty, AnimalProduct]];
  }

  lemma PetBadCategories()
    ensures Flatten(Pet().bad) == [MealSimple, Plant, PlantMatter, Tree]
  {
  }

  lemma PetDesperateCategories()
    ensures Flatten(Pet().desperate) == [FertEggs]
  {
  }

  lemma AsceticGoodCategories()
    ensures Flatten(Ascetic().good) == [MealAwful, MealSimple, RawBad, AnimalProduct, RawTasty, MealSurvival]
  {
    var groups := Ascetic().good;
    assert groups[1..] == [[MealSimple], [RawBad, AnimalProduct], [RawTasty], [MealSurvival]];
    assert groups[3..] == [[RawTasty], [MealSurvival]];
  }

  lemma AsceticBadCategories()
    ensures Flatten(Ascetic().bad) == [Plant, PlantMatter, MealFine, MealLavish, FertEggs]
  {
  }

  lemma AsceticDesperateCategories()
    ensures Flatten(Ascetic().desperate) == [RawInsect, Kibble, Corpse, InsectCorpse, HumanlikeCorpse]
  {
    var groups := Ascetic().desperate;
    assert groups[1..] == [[Kibble], [Corpse], [InsectCorpse], [HumanlikeCorpse]];
    assert groups[3..] == [[InsectCorpse], [HumanlikeCorpse]];
  }

  lemma ColonistCategories()
    ensures Categories(Colonist()) == [MealLavish, MealFine, MealSimple, RawTasty, MealSurvival, MealAwful, FertEggs, RawBad, AnimalProduct, Luxury, Plant, PlantMatter, RawInsect, Kibble, Corpse, InsectCorpse, HumanlikeCorpse]
  {
    ColonistGoodCategories();
    ColonistBadCategories();
    ColonistDesperateCategories();
  }

  lemma PetCategories()
    ensures Categories(Pet()) == [Grass, Hunt, Hay, Kibble, MealAwful, RawInsect, InsectCorpse, RawHuman, HumanlikeCorpse, RawBad, Corpse, RawTasty, AnimalProduct, MealSimple, Plant, PlantMatter, Tree, FertEggs]
  {
    PetGoodCategories();
    PetBadCategories();
    PetDesperateCategories();
  }

  lemma AsceticCategories()
    ensures Categories(Ascetic()) == [MealAwful, MealSimple, RawBad, AnimalProduct, RawTasty, MealSurvival, Plant, PlantMatter, MealFine, MealLavish, FertEggs, RawInsect, Kibble, Corpse, InsectCorpse, HumanlikeCorpse]
  {
    AsceticGoodCategories();
    AsceticBadCategories();
    AsceticDesperateCategories();
  }

  /** Within each profile no category occurs twice, neither within a group nor across
      groups or tiers. */
  lemma ColonistListsEachCategoryOnce()
    ensures Distinct(Categories(Colonist()))
  {
    var all := [MealLavish, MealFine, MealSimple, RawTasty, MealSurvival, MealAwful, FertEggs, RawBad, AnimalProduct, Luxury, Plant, PlantMatter, RawInsect, Kibble, Corpse, InsectCorpse, HumanlikeCorpse];
    assert forall i, j :: 0 <= i < j < |all| ==> all[i] != all[j];
    ColonistCategories();
  }

  lemma PetListsEachCategoryOnce()
    ensures Distinct(Categories(Pet()))
  {
    var all := [Grass, Hunt, Hay, Kibble, MealAwful, RawInsect, InsectCorpse, RawHuman, HumanlikeCorpse, RawBad, Corpse, RawTasty, AnimalProduct, MealSimple, Plant, PlantMatter, Tree, FertEggs];
    assert forall i, j :: 0 <= i < j < |all| ==> all[i] != all[j];
    PetCategories();
  }

  lemma AsceticListsEachCategoryOnce()
    ensures Distinct(Categories(Ascetic()))
  {
    var all := [MealAwful, MealSimple, RawBad, AnimalProduct, RawTasty, MealSurvival, Plant, PlantMatter, MealFine, MealLavish, FertEggs, RawInsect, Kibble, Corpse, InsectCorpse, HumanlikeCorpse];
    assert forall i, j :: 0 <= i < j < |all| ==> all[i] != all[j];
    AsceticCategories();
  }

  /** No profile lists the two categories the classifier uses for "not food". */
  lemma ColonistListsOnlyValidCategories()
    ensures forall c :: c in Categories(Colonist()) ==> IsValidFoodCategory(c)
  {
    var all := [MealLavish, MealFine, MealSimple, RawTasty, MealSurvival, MealAwful, FertEggs, RawBad, AnimalProduct, Luxury, Plant, PlantMatter, RawInsect, Kibble, Corpse, InsectCorpse, HumanlikeCorpse];
    assert forall i :: 0 <= i < |all| ==> IsValidFoodCategory(all[i]);
    ColonistCategories();
  }

  lemma PetListsOnlyValidCategories()
    ensures forall c :: c in Categories(Pet()) ==> IsValidFoodCategory(c)
  {
    var all := [Grass, Hunt, Hay, Kibble, MealAwful, RawInsect, InsectCorpse, RawHuman, HumanlikeCorpse, RawBad, Corpse, RawTasty, AnimalProduct, MealSimple, Plant, PlantMatter, Tree, FertEggs];
    assert forall i :: 0 <= i < |all| ==> IsValidFoodCategory(all[i]);
    PetCategories();
  }

  lemma AsceticListsOnlyValidCategories()
    ensures forall c :: c in Categories(Ascetic()) ==> IsValidFoodCategory(c)
  {
    var all := [MealAwful, MealSimple, RawBad, AnimalProduct, RawTasty, MealSurvival, Plant, PlantMatter, MealFine, MealLavish, FertEggs, RawInsect, Kibble, Corpse, InsectCorpse, HumanlikeCorpse];
    assert forall i :: 0 <= i < |all| ==> IsValidFoodCategory(all[i]);
    AsceticCategories();
  }

  /** Colonists never hunt and never eat raw human meat, hay, grass or trees. */
  lemma ColonistExclusions()
    ensures Hunt !in Categories(Colonist()) && RawHuman !in Categories(Colonist())
    ensures Hay !in Categories(Colonist()) && Grass !in Categories(Colonist()) && Tree !in Categories(Colonist())
  {
    var all := [MealLavish, MealFine, MealSimple, RawTasty, MealSurvival, MealAwful, FertEggs, RawBad, AnimalProduct, Luxury, Plant, PlantMatter, RawInsect, Kibble, Corpse, InsectCorpse, HumanlikeCorpse];
    assert Hunt !in all && RawHuman !in all && Hay !in all && Grass !in all && Tree !in all;
    ColonistCategories();
  }

  lemma PetDesperateIsFertilizedEggs()
    ensures Pet().desperate == [[FertEggs]]
  {
  }
}
