/**
  The newer ("1.1") preference profiles: each profile is three named tiers, Good, Bad and
  Desperate, where a tier carries its own gate on the eater's hunger.
*/
module Profiles11 {
  import Base
  import Verse
  import Extensions
  import Profiles
  import opened FoodCategories
  import opened ProfileFoodTiers

  datatype Profile = Profile(name: string, tiers: seq<ProfileFoodTier>)

  /** Bad food only once urgently hungry, in the host's hunger order. */
  predicate ResortToBad(eater: Verse.Pawn) {
    eater.hunger.Rank() >= Verse.HungerCategory.UrgentlyHungry.Rank()
  }

  /** Desperate food only once starving. */
  predicate ResortToDesperate(eater: Verse.Pawn) {
    eater.hunger.Rank() >= Verse.HungerCategory.Starving.Rank()
  }

  /** A profile from its three tiers' groups: Good is always usable, Bad and Desperate are
      gated on hunger; enumeration yields the tiers in that order. */
  function NewProfile(name: string, good: seq<seq<FoodCategory>>, bad: seq<seq<FoodCategory>>,
                      desperate: seq<seq<FoodCategory>>): (p: Profile)
    ensures p.name == name && |p.tiers| == 3
    ensures p.tiers[0].Name() == "Good" && p.tiers[0].Groups() == good
    ensures p.tiers[1].Name() == "Bad" && p.tiers[1].Groups() == bad
    ensures p.tiers[2].Name() == "Desperate" && p.tiers[2].Groups() == desperate
    ensures forall pawn :: p.tiers[0].ShouldUse(pawn)
    ensures forall pawn :: p.tiers[1].ShouldUse(pawn) <==> pawn.hunger.Rank() >= 2
    ensures forall pawn :: p.tiers[2].ShouldUse(pawn) <==> pawn.hunger == Verse.Starving
  {
    Profile(name, [
      ProfileFoodTier("Good", good, (_: Verse.Pawn) => true),
      ProfileFoodTier("Bad", bad, ResortToBad),
      ProfileFoodTier("Desperate", desperate, ResortToDesperate)])
  }

  /** Enumerating a profile yields its tiers. */
  function Tiers(p: Profile): seq<ProfileFoodTier> {
    p.tiers
  }

  /** Two profiles with the same name and the same tier names and groups; tiers hold
      predicates, which have no equality. */
  ghost predicate SameTables(a: Profile, b: Profile) {
    && a.name == b.name && |a.tiers| == |b.tiers|
    && forall i :: 0 <= i < |a.tiers| ==> a.tiers[i].name == b.tiers[i].name && a.tiers[i].data == b.tiers[i].data
  }

  /** Pet first, then ascetic, then anyone who is not an animal or wild man; the rest have
      no profile and are left to the host's own search. */
  function For(pawn: Verse.Pawn): (r: Base.Option<Profile>)
    ensures r.None? <==> !Extensions.IsPet(pawn) && !Extensions.IsAscetic(pawn) && pawn.animalOrWildMan
    ensures Extensions.IsPet(pawn) ==> r.Some? && SameTables(r.value, Pet())
    ensures !Extensions.IsPet(pawn) && Extensions.IsAscetic(pawn) ==> r.Some? && SameTables(r.value, Ascetic())
    ensures !Extensions.IsPet(pawn) && !Extensions.IsAscetic(pawn) && !pawn.animalOrWildMan
            ==> r.Some? && SameTables(r.value, Human())
  {
    if Extensions.IsPet(pawn) then Base.Some(Pet())
    else if Extensions.IsAscetic(pawn) then Base.Some(Ascetic())
    else if !pawn.animalOrWildMan then Base.Some(Human())
    else Base.None
  }

  function Human(): Profile {
    NewProfile(
      "Human",
      [[MealLavish], [MealFine], [MealSimple], [RawTasty], [MealSurvival], [MealAwful]],
      [[FertEggs], [RawBad, AnimalProduct], [Luxury]],
      [[Plant, PlantMatter], [RawInsect], [Kibble], [Corpse], [InsectCorpse], [HumanlikeCorpse]])
  }

  function Pet(): Profile {
    NewProfile(
      "Pet",
      [[Grass, Hunt], [Hay], [Kibble], [MealAwful], [RawInsect, InsectCorpse], [RawHuman, HumanlikeCorpse],
       [RawBad], [Corpse], [RawTasty, AnimalProduct]],
      [[MealSimple], [Plant, PlantMatter, Tree]],
      [[FertEggs]])
  }

  function Ascetic(): Profile {
    NewProfile(
      "Ascetic",
      [[MealAwful], [MealSimple], [RawBad, AnimalProduct], [RawTasty], [MealSurvival]],
      [[Plant, PlantMatter], [MealFine], [MealLavish], [FertEggs]],
      [[RawInsect], [Kibble], [Corpse], [InsectCorpse], [HumanlikeCorpse]])
  }

  /** The hunger gates are nested: whoever may eat desperate food may eat bad food. */
  lemma DesperateGateImpliesBadGate(pawn: Verse.Pawn)
    ensures ResortToDesperate(pawn) ==> ResortToBad(pawn)
    ensures ResortToBad(pawn) <==> pawn.hunger in {Verse.UrgentlyHungry, Verse.Starving}
  {
  }

  /** The tiers of every profile come in the order Good, Bad, Desperate. */
  lemma TierOrder(p: Profile)
    requires SameTables(p, Human()) || SameTables(p, Pet()) || SameTables(p, Ascetic())
    ensures |Tiers(p)| == 3
    ensures Tiers(p)[0].name == "Good" && Tiers(p)[1].name == "Bad" && Tiers(p)[2].name == "Desperate"
  {
  }

  /** The newer tables equal the older Colonist, Pet and Ascetic tables group for group. */
  lemma TablesMatchOlderGeneration()
    ensures Human().tiers[0].data == Profiles.Colonist().good
    ensures Human().tiers[1].data == Profiles.Colonist().bad
    ensures Human().tiers[2].data == Profiles.Colonist().desperate
    ensures Pet().tiers[0].data == Profiles.Pet().good
    ensures Pet().tiers[1].data == Profiles.Pet().bad
    ensures Pet().tiers[2].data == Profiles.Pet().desperate
    ensures Ascetic().tiers[0].data == Profiles.Ascetic().good
    ensures Ascetic().tiers[1].data == Profiles.Ascetic().bad
    ensures Ascetic().tiers[2].data == Profiles.Ascetic().desperate
  {
  }

  /** The two generations dispatch an ascetic colonist differently: the older one tests
      "colonist" first, the newer one "ascetic" before "human". */
  lemma AsceticColonistDispatch(pawn: Verse.Pawn)
    requires Extensions.IsColonist(pawn) && Extensions.IsAscetic(pawn)
    ensures Profiles.For(pawn) == Base.Some(Profiles.Colonist())
    ensures For(pawn).Some? && For(pawn).value.name == "Ascetic"
  {
    Extensions.ColonistAndPetSplitPlayerFaction(pawn);
  }
}
