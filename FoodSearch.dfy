/**
  The older search engine. A search picks the eater's profile, looks through the getter's
  inventory, then the map (nearby first, then far away) for the Good tier, then Bad (only when
  urgently hungry) and Desperate (only when starving) food, and returns the first thing that
  passes validation. Within a tier, category groups are tried in order, and within a group the
  candidates are tried nearest first.
*/
module FoodSearching {
  import opened Base
  import opened Verse
  import FoodCategories
  import Extensions
  import Profiles
  import CategoryCache11
  import opened SearchItems
  import opened SearchRecords
  import Seqs

  type FoodCategory = FoodCategories.FoodCategory

  const NearbySearchRadius: int := 50

  /** Thoughts that only a desperate eater may incur, by definition name. */
  function DesperateOnlyThoughts(): seq<string> {
    ["AteHumanlikeMeatAsIngredient", "AteHumanlikeMeatDirect", "AteRottenFood"]
  }

  predicate CausesDesperateThought(thoughts: seq<ThoughtDef>) {
    exists th :: th in thoughts && th.defName in DesperateOnlyThoughts()
  }

  /** What ever counts as food: nutrition-giving, ingestible now, and something the eater is
      willing to eat (told who fetches it when that is someone else). */
  predicate IsFood(thing: Thing, p: FoodSearchParameters, world: World) {
    && thing.def.IsNutritionGivingIngestible()
    && thing.ingestibleNow
    && world.willEat(p.eater, thing, if p.getter != p.eater then Some(p.getter) else None)
  }

  /** A definition's own category is neither Ignore nor Null. */
  predicate IsValidFoodCategoryOfDef(def: ThingDef) {
    FoodCategories.IsValidFoodCategory(FoodCategories.DetermineFoodCategory(def))
  }

  predicate ResortToBad(eater: Pawn) {
    eater.hunger.Rank() >= HungerCategory.UrgentlyHungry.Rank()
  }

  predicate ResortToDesperate(eater: Pawn) {
    eater.hunger.Rank() >= HungerCategory.Starving.Rank()
  }

  // ---- validation ----

  datatype Reason =
    | Forbidden | IsPlant | CarriedPlant | TooPreferable | IsCorpse | IsDrug
    | NotSociallyProper | DesperateThought | Unreachable

  /** A validation outcome; `Fault` is the exception raised by reading the preferability of a
      thing that has no ingestible properties. */
  datatype Verdict = Accept | Reject(reason: Reason) | Fault

  /** The reachability test, made last because it is the expensive one. */
  function ReachVerdict(thing: Thing, p: FoodSearchParameters, desperate: bool, world: World): Verdict {
    if world.canReach(p.getter, thing.position, desperate) then Accept else Reject(Unreachable)
  }

  /** Whether the thing is eligible in this situation; `desperate` is the parameters' desperate
      flag at the time of the call. Checks run in a fixed order and the first failure decides. */
  function Validate(thing: Thing, p: FoodSearchParameters, desperate: bool, world: World): Verdict {
    if !p.allowForbidden && world.isForbidden(thing, p.getter) then Reject(Forbidden)
    else if thing.def.plant.Some? && !p.allowPlant then Reject(IsPlant)
    else if thing.def.plant.Some? && p.getter != p.eater then Reject(CarriedPlant)
    else if !desperate && !p.eater.animalOrWildMan then
      if thing.def.ingestible.None? then Fault
      else if thing.def.ingestible.value.preferability.Rank() > p.maxPref.Rank() then Reject(TooPreferable)
      else if !p.allowCorpse && thing.kind.CorpseThing? then Reject(IsCorpse)
      else if !p.allowDrug && thing.def.IsDrug() then Reject(IsDrug)
      else if !p.allowSociallyImproper && !world.isSociallyProper(thing, p.eater) then Reject(NotSociallyProper)
      else if CausesDesperateThought(world.thoughtsFromIngesting(p.eater, thing)) then Reject(DesperateThought)
      else ReachVerdict(thing, p, desperate, world)
    else ReachVerdict(thing, p, desperate, world)
  }

  /** The preference checks, which apply only to a non-desperate eater who is not an animal
      or wild man. */
  ghost predicate PreferencesAllow(thing: Thing, p: FoodSearchParameters, world: World) {
    && thing.def.ingestible.Some?
    && thing.def.ingestible.value.preferability.Rank() <= p.maxPref.Rank()
    && (p.allowCorpse || !thing.kind.CorpseThing?)
    && (p.allowDrug || !thing.def.IsDrug())
    && (p.allowSociallyImproper || world.isSociallyProper(thing, p.eater))
    && !CausesDesperateThought(world.thoughtsFromIngesting(p.eater, thing))
  }

  /** A thing is accepted exactly when every applicable check passes. */
  lemma ValidateAcceptIff(thing: Thing, p: FoodSearchParameters, desperate: bool, world: World)
    ensures Validate(thing, p, desperate, world) == Accept <==>
              && (p.allowForbidden || !world.isForbidden(thing, p.getter))
              && (thing.def.plant.Some? ==> p.allowPlant && p.getter == p.eater)
              && (!desperate && !p.eater.animalOrWildMan ==> PreferencesAllow(thing, p, world))
              && world.canReach(p.getter, thing.position, desperate)
  {
  }

  /** Validation faults only on a thing without ingestible properties that reaches the
      preference checks. */
  lemma ValidateFaultIff(thing: Thing, p: FoodSearchParameters, desperate: bool, world: World)
    ensures Validate(thing, p, desperate, world) == Fault <==>
              && (p.allowForbidden || !world.isForbidden(thing, p.getter))
              && (thing.def.plant.Some? ==> p.allowPlant && p.getter == p.eater)
              && !desperate && !p.eater.animalOrWildMan
              && thing.def.ingestible.None?
  {
  }

  /** Food in the engine's sense never makes validation fault. */
  lemma ValidateNeverFaultsOnFood(thing: Thing, p: FoodSearchParameters, desperate: bool, world: World)
    requires thing.def.IsNutritionGivingIngestible()
    ensures Validate(thing, p, desperate, world) != Fault
  {
  }

  /** A definition with a valid category of its own is a race or has ingestible properties. */
  lemma ValidDefIsRaceOrIngestible(def: ThingDef)
    requires IsValidFoodCategoryOfDef(def)
    ensures def.hasRace || def.ingestible.Some?
  {
  }

  // ---- searching a list of candidates ----

  datatype Outcome = Found(thing: Thing) | NotFound | Faulted

  /** From position `i` on, the first candidate of `group` that validates; a fault on the way
      ends the search. */
  function FirstFrom(items: seq<FoodSearchItem>, group: seq<FoodCategory>, i: nat,
                     p: FoodSearchParameters, desperate: bool, world: World): Outcome
    requires i <= |items|
    decreases |items| - i
  {
    if i == |items| then NotFound
    else if items[i].foodCategory in group then
      match Validate(items[i].thing, p, desperate, world)
      case Accept => Found(items[i].thing)
      case Fault => Faulted
      case Reject(_) => FirstFrom(items, group, i + 1, p, desperate, world)
    else FirstFrom(items, group, i + 1, p, desperate, world)
  }

  /** From group `g` on, the first group with a result decides. */
  function GroupsFrom(items: seq<FoodSearchItem>, categories: seq<seq<FoodCategory>>, g: nat,
                      p: FoodSearchParameters, desperate: bool, world: World): Outcome
    requires g <= |categories|
    decreases |categories| - g
  {
    if g == |categories| then NotFound
    else
      var o := FirstFrom(items, categories[g], 0, p, desperate, world);
      if o.NotFound? then GroupsFrom(items, categories, g + 1, p, desperate, world) else o
  }

  /** The search over a candidate list: groups in order of preference, candidates in list order. */
  function SearchSpec(items: seq<FoodSearchItem>, categories: seq<seq<FoodCategory>>,
                      p: FoodSearchParameters, desperate: bool, world: World): Outcome {
    if items == [] then NotFound else GroupsFrom(items, categories, 0, p, desperate, world)
  }

  /** Every candidate of `group` from `i` on is rejected. */
  ghost predicate AllRejectedFrom(items: seq<FoodSearchItem>, group: seq<FoodCategory>, i: int, j: int,
                                  p: FoodSearchParameters, desperate: bool, world: World) {
    forall l :: 0 <= l < |items| && i <= l < j && items[l].foodCategory in group ==>
      Validate(items[l].thing, p, desperate, world).Reject?
  }

  /** Candidate `j` is the first of `group` from `i` on that validates. */
  ghost predicate FirstAcceptedAt(items: seq<FoodSearchItem>, group: seq<FoodCategory>, i: int, j: int,
                                  p: FoodSearchParameters, desperate: bool, world: World) {
    && 0 <= i <= j < |items| && items[j].foodCategory in group
    && Validate(items[j].thing, p, desperate, world) == Accept
    && AllRejectedFrom(items, group, i, j, p, desperate, world)
  }

  lemma {:induction false} FirstFromMeaning(items: seq<FoodSearchItem>, group: seq<FoodCategory>, i: nat,
                                            p: FoodSearchParameters, desperate: bool, world: World)
    requires i <= |items|
    decreases |items| - i
    ensures FirstFrom(items, group, i, p, desperate, world) == NotFound <==>
              AllRejectedFrom(items, group, i, |items|, p, desperate, world)
    ensures FirstFrom(items, group, i, p, desperate, world).Found? ==>
              exists j :: FirstAcceptedAt(items, group, i, j, p, desperate, world) &&
                          FirstFrom(items, group, i, p, desperate, world).thing == items[j].thing
    ensures forall j :: FirstAcceptedAt(items, group, i, j, p, desperate, world) ==>
              FirstFrom(items, group, i, p, desperate, world) == Found(items[j].thing)
  {
    if i < |items| {
      FirstFromMeaning(items, group, i + 1, p, desperate, world);
      var o := FirstFrom(items, group, i, p, desperate, world);
      var v := Validate(items[i].thing, p, desperate, world);
      if items[i].foodCategory in group && v == Accept {
        assert FirstAcceptedAt(items, group, i, i, p, desperate, world);
        forall j | FirstAcceptedAt(items, group, i, j, p, desperate, world) ensures j == i {
        }
      } else {
        if o.Found? {
          var j :| FirstAcceptedAt(items, group, i + 1, j, p, desperate, world) && o.thing == items[j].thing;
          assert FirstAcceptedAt(items, group, i, j, p, desperate, world);
        }
        forall j | FirstAcceptedAt(items, group, i, j, p, desperate, world)
          ensures o == Found(items[j].thing)
        {
          if j == i {
            assert false;
          }
          assert FirstAcceptedAt(items, group, i + 1, j, p, desperate, world);
        }
      }
    }
  }

  lemma {:induction false} FirstFromNoFault(items: seq<FoodSearchItem>, group: seq<FoodCategory>, i: nat,
                                            p: FoodSearchParameters, desperate: bool, world: World)
    requires i <= |items|
    requires forall x :: x in items ==> x.thing.def.IsNutritionGivingIngestible()
    decreases |items| - i
    ensures FirstFrom(items, group, i, p, desperate, world) != Faulted
  {
    if i < |items| {
      ValidateNeverFaultsOnFood(items[i].thing, p, desperate, world);
      FirstFromNoFault(items, group, i + 1, p, desperate, world);
    }
  }

  /** Every candidate of every group from `g` on is rejected. */
  ghost predicate AllGroupsRejectedFrom(items: seq<FoodSearchItem>, categories: seq<seq<FoodCategory>>, g: int, h: int,
                                        p: FoodSearchParameters, desperate: bool, world: World) {
    forall k :: 0 <= g <= k < h && k < |categories| ==> AllRejectedFrom(items, categories[k], 0, |items|, p, desperate, world)
  }

  /** Candidate `j` of group `k` is the search's first match: every earlier group had every
      candidate rejected, and `j` is the first of group `k` that validates. */
  ghost predicate FirstMatch(items: seq<FoodSearchItem>, categories: seq<seq<FoodCategory>>, g: int, k: int, j: int,
                             p: FoodSearchParameters, desperate: bool, world: World) {
    && 0 <= g <= k < |categories|
    && AllGroupsRejectedFrom(items, categories, g, k, p, desperate, world)
    && FirstAcceptedAt(items, categories[k], 0, j, p, desperate, world)
  }

  lemma {:induction false} GroupsFromMeaning(items: seq<FoodSearchItem>, categories: seq<seq<FoodCategory>>, g: nat,
                                             p: FoodSearchParameters, desperate: bool, world: World)
    requires g <= |categories|
    decreases |categories| - g
    ensures GroupsFrom(items, categories, g, p, desperate, world) == NotFound <==>
              AllGroupsRejectedFrom(items, categories, g, |categories|, p, desperate, world)
    ensures GroupsFrom(items, categories, g, p, desperate, world).Found? ==>
              exists k, j :: FirstMatch(items, categories, g, k, j, p, desperate, world) &&
                             GroupsFrom(items, categories, g, p, desperate, world).thing == items[j].thing
    ensures forall k, j :: FirstMatch(items, categories, g, k, j, p, desperate, world) ==>
              GroupsFrom(items, categories, g, p, desperate, world) == Found(items[j].thing)
  {
    if g < |categories| {
      GroupsFromMeaning(items, categories, g + 1, p, desperate, world);
      FirstFromMeaning(items, categories[g], 0, p, desperate, world);
      var first := FirstFrom(items, categories[g], 0, p, desperate, world);
      var o := GroupsFrom(items, categories, g, p, desperate, world);
      if first.NotFound? {
        if o.Found? {
          var k, j :| FirstMatch(items, categories, g + 1, k, j, p, desperate, world) && o.thing == items[j].thing;
          assert FirstMatch(items, categories, g, k, j, p, desperate, world);
        }
        forall k, j | FirstMatch(items, categories, g, k, j, p, desperate, world)
          ensures o == Found(items[j].thing)
        {
          assert FirstMatch(items, categories, g + 1, k, j, p, desperate, world);
        }
      } else {
        assert !AllRejectedFrom(items, categories[g], 0, |items|, p, desperate, world);
        if o.Found? {
          var j :| FirstAcceptedAt(items, categories[g], 0, j, p, desperate, world) && first.thing == items[j].thing;
          assert FirstMatch(items, categories, g, g, j, p, desperate, world);
        }
        forall k, j | FirstMatch(items, categories, g, k, j, p, desperate, world)
          ensures o == Found(items[j].thing)
        {
        }
      }
    }
  }

  lemma {:induction false} GroupsFromNoFault(items: seq<FoodSearchItem>, categories: seq<seq<FoodCategory>>, g: nat,
                                             p: FoodSearchParameters, desperate: bool, world: World)
    requires g <= |categories|
    requires forall x :: x in items ==> x.thing.def.IsNutritionGivingIngestible()
    decreases |categories| - g
    ensures GroupsFrom(items, categories, g, p, desperate, world) != Faulted
  {
    if g < |categories| {
      FirstFromNoFault(items, categories[g], 0, p, desperate, world);
      GroupsFromNoFault(items, categories, g + 1, p, desperate, world);
    }
  }

  /** The search finds nothing exactly when every candidate of every group is rejected; what
      it finds is the first validating candidate of the first group that has one. */
  lemma SearchSpecMeaning(items: seq<FoodSearchItem>, categories: seq<seq<FoodCategory>>,
                          p: FoodSearchParameters, desperate: bool, world: World)
    ensures SearchSpec(items, categories, p, desperate, world) == NotFound <==>
              AllGroupsRejectedFrom(items, categories, 0, |categories|, p, desperate, world)
    ensures SearchSpec(items, categories, p, desperate, world).Found? ==>
              exists k, j :: FirstMatch(items, categories, 0, k, j, p, desperate, world) &&
                             SearchSpec(items, categories, p, desperate, world).thing == items[j].thing
    ensures forall k, j :: FirstMatch(items, categories, 0, k, j, p, desperate, world) ==>
              SearchSpec(items, categories, p, desperate, world) == Found(items[j].thing)
    ensures (forall x :: x in items ==> x.thing.def.IsNutritionGivingIngestible()) ==>
              SearchSpec(items, categories, p, desperate, world) != Faulted
  {
    GroupsFromMeaning(items, categories, 0, p, desperate, world);
    if forall x :: x in items ==> x.thing.def.IsNutritionGivingIngestible() {
      GroupsFromNoFault(items, categories, 0, p, desperate, world);
    }
  }

  /** Groups in order of preference, candidates in list order, first validating one wins. */
  method SearchFoods(foods: seq<FoodSearchItem>, categories: seq<seq<FoodCategory>>,
                     p: FoodSearchParameters, world: World) returns (o: Outcome)
    ensures o == SearchSpec(foods, categories, p, p.desperate, world)
  {
    if foods == [] {
      return NotFound;
    }
    var g := 0;
    while g < |categories|
      invariant 0 <= g <= |categories|
      invariant GroupsFrom(foods, categories, 0, p, p.desperate, world) == GroupsFrom(foods, categories, g, p, p.desperate, world)
    {
      var group := categories[g];
      var i := 0;
      while i < |foods|
        invariant 0 <= i <= |foods|
        invariant FirstFrom(foods, group, 0, p, p.desperate, world) == FirstFrom(foods, group, i, p, p.desperate, world)
      {
        var item := foods[i];
        if item.foodCategory in group {
          var v := Validate(item.thing, p, p.desperate, world);
          if v == Accept {
            return Found(item.thing);
          } else if v == Fault {
            return Faulted;
          }
        }
        i := i + 1;
      }
      g := g + 1;
    }
    return NotFound;
  }

  // ---- collecting candidates ----

  /** A candidate: food whose category, as the cache holds it, is valid. */
  predicate FoodCandidate(thing: Thing, p: FoodSearchParameters, world: World, entries: map<ThingDef, FoodCategory>) {
    IsFood(thing, p, world) && thing.def in entries && FoodCategories.IsValidFoodCategory(entries[thing.def])
  }

  function Candidates(things: seq<Thing>, p: FoodSearchParameters, world: World, entries: map<ThingDef, FoodCategory>): seq<Thing> {
    Seqs.Filter(things, (t: Thing) => FoodCandidate(t, p, world, entries))
  }

  /** The candidates of `things`, nearest to `origin` first, ties in scan order. */
  function Foods(things: seq<Thing>, origin: IntVec3, p: FoodSearchParameters, world: World,
                 entries: map<ThingDef, FoodCategory>): seq<Thing> {
    Seqs.SortBy(Candidates(things, p, world, entries), (t: Thing) => ItemDistance(origin, t))
  }

  /** Every food thing of `things` has a cache entry. */
  ghost predicate FoodsKnown(things: seq<Thing>, p: FoodSearchParameters, world: World, entries: map<ThingDef, FoodCategory>) {
    forall t :: t in things && IsFood(t, p, world) ==> t.def in entries
  }

  /** An item that `GetFoods` keeps. */
  ghost predicate Kept(x: FoodSearchItem, origin: IntVec3, p: FoodSearchParameters, world: World,
                       entries: map<ThingDef, FoodCategory>) {
    BuiltFrom(x, origin, entries) && IsFood(x.thing, p, world) && FoodCategories.IsValidFoodCategory(x.foodCategory)
  }

  lemma CandidatesStay(things: seq<Thing>, p: FoodSearchParameters, world: World,
                       e1: map<ThingDef, FoodCategory>, e2: map<ThingDef, FoodCategory>)
    requires FoodsKnown(things, p, world, e1) && CategoryCache11.Extends(e2, e1)
    ensures Candidates(things, p, world, e1) == Candidates(things, p, world, e2)
  {
    Seqs.FilterCongruent(things, (t: Thing) => FoodCandidate(t, p, world, e1), (t: Thing) => FoodCandidate(t, p, world, e2));
  }

  /** One step of `GetFoods` on a food thing whose item was just built. */
  lemma GetFoodsStep(done: seq<Thing>, built: seq<FoodSearchItem>, item: FoodSearchItem, origin: IntVec3,
                     p: FoodSearchParameters, world: World, e1: map<ThingDef, FoodCategory>, e2: map<ThingDef, FoodCategory>)
    requires FoodsKnown(done, p, world, e1) && CategoryCache11.Extends(e2, e1)
    requires ThingsOf(built) == Candidates(done, p, world, e1)
    requires forall x :: x in built ==> Kept(x, origin, p, world, e1)
    requires BuiltFrom(item, origin, e2) && IsFood(item.thing, p, world)
    ensures FoodsKnown(done + [item.thing], p, world, e2)
    ensures var next := if FoodCategories.IsValidFoodCategory(item.foodCategory) then built + [item] else built;
            && ThingsOf(next) == Candidates(done + [item.thing], p, world, e2)
            && forall x :: x in next ==> Kept(x, origin, p, world, e2)
  {
    forall x | x in built ensures BuiltFrom(x, origin, e2) {
      BuiltFromExtends(x, origin, e1, e2);
    }
    CandidatesStay(done, p, world, e1, e2);
    Seqs.FilterSnoc(done, item.thing, (t: Thing) => FoodCandidate(t, p, world, e2));
    Seqs.MapConcat(built, [item], (x: FoodSearchItem) => x.thing);
  }

  /** Items for the food of `things` with a valid category, nearest first. */
  method GetFoods(things: seq<Thing>, start: IntVec3, p: FoodSearchParameters, world: World,
                  cache: CategoryCache11.FoodCategoryCache) returns (foods: seq<FoodSearchItem>)
    requires cache.Valid()
    modifies cache
    ensures cache.Valid() && CategoryCache11.Extends(cache.cache, old(cache.cache))
    ensures FoodsKnown(things, p, world, cache.cache)
    ensures ThingsOf(foods) == Foods(things, start, p, world, cache.cache)
    ensures forall x :: x in foods ==> Kept(x, start, p, world, cache.cache)
    ensures Seqs.SortedBy(foods, (x: FoodSearchItem) => x.distance)
  {
    var built: seq<FoodSearchItem> := [];
    var i := 0;
    while i < |things|
      invariant 0 <= i <= |things|
      invariant cache.Valid() && CategoryCache11.Extends(cache.cache, old(cache.cache))
      invariant FoodsKnown(things[..i], p, world, cache.cache)
      invariant ThingsOf(built) == Candidates(things[..i], p, world, cache.cache)
      invariant forall x :: x in built ==> Kept(x, start, p, world, cache.cache)
    {
      var thing := things[i];
      assert things[..i + 1] == things[..i] + [thing];
      if IsFood(thing, p, world) {
        ghost var before := cache.cache;
        var item := new FoodSearchItem(thing, start, cache);
        GetFoodsStep(things[..i], built, item, start, p, world, before, cache.cache);
        if FoodCategories.IsValidFoodCategory(item.foodCategory) {
          built := built + [item];
        }
      } else {
        ghost var entries := cache.cache;
        Seqs.FilterSnoc(things[..i], thing, (t: Thing) => FoodCandidate(t, p, world, entries));
      }
      i := i + 1;
    }
    assert things[..|things|] == things;
    foods := Seqs.SortBy(built, (x: FoodSearchItem) => x.distance);
    Seqs.SortByMap(built, (x: FoodSearchItem) => x.distance, (x: FoodSearchItem) => x.thing,
                   (t: Thing) => ItemDistance(start, t));
    Seqs.SortByCorrect(built, (x: FoodSearchItem) => x.distance);
    forall x | x in foods ensures Kept(x, start, p, world, cache.cache) {
      Seqs.SortByElements(built, (x: FoodSearchItem) => x.distance, x);
    }
  }

  /** The candidate list is ordered by distance and is a permutation of the candidates. */
  lemma FoodsSorted(things: seq<Thing>, origin: IntVec3, p: FoodSearchParameters, world: World,
                    entries: map<ThingDef, FoodCategory>)
    ensures Seqs.SortedBy(Foods(things, origin, p, world, entries), (t: Thing) => ItemDistance(origin, t))
    ensures multiset(Foods(things, origin, p, world, entries)) == multiset(Candidates(things, p, world, entries))
  {
    Seqs.SortByCorrect(Candidates(things, p, world, entries), (t: Thing) => ItemDistance(origin, t));
  }

  /** It holds exactly the scanned things that are food with a valid category. */
  lemma FoodsMembers(things: seq<Thing>, origin: IntVec3, p: FoodSearchParameters, world: World,
                     entries: map<ThingDef, FoodCategory>, t: Thing)
    ensures t in Foods(things, origin, p, world, entries) <==> t in things && FoodCandidate(t, p, world, entries)
  {
    var candidates := Candidates(things, p, world, entries);
    FoodsSorted(things, origin, p, world, entries);
    if t in things && FoodCandidate(t, p, world, entries) {
      Seqs.FilterKeeps(things, (t: Thing) => FoodCandidate(t, p, world, entries), t);
      assert t in multiset(candidates);
    }
    if t in Foods(things, origin, p, world, entries) {
      assert t in multiset(candidates);
    }
  }

  /** Things at the same distance keep the order of the scan. */
  lemma FoodsStable(things: seq<Thing>, origin: IntVec3, p: FoodSearchParameters, world: World,
                    entries: map<ThingDef, FoodCategory>, d: int)
    ensures Seqs.Filter(Foods(things, origin, p, world, entries), (t: Thing) => ItemDistance(origin, t) == d)
            == Seqs.Filter(Candidates(things, p, world, entries), (t: Thing) => ItemDistance(origin, t) == d)
  {
    Seqs.SortByStableFor(Candidates(things, p, world, entries), (t: Thing) => ItemDistance(origin, t), d,
                         (t: Thing) => ItemDistance(origin, t) == d);
  }

  // ---- the whole search ----

  /** Which step of the search decided the result. */
  datatype Stage =
    | NoProfile | GoodInventory | EmptyMap | GoodNearby | GoodFaraway | NotResortingToBad
    | BadInventory | BadMap | NotResortingToDesperate | DesperateInventory | DesperateMap | NothingFound

  /** The result, the desperate flag the parameters end with, and the deciding step. */
  datatype Decided = Decided(result: FoodSearchResult, desperate: bool, stage: Stage)

  /** A successful result with no thing: the caller uses it and does not fall back. */
  function NothingToEat(): (r: FoodSearchResult)
    ensures r.success && r.thing.None? && r.def.None?
  {
    FoodSearchResult(None, None, true)
  }

  /** A found thing is a success; a fault is caught and reported as the default result. */
  function Settle(o: Outcome): FoodSearchResult {
    if o.Found? then FoodSearchResult(Some(o.thing), None, true) else DefaultResult()
  }

  function Nearby(foods: seq<FoodSearchItem>): seq<FoodSearchItem> {
    Seqs.Filter(foods, (x: FoodSearchItem) => x.distance <= NearbySearchRadius)
  }

  function Faraway(foods: seq<FoodSearchItem>): seq<FoodSearchItem> {
    Seqs.Filter(foods, (x: FoodSearchItem) => x.distance > NearbySearchRadius)
  }

  /** The search, given the eater's profile, the inventory candidates (empty when the
      inventory is not used) and the map candidates; `initial` is the desperate flag the
      parameters start with. */
  function Decision(p: FoodSearchParameters, initial: bool, world: World, profile: Option<Profiles.Profile>,
                    inventory: seq<FoodSearchItem>, foods: seq<FoodSearchItem>): Decided {
    if profile.None? then Decided(DefaultResult(), initial, NoProfile)
    else
      var goodInventory := SearchSpec(inventory, profile.value.good, p, initial, world);
      if !goodInventory.NotFound? then Decided(Settle(goodInventory), initial, GoodInventory)
      else if world.mapThings == [] then Decided(NothingToEat(), initial, EmptyMap)
      else MapDecision(p, initial, world, profile.value, inventory, foods)
  }

  /** Good food on the map, nearby before far away; then Bad food if urgently hungry. */
  function MapDecision(p: FoodSearchParameters, initial: bool, world: World, profile: Profiles.Profile,
                       inventory: seq<FoodSearchItem>, foods: seq<FoodSearchItem>): Decided {
    var goodNearby := SearchSpec(Nearby(foods), profile.good, p, initial, world);
    if !goodNearby.NotFound? then Decided(Settle(goodNearby), initial, GoodNearby)
    else
      var goodFaraway := SearchSpec(Faraway(foods), profile.good, p, initial, world);
      if !goodFaraway.NotFound? then Decided(Settle(goodFaraway), initial, GoodFaraway)
      else if !ResortToBad(p.eater) then Decided(NothingToEat(), initial, NotResortingToBad)
      else BadDecision(p, initial, world, profile, inventory, foods)
  }

  /** Bad food, inventory before map; then Desperate food if starving. */
  function BadDecision(p: FoodSearchParameters, initial: bool, world: World, profile: Profiles.Profile,
                       inventory: seq<FoodSearchItem>, foods: seq<FoodSearchItem>): Decided {
    var badInventory := SearchSpec(inventory, profile.bad, p, initial, world);
    if !badInventory.NotFound? then Decided(Settle(badInventory), initial, BadInventory)
    else
      var badMap := SearchSpec(foods, profile.bad, p, initial, world);
      if !badMap.NotFound? then Decided(Settle(badMap), initial, BadMap)
      else if !ResortToDesperate(p.eater) then Decided(NothingToEat(), initial, NotResortingToDesperate)
      else DesperateDecision(p, world, profile, inventory, foods)
  }

  /** Desperate food, inventory before map, validated as desperate; nothing found is still a
      success, so the excluded foods stay excluded. */
  function DesperateDecision(p: FoodSearchParameters, world: World, profile: Profiles.Profile,
                             inventory: seq<FoodSearchItem>, foods: seq<FoodSearchItem>): Decided {
    var desperateInventory := SearchSpec(inventory, profile.desperate, p, true, world);
    if !desperateInventory.NotFound? then Decided(Settle(desperateInventory), true, DesperateInventory)
    else
      var desperateMap := SearchSpec(foods, profile.desperate, p, true, world);
      if !desperateMap.NotFound? then Decided(Settle(desperateMap), true, DesperateMap)
      else Decided(NothingToEat(), true, NothingFound)
  }

  /** The inventory is searched only for a getter who may use it, can manipulate, and
      carries something. */
  predicate UsesInventory(p: FoodSearchParameters) {
    p.canUseInventory && Extensions.CanManipulate(p.getter) && p.getter.InventoryThings() != []
  }

  /** The map is scanned once a profile exists, the Good inventory search found nothing and
      the map holds things. */
  ghost predicate ScansMap(p: FoodSearchParameters, initial: bool, world: World, inventory: seq<FoodSearchItem>) {
    && Profiles.For(p.eater).Some?
    && SearchSpec(inventory, Profiles.For(p.eater).value.good, p, initial, world).NotFound?
    && world.mapThings != []
  }

  /** Finds the best, closest food. `inventory` and `foods` are the candidate lists the search
      built (`foods` only once it scans the map). */
  method Find(p: FoodSearchParameters, world: World, cache: CategoryCache11.FoodCategoryCache)
    returns (result: FoodSearchResult, ghost inventory: seq<FoodSearchItem>, ghost foods: seq<FoodSearchItem>)
    requires cache.Valid()
    modifies p`desperate, cache
    ensures cache.Valid() && CategoryCache11.Extends(cache.cache, old(cache.cache))
    ensures var d := Decision(p, old(p.desperate), world, Profiles.For(p.eater), inventory, foods);
            result == d.result && p.desperate == d.desperate
    ensures ThingsOf(inventory) ==
              if Profiles.For(p.eater).Some? && UsesInventory(p)
              then Foods(p.getter.InventoryThings(), Zero, p, world, cache.cache) else []
    ensures ScansMap(p, old(p.desperate), world, inventory) ==>
              ThingsOf(foods) == Foods(world.mapThings, p.getter.position, p, world, cache.cache)
    ensures forall x :: x in inventory ==> Kept(x, Zero, p, world, cache.cache)
    ensures forall x :: x in foods ==> Kept(x, p.getter.position, p, world, cache.cache)
  {
    inventory := [];
    foods := [];
    var profile := Profiles.For(p.eater);
    if profile.None? {
      return DefaultResult(), inventory, foods;
    }
    var pr := profile.value;
    var inventoryFoods: seq<FoodSearchItem> := [];
    if p.canUseInventory && Extensions.CanManipulate(p.getter) {
      var carried := p.getter.InventoryThings();
      if carried != [] {
        inventoryFoods := GetFoods(carried, Zero, p, world, cache);
        inventory := inventoryFoods;
        var found := SearchFoods(inventoryFoods, pr.good, p, world);
        if !found.NotFound? {
          return Settle(found), inventory, foods;
        }
      }
    }
    ghost var afterInventory := cache.cache;
    if world.mapThings == [] {
      return NothingToEat(), inventory, foods;
    }
    var mapFoods := GetFoods(world.mapThings, p.getter.position, p, world, cache);
    foods := mapFoods;
    if UsesInventory(p) {
      InventoryFoodsStay(p.getter.InventoryThings(), Zero, p, world, afterInventory, cache.cache, inventory);
    }
    result := SearchMap(p, world, pr, inventoryFoods, mapFoods);
  }

  /** The part of `Find` after the map scan. */
  method SearchMap(p: FoodSearchParameters, world: World, profile: Profiles.Profile,
                   inventory: seq<FoodSearchItem>, foods: seq<FoodSearchItem>) returns (result: FoodSearchResult)
    modifies p`desperate
    ensures var d := MapDecision(p, old(p.desperate), world, profile, inventory, foods);
            result == d.result && p.desperate == d.desperate
  {
    var found := SearchFoods(Nearby(foods), profile.good, p, world);
    if !found.NotFound? {
      return Settle(found);
    }
    found := SearchFoods(Faraway(foods), profile.good, p, world);
    if !found.NotFound? {
      return Settle(found);
    }
    if !ResortToBad(p.eater) {
      return NothingToEat();
    }
    found := SearchFoods(inventory, profile.bad, p, world);
    if !found.NotFound? {
      return Settle(found);
    }
    found := SearchFoods(foods, profile.bad, p, world);
    if !found.NotFound? {
      return Settle(found);
    }
    if !ResortToDesperate(p.eater) {
      return NothingToEat();
    }
    p.desperate := true;
    found := SearchFoods(inventory, profile.desperate, p, world);
    if !found.NotFound? {
      return Settle(found);
    }
    found := SearchFoods(foods, profile.desperate, p, world);
    if !found.NotFound? {
      return Settle(found);
    }
    return NothingToEat();
  }

  /** The steps that come after the Good tier found nothing. */
  predicate AfterGood(s: Stage) {
    s in {NotResortingToBad, BadInventory, BadMap, NotResortingToDesperate, DesperateInventory, DesperateMap, NothingFound}
  }

  /** The steps of the Desperate tier. */
  predicate DesperateStage(s: Stage) {
    s in {DesperateInventory, DesperateMap, NothingFound}
  }

  /** The hunger gates: Bad food is considered only when urgently hungry, Desperate food only
      when starving, and the desperate flag is raised exactly on entering the Desperate tier. */
  lemma DecisionGates(p: FoodSearchParameters, initial: bool, world: World, profile: Option<Profiles.Profile>,
                      inventory: seq<FoodSearchItem>, foods: seq<FoodSearchItem>)
    ensures var d := Decision(p, initial, world, profile, inventory, foods);
            && (d.stage == NoProfile <==> profile.None?)
            && (d.stage == EmptyMap ==> world.mapThings == [])
            && (d.stage == NotResortingToBad ==> !ResortToBad(p.eater))
            && (AfterGood(d.stage) && d.stage != NotResortingToBad ==> ResortToBad(p.eater))
            && (d.stage == NotResortingToDesperate ==> !ResortToDesperate(p.eater))
            && (DesperateStage(d.stage) ==> ResortToDesperate(p.eater))
            && (d.desperate <==> initial || DesperateStage(d.stage))
  {
  }

  /** What a search finds is a candidate of the list that validates and whose category the
      tier lists. */
  lemma FoundInTier(items: seq<FoodSearchItem>, tier: seq<seq<FoodCategory>>,
                    p: FoodSearchParameters, desperate: bool, world: World)
    requires SearchSpec(items, tier, p, desperate, world).Found?
    ensures exists x :: x in items && x.thing == SearchSpec(items, tier, p, desperate, world).thing &&
                        Validate(x.thing, p, desperate, world) == Accept && Profiles.Lists(tier, x.foodCategory)
  {
    SearchSpecMeaning(items, tier, p, desperate, world);
    var k, j :| FirstMatch(items, tier, 0, k, j, p, desperate, world) &&
                SearchSpec(items, tier, p, desperate, world).thing == items[j].thing;
    assert items[j] in items && Profiles.Lists(tier, items[j].foodCategory);
  }

  /** A search that finds nothing rejected every candidate whose category the tier lists. */
  lemma NotFoundRejects(items: seq<FoodSearchItem>, tier: seq<seq<FoodCategory>>,
                        p: FoodSearchParameters, desperate: bool, world: World, x: FoodSearchItem)
    requires SearchSpec(items, tier, p, desperate, world) == NotFound
    requires x in items && Profiles.Lists(tier, x.foodCategory)
    ensures Validate(x.thing, p, desperate, world).Reject?
  {
    SearchSpecMeaning(items, tier, p, desperate, world);
    var k :| 0 <= k < |tier| && x.foodCategory in tier[k];
    var l :| 0 <= l < |items| && items[l] == x;
    assert AllRejectedFrom(items, tier[k], 0, |items|, p, desperate, world);
  }

  /** The tier a stage searches. */
  function TierOf(s: Stage, profile: Profiles.Profile): seq<seq<FoodCategory>> {
    if s in {GoodInventory, GoodNearby, GoodFaraway} then profile.good
    else if s in {BadInventory, BadMap} then profile.bad
    else profile.desperate
  }

  /** The stages at which a search returns a thing. */
  predicate FindingStage(s: Stage) {
    s in {GoodInventory, GoodNearby, GoodFaraway, BadInventory, BadMap, DesperateInventory, DesperateMap}
  }

  /** The returned thing is one of the candidates the search built, validated under the final
      desperate flag, of a category that `tier` lists. */
  ghost predicate Justified(d: Decided, tier: seq<seq<FoodCategory>>, inventory: seq<FoodSearchItem>, foods: seq<FoodSearchItem>,
                            p: FoodSearchParameters, world: World) {
    var all := inventory + foods;
    exists i :: 0 <= i < |all| && Some(all[i].thing) == d.result.thing &&
                Validate(all[i].thing, p, d.desperate, world) == Accept &&
                Profiles.Lists(tier, all[i].foodCategory)
  }

  lemma TierFound(items: seq<FoodSearchItem>, tier: seq<seq<FoodCategory>>, flag: bool, d: Decided,
                  inventory: seq<FoodSearchItem>, foods: seq<FoodSearchItem>,
                  p: FoodSearchParameters, world: World)
    requires SearchSpec(items, tier, p, flag, world).Found?
    requires d.result.thing == Some(SearchSpec(items, tier, p, flag, world).thing) && d.desperate == flag
    requires forall x :: x in items ==> x in inventory || x in foods
    ensures Justified(d, tier, inventory, foods, p, world)
  {
    FoundInTier(items, tier, p, flag, world);
    var x :| x in items && x.thing == SearchSpec(items, tier, p, flag, world).thing &&
             Validate(x.thing, p, flag, world) == Accept && Profiles.Lists(tier, x.foodCategory);
    var all := inventory + foods;
    assert x in all;
    var i :| 0 <= i < |all| && all[i] == x;
  }

  lemma DesperateDecisionFound(p: FoodSearchParameters, world: World, profile: Profiles.Profile,
                               inventory: seq<FoodSearchItem>, foods: seq<FoodSearchItem>)
    requires DesperateDecision(p, world, profile, inventory, foods).result.thing.Some?
    ensures var d := DesperateDecision(p, world, profile, inventory, foods);
            && d.stage in {DesperateInventory, DesperateMap} && d.result.success
            && Justified(d, profile.desperate, inventory, foods, p, world)
  {
    var d := DesperateDecision(p, world, profile, inventory, foods);
    if SearchSpec(inventory, profile.desperate, p, true, world).Found? {
      TierFound(inventory, profile.desperate, true, d, inventory, foods, p, world);
    } else {
      TierFound(foods, profile.desperate, true, d, inventory, foods, p, world);
    }
  }

  lemma BadDecisionFound(p: FoodSearchParameters, initial: bool, world: World, profile: Profiles.Profile,
                         inventory: seq<FoodSearchItem>, foods: seq<FoodSearchItem>)
    requires BadDecision(p, initial, world, profile, inventory, foods).result.thing.Some?
    ensures var d := BadDecision(p, initial, world, profile, inventory, foods);
            && d.stage in {BadInventory, BadMap, DesperateInventory, DesperateMap} && d.result.success
            && Justified(d, TierOf(d.stage, profile), inventory, foods, p, world)
  {
    var d := BadDecision(p, initial, world, profile, inventory, foods);
    if SearchSpec(inventory, profile.bad, p, initial, world).Found? {
      TierFound(inventory, profile.bad, initial, d, inventory, foods, p, world);
    } else if SearchSpec(inventory, profile.bad, p, initial, world).NotFound? && SearchSpec(foods, profile.bad, p, initial, world).Found? {
      TierFound(foods, profile.bad, initial, d, inventory, foods, p, world);
    } else {
      DesperateDecisionFound(p, world, profile, inventory, foods);
    }
  }

  lemma MapDecisionFound(p: FoodSearchParameters, initial: bool, world: World, profile: Profiles.Profile,
                         inventory: seq<FoodSearchItem>, foods: seq<FoodSearchItem>)
    requires MapDecision(p, initial, world, profile, inventory, foods).result.thing.Some?
    ensures var d := MapDecision(p, initial, world, profile, inventory, foods);
            && FindingStage(d.stage) && d.stage != GoodInventory && d.result.success
            && Justified(d, TierOf(d.stage, profile), inventory, foods, p, world)
  {
    var d := MapDecision(p, initial, world, profile, inventory, foods);
    var nearby := SearchSpec(Nearby(foods), profile.good, p, initial, world);
    var faraway := SearchSpec(Faraway(foods), profile.good, p, initial, world);
    if nearby.Found? {
      TierFound(Nearby(foods), profile.good, initial, d, inventory, foods, p, world);
    } else if nearby.NotFound? && faraway.Found? {
      TierFound(Faraway(foods), profile.good, initial, d, inventory, foods, p, world);
    } else {
      BadDecisionFound(p, initial, world, profile, inventory, foods);
    }
  }

  /** A thing the search returns comes with a profile and success; it is a candidate the search
      built, validated under the final desperate flag, of a category that the tier of the
      deciding stage lists. */
  lemma DecisionFound(p: FoodSearchParameters, initial: bool, world: World, profile: Option<Profiles.Profile>,
                      inventory: seq<FoodSearchItem>, foods: seq<FoodSearchItem>)
    requires Decision(p, initial, world, profile, inventory, foods).result.thing.Some?
    ensures profile.Some?
    ensures var d := Decision(p, initial, world, profile, inventory, foods);
            && FindingStage(d.stage) && d.result.success
            && Justified(d, TierOf(d.stage, profile.value), inventory, foods, p, world)
  {
    var d := Decision(p, initial, world, profile, inventory, foods);
    if SearchSpec(inventory, profile.value.good, p, initial, world).Found? {
      TierFound(inventory, profile.value.good, initial, d, inventory, foods, p, world);
    } else {
      MapDecisionFound(p, initial, world, profile.value, inventory, foods);
    }
  }

  /** Hunger limits the tier of what is returned: an eater who is not urgently hungry gets a
      thing of a Good category, and one who is not starving a thing of a Good or Bad one. */
  lemma HungerLimitsTier(p: FoodSearchParameters, initial: bool, world: World, profile: Option<Profiles.Profile>,
                         inventory: seq<FoodSearchItem>, foods: seq<FoodSearchItem>)
    requires Decision(p, initial, world, profile, inventory, foods).result.thing.Some?
    ensures profile.Some?
    ensures var d := Decision(p, initial, world, profile, inventory, foods);
            !ResortToBad(p.eater) ==> Justified(d, profile.value.good, inventory, foods, p, world)
    ensures var d := Decision(p, initial, world, profile, inventory, foods);
            !ResortToDesperate(p.eater) ==>
              Justified(d, profile.value.good, inventory, foods, p, world) ||
              Justified(d, profile.value.bad, inventory, foods, p, world)
  {
    DecisionFound(p, initial, world, profile, inventory, foods);
    DecisionGates(p, initial, world, profile, inventory, foods);
  }

  /** What the stages that return no thing return: the default (unsuccessful) result without a
      profile, and a successful result with no thing when the map is empty, when the eater is
      not hungry enough for the next tier, and when the Desperate tier found nothing. */
  lemma NoThingStages(p: FoodSearchParameters, initial: bool, world: World, profile: Option<Profiles.Profile>,
                      inventory: seq<FoodSearchItem>, foods: seq<FoodSearchItem>)
    ensures var d := Decision(p, initial, world, profile, inventory, foods);
            && (d.stage == NoProfile ==> d.result == DefaultResult())
            && (d.stage in {EmptyMap, NotResortingToBad, NotResortingToDesperate, NothingFound} ==>
                  d.result == NothingToEat())
            && (!FindingStage(d.stage) ==> d.result.thing.None?)
  {
  }

  /** Inside each tier, carried things come first: a thing from the map is returned only when
      every carried candidate of that tier was rejected under the same desperate flag. */
  lemma InventoryBeforeMap(p: FoodSearchParameters, initial: bool, world: World, profile: Option<Profiles.Profile>,
                           inventory: seq<FoodSearchItem>, foods: seq<FoodSearchItem>, x: FoodSearchItem)
    requires Decision(p, initial, world, profile, inventory, foods).stage in {GoodNearby, GoodFaraway, BadMap, DesperateMap}
    requires profile.Some? && x in inventory
    requires Profiles.Lists(TierOf(Decision(p, initial, world, profile, inventory, foods).stage, profile.value), x.foodCategory)
    ensures Validate(x.thing, p, Decision(p, initial, world, profile, inventory, foods).desperate, world).Reject?
  {
    var d := Decision(p, initial, world, profile, inventory, foods);
    if d.stage == DesperateMap {
      NotFoundRejects(inventory, profile.value.desperate, p, true, world, x);
    } else {
      NotFoundRejects(inventory, TierOf(d.stage, profile.value), p, initial, world, x);
    }
  }

  /** Tier order: once the Good tier is passed over, every Good candidate, carried or on the
      map, was rejected. */
  lemma GoodBeforeBad(p: FoodSearchParameters, initial: bool, world: World, profile: Option<Profiles.Profile>,
                      inventory: seq<FoodSearchItem>, foods: seq<FoodSearchItem>, x: FoodSearchItem)
    requires AfterGood(Decision(p, initial, world, profile, inventory, foods).stage)
    requires (x in inventory || x in foods) && profile.Some? && Profiles.Lists(profile.value.good, x.foodCategory)
    ensures Validate(x.thing, p, initial, world).Reject?
  {
    var pr := profile.value;
    if x in inventory {
      NotFoundRejects(inventory, pr.good, p, initial, world, x);
    } else if x.distance <= NearbySearchRadius {
      Seqs.FilterKeeps(foods, (x: FoodSearchItem) => x.distance <= NearbySearchRadius, x);
      NotFoundRejects(Nearby(foods), pr.good, p, initial, world, x);
    } else {
      Seqs.FilterKeeps(foods, (x: FoodSearchItem) => x.distance > NearbySearchRadius, x);
      NotFoundRejects(Faraway(foods), pr.good, p, initial, world, x);
    }
  }

  /** Nearby before far away: a Good thing from far away is returned only when every carried
      and every nearby Good candidate was rejected. */
  lemma NearbyBeforeFaraway(p: FoodSearchParameters, initial: bool, world: World, profile: Option<Profiles.Profile>,
                            inventory: seq<FoodSearchItem>, foods: seq<FoodSearchItem>, x: FoodSearchItem)
    requires Decision(p, initial, world, profile, inventory, foods).stage == GoodFaraway
    requires (x in inventory || (x in foods && x.distance <= NearbySearchRadius))
    requires profile.Some? && Profiles.Lists(profile.value.good, x.foodCategory)
    ensures Validate(x.thing, p, initial, world).Reject?
  {
    var pr := profile.value;
    if x in inventory {
      NotFoundRejects(inventory, pr.good, p, initial, world, x);
    } else {
      Seqs.FilterKeeps(foods, (x: FoodSearchItem) => x.distance <= NearbySearchRadius, x);
      NotFoundRejects(Nearby(foods), pr.good, p, initial, world, x);
    }
  }

  /** Bad before Desperate: the Desperate tier is entered only when every Bad candidate was
      rejected. */
  lemma BadBeforeDesperate(p: FoodSearchParameters, initial: bool, world: World, profile: Option<Profiles.Profile>,
                           inventory: seq<FoodSearchItem>, foods: seq<FoodSearchItem>, x: FoodSearchItem)
    requires DesperateStage(Decision(p, initial, world, profile, inventory, foods).stage)
    requires (x in inventory || x in foods) && profile.Some? && Profiles.Lists(profile.value.bad, x.foodCategory)
    ensures Validate(x.thing, p, initial, world).Reject?
  {
    if x in inventory {
      NotFoundRejects(inventory, profile.value.bad, p, initial, world, x);
    } else {
      NotFoundRejects(foods, profile.value.bad, p, initial, world, x);
    }
  }

  /** With food candidates only, nothing faults, so the search succeeds exactly when the
      eater has a profile; without one the caller falls back to the host's search. */
  lemma SucceedsExactlyWithProfile(p: FoodSearchParameters, initial: bool, world: World, profile: Option<Profiles.Profile>,
                                   inventory: seq<FoodSearchItem>, foods: seq<FoodSearchItem>)
    requires forall x :: x in inventory ==> x.thing.def.IsNutritionGivingIngestible()
    requires forall x :: x in foods ==> x.thing.def.IsNutritionGivingIngestible()
    ensures Decision(p, initial, world, profile, inventory, foods).result.success <==> profile.Some?
  {
    if profile.Some? {
      var pr := profile.value;
      SearchSpecMeaning(inventory, pr.good, p, initial, world);
      SearchSpecMeaning(Nearby(foods), pr.good, p, initial, world);
      SearchSpecMeaning(Faraway(foods), pr.good, p, initial, world);
      SearchSpecMeaning(inventory, pr.bad, p, initial, world);
      SearchSpecMeaning(foods, pr.bad, p, initial, world);
      SearchSpecMeaning(inventory, pr.desperate, p, true, world);
      SearchSpecMeaning(foods, pr.desperate, p, true, world);
    }
  }

  /** The inventory candidates keep their meaning when the map scan grows the cache. */
  lemma InventoryFoodsStay(things: seq<Thing>, origin: IntVec3, p: FoodSearchParameters, world: World,
                           e1: map<ThingDef, FoodCategory>, e2: map<ThingDef, FoodCategory>, items: seq<FoodSearchItem>)
    requires CategoryCache11.Extends(e2, e1)
    requires ThingsOf(items) == Foods(things, origin, p, world, e1)
    requires forall x :: x in items ==> Kept(x, origin, p, world, e1)
    requires FoodsKnown(things, p, world, e1)
    ensures ThingsOf(items) == Foods(things, origin, p, world, e2)
    ensures forall x :: x in items ==> Kept(x, origin, p, world, e2)
  {
    CandidatesStay(things, p, world, e1, e2);
    forall x | x in items ensures BuiltFrom(x, origin, e2) {
      BuiltFromExtends(x, origin, e1, e2);
    }
  }
}
