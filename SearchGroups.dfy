/**
  The places a search looks, in order, built lazily and remembered: the getter's inventory,
  then (for the player's pawns and guests) the home area and the rest of the map, or (for
  everyone else) the whole map. A group is computed only when the consumer asks for it, and
  the groups already handed out are replayed on every later enumeration.
*/
module SearchGroups {
  import opened Base
  import opened Verse
  import Extensions
  import CategoryCache11
  import opened SearchItems
  import Seqs

  /** The thing an entry-table `entries` lets through the pre-filter: its category is known
      and the thing is ingestible now under it. */
  predicate IngestibleUnder(thing: Thing, entries: map<ThingDef, FoodCategories.FoodCategory>) {
    thing.def in entries && ThingIngestibleNow(thing, entries[thing.def])
  }

  /** The things of `things` that pass the pre-filter, in their original order. */
  function IngestibleThings(things: seq<Thing>, entries: map<ThingDef, FoodCategories.FoodCategory>): seq<Thing> {
    Seqs.Filter(things, (t: Thing) => IngestibleUnder(t, entries))
  }

  /** The player's pawns and guests get three groups (inventory, home area, elsewhere),
      everyone else two (inventory, map). */
  predicate UsesColonistGroups(getter: Pawn) {
    Extensions.IsPlayerFaction(getter) || Extensions.IsGuest(getter)
  }

  function GroupCount(getter: Pawn): nat {
    if UsesColonistGroups(getter) then 3 else 2
  }

  /** Inside the home area, judged at the cell the item gets from the getter's position. */
  predicate AtHome(world: World, getter: Pawn, thing: Thing) {
    world.homeArea(ItemPosition(getter.position, thing))
  }

  /** The things of every group, once the cache holds `entries`. */
  function GroupThings(getter: Pawn, world: World, entries: map<ThingDef, FoodCategories.FoodCategory>): (r: seq<seq<Thing>>)
    ensures |r| == GroupCount(getter)
  {
    var inventory := IngestibleThings(getter.InventoryThings(), entries);
    var onMap := IngestibleThings(world.mapThings, entries);
    if UsesColonistGroups(getter) then
      [inventory,
       Seqs.Filter(onMap, (t: Thing) => AtHome(world, getter, t)),
       Seqs.Filter(onMap, (t: Thing) => !AtHome(world, getter, t))]
    else
      [inventory, onMap]
  }

  /** The origin items of group `k` are built from: carried items have no position. */
  function GroupOrigin(getter: Pawn, k: nat): IntVec3 {
    if k == 0 then Invalid else getter.position
  }

  /** The home and elsewhere groups split the pre-filtered map scan between them, each thing
      landing in exactly one of the two, by the home-area test. */
  lemma ColonistGroupsSplitTheMap(getter: Pawn, world: World, entries: map<ThingDef, FoodCategories.FoodCategory>)
    requires UsesColonistGroups(getter)
    ensures var g := GroupThings(getter, world, entries);
            multiset(g[1]) + multiset(g[2]) == multiset(IngestibleThings(world.mapThings, entries))
    ensures var g := GroupThings(getter, world, entries);
            && (forall t :: t in g[1] ==> AtHome(world, getter, t))
            && (forall t :: t in g[2] ==> !AtHome(world, getter, t))
  {
    Seqs.FilterPartition(IngestibleThings(world.mapThings, entries), (t: Thing) => AtHome(world, getter, t),
                         (t: Thing) => !AtHome(world, getter, t));
  }

  /** Every grouped thing passed the pre-filter; the first group is carried things, the
      others are things on the map. */
  lemma GroupedThingsComeFromTheirPlace(getter: Pawn, world: World, entries: map<ThingDef, FoodCategories.FoodCategory>,
                                        k: nat, t: Thing)
    requires k < GroupCount(getter) && t in GroupThings(getter, world, entries)[k]
    ensures IngestibleUnder(t, entries)
    ensures k == 0 ==> t in getter.InventoryThings()
    ensures k > 0 ==> t in world.mapThings
  {
  }

  /** How many groups are stored after `pulls` requests to a fresh enumeration of `n` groups:
      a group is stored only when the consumer asks for the next one. */
  function Stored(pulls: nat, n: nat): nat {
    if pulls > n then n else if pulls == 0 then 0 else pulls - 1
  }

  /** Builds an item for every thing and keeps those that pass the pre-filter, in order. */
  method GetFoods(things: seq<Thing>, start: IntVec3, cache: CategoryCache11.FoodCategoryCache)
    returns (items: seq<FoodSearchItem>)
    requires cache.Valid()
    modifies cache
    ensures cache.Valid() && CategoryCache11.Extends(cache.cache, old(cache.cache))
    ensures forall t :: t in things ==> t.def in cache.cache
    ensures ThingsOf(items) == IngestibleThings(things, cache.cache)
    ensures forall x :: x in items ==> BuiltFrom(x, start, cache.cache) && x.IsIngestibleNow()
  {
    items := [];
    var i := 0;
    while i < |things|
      invariant 0 <= i <= |things|
      invariant cache.Valid() && CategoryCache11.Extends(cache.cache, old(cache.cache))
      invariant Known(things[..i], cache.cache)
      invariant ThingsOf(items) == IngestibleThings(things[..i], cache.cache)
      invariant forall x :: x in items ==> BuiltFrom(x, start, cache.cache) && x.IsIngestibleNow()
    {
      ghost var before := cache.cache;
      var item := new FoodSearchItem(things[i], start, cache);
      assert things[..i + 1] == things[..i] + [things[i]];
      GetFoodsStep(things[..i], items, item, start, before, cache.cache);
      if item.IsIngestibleNow() {
        items := items + [item];
      }
      i := i + 1;
    }
    assert things[..|things|] == things;
  }

  class FoodSearchGroups {
    const getter: Pawn
    /** The groups handed out so far, in order. */
    var groups: seq<seq<FoodSearchItem>>

    constructor (getter: Pawn)
      ensures this.getter == getter && groups == []
    {
      this.getter := getter;
      groups := [];
    }

    /** The inventory group: nothing without a container or with an empty one. */
    method GetInventoryItems(cache: CategoryCache11.FoodCategoryCache) returns (items: seq<FoodSearchItem>)
      requires cache.Valid()
      modifies cache
      ensures cache.Valid() && CategoryCache11.Extends(cache.cache, old(cache.cache))
      ensures forall t :: t in getter.InventoryThings() ==> t.def in cache.cache
      ensures ThingsOf(items) == IngestibleThings(getter.InventoryThings(), cache.cache)
      ensures forall x :: x in items ==> BuiltFrom(x, Invalid, cache.cache) && x.IsIngestibleNow()
    {
      if getter.inventory.None? || getter.inventory.value == [] {
        items := [];
        return;
      }
      items := GetFoods(getter.inventory.value, Invalid, cache);
    }

    /** Every pre-filtered thing on the map, measured from the getter. */
    method GetMapItems(world: World, cache: CategoryCache11.FoodCategoryCache) returns (items: seq<FoodSearchItem>)
      requires cache.Valid()
      modifies cache
      ensures cache.Valid() && CategoryCache11.Extends(cache.cache, old(cache.cache))
      ensures forall t :: t in world.mapThings ==> t.def in cache.cache
      ensures ThingsOf(items) == IngestibleThings(world.mapThings, cache.cache)
      ensures forall x :: x in items ==> BuiltFrom(x, getter.position, cache.cache) && x.IsIngestibleNow()
    {
      items := GetFoods(world.mapThings, getter.position, cache);
    }

    /** Group `k` of a fresh enumeration. The home and elsewhere groups split one scan of
        the map: the scan happens for the home group and is handed on in `foods`. */
    method NextGroup(k: nat, world: World, cache: CategoryCache11.FoodCategoryCache, mapFoods: seq<FoodSearchItem>)
      returns (group: seq<FoodSearchItem>, foods: seq<FoodSearchItem>)
      requires k < GroupCount(getter) && cache.Valid()
      requires k == 2 ==> MapScanned(getter, world, mapFoods, cache.cache)
      modifies cache
      ensures cache.Valid() && CategoryCache11.Extends(cache.cache, old(cache.cache))
      ensures k == 2 ==> cache.cache == old(cache.cache) && foods == mapFoods
      ensures k == 0 ==> Known(getter.InventoryThings(), cache.cache)
      ensures k == 1 ==> MapScanned(getter, world, foods, cache.cache)
      ensures ThingsOf(group) == GroupThings(getter, world, cache.cache)[k]
      ensures forall x :: x in group ==> BuiltFrom(x, GroupOrigin(getter, k), cache.cache) && x.IsIngestibleNow()
    {
      foods := mapFoods;
      if k == 0 {
        group := GetInventoryItems(cache);
      } else if k == 1 && !UsesColonistGroups(getter) {
        group := GetMapItems(world, cache);
        foods := group;
      } else if k == 1 {
        foods := GetMapItems(world, cache);
        group := HomeItems(world, foods);
        HomeAndAwayMatch(getter, world, foods, cache.cache);
      } else {
        group := AwayItems(world, mapFoods);
        HomeAndAwayMatch(getter, world, mapFoods, cache.cache);
      }
    }

    /** One enumeration in which the consumer asks for `pulls` groups (stopping early, as a
        search does on its first match). Once groups are stored they are replayed as they
        are, with no new items and no cache lookups; otherwise each group the consumer asks
        for is computed then, and stored when the consumer asks for the one after it. */
    method Enumerate(pulls: nat, world: World, cache: CategoryCache11.FoodCategoryCache)
      returns (seen: seq<seq<FoodSearchItem>>)
      requires cache.Valid()
      modifies this`groups, cache
      ensures cache.Valid() && CategoryCache11.Extends(cache.cache, old(cache.cache))
      ensures old(groups) != [] ==>
                && seen == old(groups)[..Min(pulls, |old(groups)|)]
                && groups == old(groups) && cache.cache == old(cache.cache)
      ensures old(groups) == [] ==>
                && |seen| == Min(pulls, GroupCount(getter))
                && groups == seen[..Stored(pulls, GroupCount(getter))]
                && (pulls == 0 ==> cache.cache == old(cache.cache))
      ensures old(groups) == [] ==> GroupsMatch(getter, world, seen, |seen|, cache.cache)
    {
      if groups != [] {
        seen := groups[..Min(pulls, |groups|)];
      } else {
        seen := EnumerateFresh(pulls, world, cache);
      }
    }

    /** A first enumeration: no group is stored yet. */
    method EnumerateFresh(pulls: nat, world: World, cache: CategoryCache11.FoodCategoryCache)
      returns (seen: seq<seq<FoodSearchItem>>)
      requires cache.Valid() && groups == []
      modifies this`groups, cache
      ensures cache.Valid() && CategoryCache11.Extends(cache.cache, old(cache.cache))
      ensures |seen| == Min(pulls, GroupCount(getter))
      ensures groups == seen[..Stored(pulls, GroupCount(getter))]
      ensures pulls == 0 ==> cache.cache == old(cache.cache)
      ensures GroupsMatch(getter, world, seen, |seen|, cache.cache)
    {
      var n := if Extensions.IsPlayerFaction(getter) || Extensions.IsGuest(getter) then 3 else 2;
      seen := [];
      if pulls == 0 {
        return;
      }
      var mapFoods: seq<FoodSearchItem> := [];
      while |seen| < n && |seen| < pulls
        invariant n == GroupCount(getter) && |seen| <= pulls
        invariant groups == seen[..Stored(pulls, |seen|)]
        invariant cache.Valid() && CategoryCache11.Extends(cache.cache, old(cache.cache))
        invariant Progress(getter, world, seen, mapFoods, cache.cache)
      {
        var group;
        group, mapFoods := Pull(world, cache, seen, mapFoods);
        if |seen| + 1 < pulls {
          groups := groups + [group];
        }
        assert (seen + [group])[..|seen|] == seen;
        seen := seen + [group];
      }
    }

    /** The next group of a fresh enumeration, given the groups handed out so far. */
    method Pull(world: World, cache: CategoryCache11.FoodCategoryCache, seen: seq<seq<FoodSearchItem>>,
                mapFoods: seq<FoodSearchItem>)
      returns (group: seq<FoodSearchItem>, foods: seq<FoodSearchItem>)
      requires cache.Valid() && |seen| < GroupCount(getter)
      requires Progress(getter, world, seen, mapFoods, cache.cache)
      modifies cache
      ensures cache.Valid() && CategoryCache11.Extends(cache.cache, old(cache.cache))
      ensures Progress(getter, world, seen + [group], foods, cache.cache)
    {
      ghost var before := cache.cache;
      group, foods := NextGroup(|seen|, world, cache, mapFoods);
      EarlierGroupsStay(getter, world, seen, |seen|, before, cache.cache);
      GroupsMatchSnoc(getter, world, seen, group, cache.cache);
      if |seen| >= 1 {
        KnownEntriesStay(getter.InventoryThings(), before, cache.cache);
        assert Known(getter.InventoryThings(), cache.cache);
      }
    }
  }

  /** What a fresh enumeration has established after handing out `seen`: the inventory is
      known once its group is out, the map scan is kept once the home group is out, and
      every group handed out matches `GroupThings`. */
  ghost predicate Progress(getter: Pawn, world: World, seen: seq<seq<FoodSearchItem>>, mapFoods: seq<FoodSearchItem>,
                           entries: map<ThingDef, FoodCategories.FoodCategory>) {
    && |seen| <= GroupCount(getter)
    && (|seen| >= 1 ==> Known(getter.InventoryThings(), entries))
    && (|seen| >= 2 ==> MapScanned(getter, world, mapFoods, entries))
    && GroupsMatch(getter, world, seen, |seen|, entries)
  }

  /** The items of a map scan standing in the home area, and the others. */
  function HomeItems(world: World, foods: seq<FoodSearchItem>): seq<FoodSearchItem> {
    Seqs.Filter(foods, (x: FoodSearchItem) => world.homeArea(x.position))
  }

  function AwayItems(world: World, foods: seq<FoodSearchItem>): seq<FoodSearchItem> {
    Seqs.Filter(foods, (x: FoodSearchItem) => !world.homeArea(x.position))
  }

  /** Splitting the map scan's items by the home-area test gives the home and elsewhere
      groups of `GroupThings`. */
  lemma HomeAndAwayMatch(getter: Pawn, world: World, foods: seq<FoodSearchItem>,
                         entries: map<ThingDef, FoodCategories.FoodCategory>)
    requires UsesColonistGroups(getter) && MapScanned(getter, world, foods, entries)
    ensures ThingsOf(HomeItems(world, foods)) == GroupThings(getter, world, entries)[1]
    ensures ThingsOf(AwayItems(world, foods)) == GroupThings(getter, world, entries)[2]
    ensures forall x :: x in HomeItems(world, foods) ==> BuiltFrom(x, getter.position, entries) && x.IsIngestibleNow()
    ensures forall x :: x in AwayItems(world, foods) ==> BuiltFrom(x, getter.position, entries) && x.IsIngestibleNow()
  {
    Seqs.MapFilter(foods, (x: FoodSearchItem) => x.thing, (x: FoodSearchItem) => world.homeArea(x.position),
                   (t: Thing) => AtHome(world, getter, t));
    Seqs.MapFilter(foods, (x: FoodSearchItem) => x.thing, (x: FoodSearchItem) => !world.homeArea(x.position),
                   (t: Thing) => !AtHome(world, getter, t));
  }

  /** Every thing's definition has a cache entry. */
  ghost predicate Known(things: seq<Thing>, entries: map<ThingDef, FoodCategories.FoodCategory>) {
    forall t :: t in things ==> t.def in entries
  }

  /** `foods` is the pre-filtered scan of the map, measured from the getter. */
  ghost predicate MapScanned(getter: Pawn, world: World, foods: seq<FoodSearchItem>,
                             entries: map<ThingDef, FoodCategories.FoodCategory>) {
    && Known(world.mapThings, entries)
    && ThingsOf(foods) == IngestibleThings(world.mapThings, entries)
    && forall x :: x in foods ==> BuiltFrom(x, getter.position, entries) && x.IsIngestibleNow()
  }

  /** The first `count` groups of `seen` hold the things `GroupThings` says, each item built
      from its group's origin and past the pre-filter. */
  ghost predicate GroupsMatch(getter: Pawn, world: World, seen: seq<seq<FoodSearchItem>>, count: nat,
                              entries: map<ThingDef, FoodCategories.FoodCategory>)
    requires count <= |seen|
  {
    forall k :: 0 <= k < count && k < |GroupThings(getter, world, entries)| ==>
      && ThingsOf(seen[k]) == GroupThings(getter, world, entries)[k]
      && forall x :: x in seen[k] ==> BuiltFrom(x, GroupOrigin(getter, k), entries) && x.IsIngestibleNow()
  }

  lemma GroupsMatchSnoc(getter: Pawn, world: World, seen: seq<seq<FoodSearchItem>>, group: seq<FoodSearchItem>,
                        entries: map<ThingDef, FoodCategories.FoodCategory>)
    requires |seen| < GroupCount(getter) && GroupsMatch(getter, world, seen, |seen|, entries)
    requires ThingsOf(group) == GroupThings(getter, world, entries)[|seen|]
    requires forall x :: x in group ==> BuiltFrom(x, GroupOrigin(getter, |seen|), entries) && x.IsIngestibleNow()
    ensures GroupsMatch(getter, world, seen + [group], |seen| + 1, entries)
  {
    var next := seen + [group];
    forall k | 0 <= k < |next| && k < |GroupThings(getter, world, entries)|
      ensures ThingsOf(next[k]) == GroupThings(getter, world, entries)[k]
      ensures forall x :: x in next[k] ==> BuiltFrom(x, GroupOrigin(getter, k), entries) && x.IsIngestibleNow()
    {
      if k < |seen| {
        assert next[k] == seen[k];
      }
    }
  }

  /** Groups already handed out keep matching as the cache grows, once the things they were
      built from are known. */
  lemma EarlierGroupsStay(getter: Pawn, world: World, seen: seq<seq<FoodSearchItem>>, step: nat,
                          e1: map<ThingDef, FoodCategories.FoodCategory>, e2: map<ThingDef, FoodCategories.FoodCategory>)
    requires step == |seen| && step <= GroupCount(getter)
    requires GroupsMatch(getter, world, seen, step, e1) && CategoryCache11.Extends(e2, e1)
    requires step >= 1 ==> Known(getter.InventoryThings(), e1)
    requires step >= 2 ==> Known(world.mapThings, e1)
    ensures GroupsMatch(getter, world, seen, step, e2)
  {
    if step >= 1 {
      KnownEntriesStay(getter.InventoryThings(), e1, e2);
    }
    if step >= 2 {
      KnownEntriesStay(world.mapThings, e1, e2);
    }
    forall k, x | 0 <= k < step && x in seen[k] ensures BuiltFrom(x, GroupOrigin(getter, k), e2) {
      BuiltFromExtends(x, GroupOrigin(getter, k), e1, e2);
    }
  }

  /** One step of `GetFoods`: the items so far stay built and filtered as the cache grows,
      and the new item is kept exactly when its thing passes the pre-filter. */
  lemma GetFoodsStep(done: seq<Thing>, items: seq<FoodSearchItem>, item: FoodSearchItem, start: IntVec3,
                     e1: map<ThingDef, FoodCategories.FoodCategory>, e2: map<ThingDef, FoodCategories.FoodCategory>)
    requires Known(done, e1) && CategoryCache11.Extends(e2, e1)
    requires ThingsOf(items) == IngestibleThings(done, e1)
    requires forall x :: x in items ==> BuiltFrom(x, start, e1) && x.IsIngestibleNow()
    requires BuiltFrom(item, start, e2)
    ensures Known(done + [item.thing], e2)
    ensures var next := if item.IsIngestibleNow() then items + [item] else items;
            && ThingsOf(next) == IngestibleThings(done + [item.thing], e2)
            && forall x :: x in next ==> BuiltFrom(x, start, e2) && x.IsIngestibleNow()
  {
    forall x | x in items ensures BuiltFrom(x, start, e2) {
      BuiltFromExtends(x, start, e1, e2);
    }
    KnownEntriesStay(done, e1, e2);
    Seqs.FilterSnoc(done, item.thing, (t: Thing) => IngestibleUnder(t, e2));
    Seqs.MapConcat(items, [item], (x: FoodSearchItem) => x.thing);
  }

  /** Once every thing's definition is in the cache, growing the cache changes no filter. */
  lemma KnownEntriesStay(things: seq<Thing>, e1: map<ThingDef, FoodCategories.FoodCategory>,
                         e2: map<ThingDef, FoodCategories.FoodCategory>)
    requires forall t :: t in things ==> t.def in e1
    requires CategoryCache11.Extends(e2, e1)
    ensures IngestibleThings(things, e1) == IngestibleThings(things, e2)
  {
    Seqs.FilterCongruent(things, (t: Thing) => IngestibleUnder(t, e1), (t: Thing) => IngestibleUnder(t, e2));
  }
}
