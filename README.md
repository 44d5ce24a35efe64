# Simple Food Selection — a verified model of the food-search engine

This project models the core of the RimWorld mod "Simple Food Selection": the part that
chooses what a pawn eats, or what another pawn fetches for it.

The engine works in four steps:

- **Classify.** Every thing definition gets a food category (`FoodCategory`). The result is
  remembered in a category cache.
- **Choose a profile.** The eater's kind picks a preference profile (colonist or human, pet,
  ascetic). A profile has three tiers, Good, Bad and Desperate. Each tier is a list of groups
  of categories.
- **Collect candidates.** The engine keeps the food in the getter's inventory and on the map
  that has a valid category, and orders it nearest first.
- **Search.** Tiers are tried in order and gated on hunger: Bad only when urgently hungry,
  Desperate only when starving. Inside a tier, groups are tried in order; inside a group,
  candidates are tried nearest first. The first candidate that passes validation is the
  result. Validation checks forbidden, plant, preferability, corpse, drug, social propriety,
  desperate-only thoughts and reachability.

The modules follow the source files:

| module | file | models |
|---|---|---|
| `Base` | Base.dfy | `Option`, `Result`, the exceptions (`ArgumentNull`, `NullReference`) |
| `Verse` | Verse.dfy | the host game's data as values; the host's queries as fields of `World` |
| `Seqs` | Seqs.dfy | LINQ `Where`/`Select` and the stable `OrderBy`, with their lemmas |
| `FoodCategories` | FoodCategory.dfy | the category enum and the classifier |
| `CategoryCache`, `CategoryCache11` | FoodCategoryCache.dfy, FoodCategoryCache11.dfy | the older and the 1.1 category cache |
| `SearchItems` | FoodSearchItem.dfy | `FoodSearchItem` |
| `SearchGroups` | SearchGroups.dfy | `FoodSearchGroups` and its lazily computed, then cached, groups |
| `Extensions` | Extensions.dfy | the pawn and thing predicates and `HasFlag` |
| `ProfileFoodTiers` | ProfileFoodTier.dfy | `ProfileFoodTier` |
| `Profiles`, `Profiles11` | Profile.dfy, Profile11.dfy | the older and the 1.1 profiles |
| `SearchRecords` | SearchRecords.dfy | `FoodSearchParameters` and `FoodSearchResult` |
| `FoodSearching` | FoodSearch.dfy | the search engine |

How the model represents the source:

- Things and definitions are values, and reference identity becomes value equality.
- Objects whose fields change are classes:
  - `FoodSearchParameters`: only `desperate` is ever written;
  - `FoodSearchItem`: its lazily fetched definition;
  - `FoodSearchGroups`: its stored groups;
  - the caches.
- The static caches are objects passed to the operations that use them.
- `FoodSearch.Find` is a method. It is proved equal to a pure function, `Decision`, of:
  - the eater's profile;
  - the inventory candidates and the map candidates it built;
  - the initial desperate flag.

  The properties of the search are then lemmas about `Decision`: tier order, hunger gates,
  nearby before far away, and what the returned thing is.
- Validation is a function returning `Accept`, `Reject(reason)` or `Fault`. `Fault` is the
  null dereference in the source when the preference checks reach a thing without ingestible
  properties; the surrounding `catch` reports it as an unsuccessful result. The lemmas show
  that it cannot occur for candidates the engine builds.

Two behaviours of the code are easy to misread; the model keeps them as written:

- The older `Profile.For` tests "colonist" before "ascetic". An ascetic colonist therefore
  gets the Colonist profile there, but the Ascetic profile in the 1.1 generation.
  `Profiles11.AsceticColonistDispatch` states both.
- Stored groups are replayed as they are, even when an earlier enumeration was stopped before
  all of them were computed. `SearchGroups.FoodSearchGroups.Enumerate` states this.

## Model

| member | source | states |
|---|---|---|
| FoodCategories.FoodCategory.Value | Source/Searching/FoodCategory.cs:10-36 | the enum is byte-backed: every value is below 256, 0 exactly for Null and 255 exactly for Ignore |
| FoodCategories.DetermineFoodCategory | Source/Searching/FoodCategory.cs:50-156 | Hunt exactly when the definition has a race; a definition without ingestible data is only ever Hunt, Ignore or Null |
| FoodCategories.DetermineFoodCategoryOf | Source/Searching/FoodCategory.cs:50-53 | throws ArgumentNull exactly for a null definition, and otherwise classifies it |
| FoodCategories.DetermineThingCategory | Source/Searching/FoodCategory.cs:40-48 | a dispenser by the definition it dispenses, any other thing by its own definition |
| FoodCategories.DispenserUsesDispensableDef | Source/Searching/FoodCategory.cs:40-48 | a nutrient paste dispenser is classified by the definition it dispenses; every other thing by its own definition |
| FoodCategories.RaceIsHunt | Source/Searching/FoodCategory.cs:55-57 | every definition with a race is Hunt |
| FoodCategories.RacePrecedesIngestible | Source/Searching/FoodCategory.cs:55-59 | the race rule comes before every ingestible rule: whatever its ingestible data, a race is Hunt |
| FoodCategories.NoNutritionOrDrugIsIgnored | Source/Searching/FoodCategory.cs:61-69 | an ingestible with no nutrition, a drug, or a NeverForNutrition preferability is Ignore |
| FoodCategories.MealPreferabilities | Source/Searching/FoodCategory.cs:71-86 | each meal preferability gives its meal category; MealSimple gives MealSurvival exactly for the survival pack and pemmican |
| FoodCategories.MealsPrecedeFoodType | Source/Searching/FoodCategory.cs:71-86 | for a meal, changing the food-type flags does not change the category |
| FoodCategories.FoodTypeOrder | Source/Searching/FoodCategory.cs:88-103 | for a non-meal, in order: Kibble, then animal product (FertEggs with a hatcher, else AnimalProduct), then Luxury for gluttonous joy, then Tree |
| FoodCategories.PlantRules | Source/Searching/FoodCategory.cs:105-120 | plant food: Hay by name, then Plant for sown plants, then PlantMatter, then Ignore for DesperateOnly and Grass otherwise |
| FoodCategories.CorpseRules | Source/Searching/FoodCategory.cs:122-134 | corpses: HumanlikeCorpse, then InsectCorpse when the first category is insect corpses, then Ignore for mechanoids and Corpse otherwise |
| FoodCategories.TasteRules | Source/Searching/FoodCategory.cs:136-155 | all-negative taste gives RawHuman, RawInsect or RawBad; no taste or all-non-negative gives RawTasty; a mixed-sign taste falls through to Null |
| FoodCategories.EmptyTasteIsBad | Source/Searching/FoodCategory.cs:136-145 | a taste thought without stages counts as all-negative, so the food is RawBad, not RawTasty |
| FoodCategories.NonIngestibleRules | Source/Searching/FoodCategory.cs:151-155 | with no race and no ingestible data: Ignore for a corpse, Null otherwise |
| FoodCategories.NullOnlyWhen | Source/Searching/FoodCategory.cs:50-156 | Null means no race, not a corpse, and either no ingestible data or a mixed-sign taste thought |
| CategoryCache.FoodCategoryCache.constructor | Source/Searching/FoodCategoryCache.cs:23 | the cache starts empty |
| CategoryCache.FoodCategoryCache.GetFor | Source/Searching/FoodCategoryCache.cs:13-21 | returns the definition's classification; a known entry is returned unchanged, and a new one is added under its definition |
| CategoryCache.FoodCategoryCache.GetForThing | Source/Searching/FoodCategoryCache.cs:11 | a thing is looked up by its definition |
| CategoryCache11.FoodCategoryCache.constructor | Source/1.1/Searching/FoodCategoryCache.cs:21 | the cache starts empty |
| CategoryCache11.FoodCategoryCache.GetFor | Source/1.1/Searching/FoodCategoryCache.cs:11-19 | entries are never changed or removed; a known definition returns its entry; otherwise the thing's own classification is stored under its definition |
| CategoryCache11.DispenserEntryDiffersFromKey | Source/1.1/Searching/FoodCategoryCache.cs:13-18 | the entry a dispenser stores (MealAwful) differs from the classification of its own definition (Null) |
| SearchItems.ThingPosition | Source/Searching/FoodSearchItem.cs:91-99 | a dispenser's interaction cell, otherwise the thing's own position |
| SearchItems.FoodSearchItem.IsIngestibleNow | Source/Searching/FoodSearchItem.cs:59-84 | never for Null or Ignore; always for dispensers and pawns; otherwise the thing's own report |
| SearchItems.FoodSearchItem.IsInInventory | Source/Searching/FoodSearchItem.cs:86 | the item's position is the invalid cell |
| SearchItems.ItemDistance | Source/Searching/FoodSearchItem.cs:18-32 | -1 exactly when searching from the invalid cell; otherwise the non-negative Manhattan length from the origin to the thing |
| SearchItems.FoodSearchItem.constructor | Source/Searching/FoodSearchItem.cs:12-32 | the category comes from the cache, which gains at most the thing's entry; position and distance follow the origin; no definition is fetched yet |
| SearchItems.FoodSearchItem.Def | Source/Searching/FoodSearchItem.cs:40-54 | the definition is fetched on first use and then remembered |
| SearchItems.BuiltFromExtends | Source/1.1/Searching/FoodCategoryCache.cs:13-19 | an item stays consistent with the cache as the cache grows |
| SearchItems.ItemPlacement | Source/Searching/FoodSearchItem.cs:18-99 | an item built from the invalid cell is in the inventory at distance -1; otherwise the distance is non-negative and a dispenser is placed at its interaction cell |
| SearchItems.IngestibleNowCases | Source/Searching/FoodSearchItem.cs:59-84 | Null and Ignore are never ingestible; dispensers and pawns always are; other things report for themselves |
| Extensions.IsIncapacitated | Source/Extensions.cs:33-34 | throws on a pawn without health; returns true exactly when downed and not in pain shock |
| Extensions.IsAnimal | Source/Extensions.cs:12-13 | the race properties are present and mark an animal |
| Extensions.IsPlayerFaction | Source/Extensions.cs:15-16 | the faction is present and is the player's |
| Extensions.IsColonist | Source/Extensions.cs:18-19 | of the player faction and not an animal |
| Extensions.IsGuest | Source/Extensions.cs:21-22 | not of the player faction, with the player faction as host |
| Extensions.IsPet | Source/Extensions.cs:24-25 | an animal of the player faction |
| Extensions.IsWildAnimal | Source/Extensions.cs:27-28 | an animal without a faction |
| Extensions.IsSownPlant | Source/Extensions.cs:30-31 | a plant marked as sown; any other thing is not |
| Extensions.IsCannibal | Source/Extensions.cs:36-37 | story and traits present and holding Cannibal |
| Extensions.IsAscetic | Source/Extensions.cs:39-40 | story and traits present and holding Ascetic |
| Extensions.IsHostile | Source/Extensions.cs:42-43 | the faction is present and hostile to the player |
| Extensions.IsFriendly | Source/Extensions.cs:45-46 | not hostile |
| Extensions.IsInsectFaction | Source/Extensions.cs:48-49 | the faction equals the (possibly absent) insect faction |
| Extensions.CanManipulate | Source/Extensions.cs:51-52 | a tool user whose health capacities allow manipulation; false when either part is missing |
| Extensions.HasFlag | Source/Extensions.cs:54-65 | false for a null test; ArgumentNull for a null value; Overflow when either value is negative in a signed enum; a result exactly in the remaining cases |
| Extensions.HasFlagOfNonNegative | Source/Extensions.cs:62-63 | values with a clear sign bit are compared as unsigned masks: every bit of the flag is set in the test |
| Extensions.ColonistAndPetSplitPlayerFaction | Source/Extensions.cs:15-25 | the player's faction splits exactly into colonists (non-animals) and pets (animals) |
| Extensions.GuestIsNeitherColonistNorPet | Source/Extensions.cs:15-25 | a guest is neither of the player's faction, nor a colonist, nor a pet |
| Extensions.WildAnimalIsNotPet | Source/Extensions.cs:15-46 | a wild animal has no faction, so it is not the player's, not a pet, not a colonist and not hostile |
| Extensions.MissingPartsAreFalse | Source/Extensions.cs:12-52 | the null-conditional reads: missing race, faction, story or health make the predicates false (and IsFriendly true) |
| Extensions.InsectFactionWhenAbsent | Source/Extensions.cs:48-49 | with no insect faction, a pawn is of it exactly when it has no faction, as every wild animal does |
| Extensions.HasFlagZeroAndSelf | Source/Extensions.cs:62-63 | every value has flag 0 and itself; 0 has only flag 0 |
| Extensions.HasFlagUnion | Source/Extensions.cs:62-63 | two flags present means their union is present |
| Extensions.HasFlagSplit | Source/Extensions.cs:62-63 | a union present means each part is present |
| Extensions.HasFlagTransitive | Source/Extensions.cs:62-63 | flag inclusion is transitive |
| ProfileFoodTiers.TierKeepsItsParts | Source/Searching/ProfileFoodTier.cs:12-28 | a tier reports the name, groups and hunger gate it was built with |
| Profiles.For | Source/Searching/Profile.cs:25-38 | colonist first, then pet, then ascetic; no profile exactly for the rest |
| Profiles.FlattenMembership | Source/Searching/Profile.cs:17-23 | a category is in a tier's flattened list exactly when some group of the tier lists it |
| Profiles.ProfileMembership | Source/Searching/Profile.cs:17-23 | a profile's category list is exactly what its three tiers list |
| Profiles.ColonistGoodCategories | Source/Searching/Profile.cs:43-51 | the Colonist Good categories, in table order |
| Profiles.ColonistBadCategories | Source/Searching/Profile.cs:52-57 | the Colonist Bad categories, in table order |
| Profiles.ColonistDesperateCategories | Source/Searching/Profile.cs:58-66 | the Colonist Desperate categories, in table order |
| Profiles.PetGoodCategories | Source/Searching/Profile.cs:72-83 | the Pet Good categories, in table order |
| Profiles.PetBadCategories | Source/Searching/Profile.cs:84-89 | the Pet Bad categories, in table order |
| Profiles.PetDesperateCategories | Source/Searching/Profile.cs:90-93 | the Pet Desperate categories, in table order |
| Profiles.AsceticGoodCategories | Source/Searching/Profile.cs:99-106 | the Ascetic Good categories, in table order |
| Profiles.AsceticBadCategories | Source/Searching/Profile.cs:107-113 | the Ascetic Bad categories, in table order |
| Profiles.AsceticDesperateCategories | Source/Searching/Profile.cs:114-121 | the Ascetic Desperate categories, in table order |
| Profiles.ColonistCategories | Source/Searching/Profile.cs:40-67 | every Colonist category, Good then Bad then Desperate |
| Profiles.PetCategories | Source/Searching/Profile.cs:69-94 | every Pet category, Good then Bad then Desperate |
| Profiles.AsceticCategories | Source/Searching/Profile.cs:96-122 | every Ascetic category, Good then Bad then Desperate |
| Profiles.ColonistListsEachCategoryOnce | Source/Searching/Profile.cs:40-67 | no category appears twice in the Colonist profile |
| Profiles.PetListsEachCategoryOnce | Source/Searching/Profile.cs:69-94 | no category appears twice in the Pet profile |
| Profiles.AsceticListsEachCategoryOnce | Source/Searching/Profile.cs:96-122 | no category appears twice in the Ascetic profile |
| Profiles.ColonistListsOnlyValidCategories | Source/Searching/Profile.cs:40-67 | the Colonist profile lists neither Null nor Ignore |
| Profiles.PetListsOnlyValidCategories | Source/Searching/Profile.cs:69-94 | the Pet profile lists neither Null nor Ignore |
| Profiles.AsceticListsOnlyValidCategories | Source/Searching/Profile.cs:96-122 | the Ascetic profile lists neither Null nor Ignore |
| Profiles.ColonistExclusions | Source/Searching/Profile.cs:40-67 | colonists never hunt, and never eat raw human meat, hay, grass or trees |
| Profiles.PetDesperateIsFertilizedEggs | Source/Searching/Profile.cs:90-93 | a pet's only Desperate food is fertilized eggs |
| Profiles11.NewProfile | Source/1.1/Searching/Profile.cs:18-51 | three tiers named Good, Bad and Desperate, holding the given groups; Good is always usable, Bad from urgently hungry, Desperate only when starving |
| Profiles11.For | Source/1.1/Searching/Profile.cs:58-71 | pet first, then ascetic, then anyone not an animal or wild man; no profile exactly for the rest |
| Profiles11.DesperateGateImpliesBadGate | Source/1.1/Searching/Profile.cs:47-51 | whoever may resort to Desperate food may resort to Bad food; Bad means urgently hungry or starving |
| Profiles11.TierOrder | Source/1.1/Searching/Profile.cs:24-32 | every profile enumerates exactly three tiers: Good, Bad, Desperate |
| Profiles11.TablesMatchOlderGeneration | Source/1.1/Searching/Profile.cs:73-149 | the Human, Pet and Ascetic tables equal the older Colonist, Pet and Ascetic tables, group for group |
| Profiles11.AsceticColonistDispatch | Source/1.1/Searching/Profile.cs:58-71 | an ascetic colonist gets the Colonist profile from the older dispatch but the Ascetic profile from the newer one |
| SearchRecords.FoodSearchParameters.constructor | Source/Searching/FoodSearchParameters.cs:12-58 | every field comes from its argument; the minimum preferability starts at DesperateOnly |
| SearchRecords.DefaultResult | Source/1.1/Searching/FoodSearchResult.cs:15 | the default result is unsuccessful and carries no thing and no definition |
| SearchRecords.ResultFor | Source/1.1/Searching/FoodSearchResult.cs:17-22 | a result for an item is successful, carries the item's thing, and carries the item's definition, fetching it if needed |
| SearchGroups.GroupThings | Source/Searching/FoodSearchGroups.cs:39-75 | three groups for the player's pawns and guests, two for everyone else |
| SearchGroups.ColonistGroupsSplitTheMap | Source/Searching/FoodSearchGroups.cs:65-75 | the home and elsewhere groups are a partition of the map scan by the home-area test |
| SearchGroups.GroupedThingsComeFromTheirPlace | Source/Searching/FoodSearchGroups.cs:58-96 | every grouped thing passed the ingestibility filter; the first group is carried things, the others are on the map |
| SearchGroups.GetFoods | Source/Searching/FoodSearchGroups.cs:93-96 | an item for every thing, keeping the ingestible ones in their original order, each built from the given start |
| SearchGroups.FoodSearchGroups.constructor | Source/Searching/FoodSearchGroups.cs:19-26 | a getter with no stored groups |
| SearchGroups.FoodSearchGroups.GetInventoryItems | Source/Searching/FoodSearchGroups.cs:77-85 | the ingestible carried things as items with no position |
| SearchGroups.FoodSearchGroups.GetMapItems | Source/Searching/FoodSearchGroups.cs:87-88 | the ingestible things on the map as items measured from the getter |
| SearchGroups.HomeAndAwayMatch | Source/Searching/FoodSearchGroups.cs:69-74 | filtering the single map scan by the home area gives exactly the home group and the elsewhere group |
| SearchGroups.FoodSearchGroups.NextGroup | Source/Searching/FoodSearchGroups.cs:58-75 | group k of a fresh enumeration holds that group's things; the elsewhere group reuses the home group's scan and adds no cache entry |
| SearchGroups.FoodSearchGroups.Enumerate | Source/Searching/FoodSearchGroups.cs:27-56 | stored groups are replayed without new work; a fresh enumeration yields the requested number of groups (at most all of them), each matching its things, and stores each one once the next is asked for |
| SearchGroups.FoodSearchGroups.EnumerateFresh | Source/Searching/FoodSearchGroups.cs:39-55 | the first enumeration: as many groups as requested, each matching its things; the stored prefix is exactly the groups that were followed by another request |
| SearchGroups.KnownEntriesStay | Source/1.1/Searching/FoodCategoryCache.cs:13-14 | once every thing's definition is cached, growing the cache changes no filter result |
| FoodSearching.ValidateAcceptIff | Source/Searching/FoodSearch.cs:221-298 | a thing is accepted exactly when it passes the forbidden check, the plant checks, the preference checks (unless desperate or animalistic) and reachability |
| FoodSearching.ValidateFaultIff | Source/Searching/FoodSearch.cs:255-257 | validation faults exactly when the preference checks are reached by a thing without ingestible properties |
| FoodSearching.ValidateNeverFaultsOnFood | Source/Searching/FoodSearch.cs:146-149 | a nutrition-giving ingestible never makes validation fault |
| FoodSearching.ValidDefIsRaceOrIngestible | Source/Searching/FoodSearch.cs:151-154 | a definition with a valid category is a race or has ingestible data |
| FoodSearching.FirstFromMeaning | Source/Searching/FoodSearch.cs:198-209 | finding nothing in a group means every candidate of the group was rejected; what is found is the first candidate of the group that validates |
| FoodSearching.FirstFromNoFault | Source/Searching/FoodSearch.cs:198-201 | a group of food candidates never faults |
| FoodSearching.GroupsFromMeaning | Source/Searching/FoodSearch.cs:195-212 | across groups: nothing found means every candidate of every group was rejected; a find is in the first group with an accepted candidate |
| FoodSearching.GroupsFromNoFault | Source/Searching/FoodSearch.cs:195-212 | food candidates never make a search over groups fault |
| FoodSearching.SearchSpecMeaning | Source/Searching/FoodSearch.cs:186-213 | both directions of "found nothing iff all rejected"; a find is the first match by group, then by list order; candidates that are food never fault |
| FoodSearching.SearchFoods | Source/Searching/FoodSearch.cs:186-213 | the loop returns the search specification's outcome |
| FoodSearching.GetFoods | Source/Searching/FoodSearch.cs:163-181 | the cache only grows; the items are exactly the food things with a valid category, nearest first, each built from the start |
| FoodSearching.FoodsSorted | Source/Searching/FoodSearch.cs:168-175 | the candidate list is ordered by distance and is a permutation of the filtered things |
| FoodSearching.FoodsMembers | Source/Searching/FoodSearch.cs:168-173 | a thing is a candidate exactly when it was scanned and is food with a valid category |
| FoodSearching.FoodsStable | Source/Searching/FoodSearch.cs:174 | things at the same distance keep the order of the scan |
| FoodSearching.Find | Source/Searching/FoodSearch.cs:39-138 | the result and final desperate flag are those of the staged decision over the inventory and map candidates built, which are exactly the food candidates of each place; the cache only grows |
| FoodSearching.SearchMap | Source/Searching/FoodSearch.cs:81-131 | the map part of the search, with the desperate flag raised on entering the Desperate tier, equals the map decision |
| FoodSearching.IsFood | Source/Searching/FoodSearch.cs:146-149 | nutrition-giving, ingestible now, and one the eater will eat, asked on behalf of a different getter only |
| FoodSearching.Validate | Source/Searching/FoodSearch.cs:221-298 | the late checks in source order, the first failure naming its reason: forbidden, plant not allowed, plant fetched for another, then (for a non-desperate eater who is not an animal or wild man) a fault without ingestible data, too preferable, corpse, drug, socially improper, a desperate-only thought, and last unreachable |
| FoodSearching.Decision | Source/Searching/FoodSearch.cs:39-79 | no profile, then the carried Good things, then an empty map, then the map stages |
| FoodSearching.MapDecision | Source/Searching/FoodSearch.cs:81-101 | the nearby, then the faraway Good candidates, then the Bad gate |
| FoodSearching.BadDecision | Source/Searching/FoodSearch.cs:99-119 | the carried, then the map Bad candidates, then the Desperate gate |
| FoodSearching.DesperateDecision | Source/Searching/FoodSearch.cs:122-131 | the carried, then the map Desperate candidates, validated as desperate, else nothing found |
| FoodSearching.DecisionGates | Source/Searching/FoodSearch.cs:43-119 | no profile exactly when the result says so; Bad only when urgently hungry; Desperate only when starving; the desperate flag is raised exactly on entering the Desperate tier |
| FoodSearching.FoundInTier | Source/Searching/FoodSearch.cs:195-207 | what a tier's search finds is a candidate of the list that validates and whose category the tier lists |
| FoodSearching.NotFoundRejects | Source/Searching/FoodSearch.cs:195-212 | when a tier's search finds nothing, every candidate whose category the tier lists was rejected |
| FoodSearching.DesperateDecisionFound | Source/Searching/FoodSearch.cs:122-128 | a Desperate find comes from a Desperate stage, is a built candidate validated as desperate, of a category the Desperate tier lists, and a success |
| FoodSearching.BadDecisionFound | Source/Searching/FoodSearch.cs:104-128 | a find from the Bad tier on comes from a Bad or Desperate stage, is a built candidate that validates, of a category the deciding stage's tier lists, and a success |
| FoodSearching.MapDecisionFound | Source/Searching/FoodSearch.cs:81-128 | a find from the map stage on comes from a finding stage other than the carried Good one, is a built candidate that validates, of a category the deciding stage's tier lists, and a success |
| FoodSearching.DecisionFound | Source/Searching/FoodSearch.cs:39-138 | any returned thing comes with a profile, a finding stage and success, and is a built candidate that validates under the final desperate flag, of a category the deciding stage's tier lists |
| FoodSearching.HungerLimitsTier | Source/Searching/FoodSearch.cs:96-119 | an eater not urgently hungry gets a Good thing; one not starving gets a Good or Bad thing |
| FoodSearching.NoThingStages | Source/Searching/FoodSearch.cs:43-131 | no profile gives the unsuccessful default; an empty map, a hunger gate that stops the search, or an empty Desperate tier give success with no thing; only finding stages carry a thing |
| FoodSearching.InventoryBeforeMap | Source/Searching/FoodSearch.cs:62-128 | a Good, Bad or Desperate thing from the map is returned only when every carried candidate of that tier was rejected under the same desperate flag |
| FoodSearching.GoodBeforeBad | Source/Searching/FoodSearch.cs:62-101 | once the search goes past the Good tier, every Good candidate, carried or on the map, was rejected |
| FoodSearching.NearbyBeforeFaraway | Source/Searching/FoodSearch.cs:62-94 | a Good thing from far away is returned only if every carried and every nearby Good candidate was rejected |
| FoodSearching.BadBeforeDesperate | Source/Searching/FoodSearch.cs:104-119 | the Desperate tier is entered only if every Bad candidate was rejected |
| FoodSearching.SucceedsExactlyWithProfile | Source/Searching/FoodSearch.cs:43-137 | with food candidates nothing faults, so the search succeeds exactly when the eater has a profile; "nothing found" is still a success |
| FoodSearching.InventoryFoodsStay | Source/Searching/FoodSearch.cs:58-75 | the inventory candidates keep their meaning after the map scan grows the cache |

## Left out

- The Harmony patches (`Source/Patches/`) and the mod entry point (`Mod.cs`) are not part of
  this model. They only hook the engine into the game.
- Trace output, error logging and the DEBUG timing code are I/O with no effect on the
  result.
- Concurrency and thread safety of the static caches are host concerns. The caches are
  modelled as objects passed explicitly.
- Host queries are opaque fields of `World`: forbidden, reachability, social propriety,
  thoughts from ingesting, willingness to eat, the home area and the map's things. An
  exception thrown inside one of them is not modelled.
- Floating-point thresholds (nutrition above zero, mood effects) are booleans and integers
  whose sign is all that matters.
- `LengthManhattan` is the host's formula, |x| + |z|, written out, because the host source is
  not part of this model.
- The hunger and preferability enums are ranked in the host's declaration order, because the
  host source is not part of this model.
- Pawns always have a food need, and the getter and its map are never null.
- `Extensions.IsInsectFaction` takes the insect faction as a parameter, because it is a host
  static.
- The harvestable-plant and nutrient-paste-dispenser validation steps are TODOs in the source,
  with no behaviour to model.
- The older `FoodSearch.cs` uses `FoodSearchItem` from the same repository. The only
  `FoodSearchItem` in that repository reads the 1.1 category cache, so the engine is modelled
  with that cache.
- `FoodSearchParameters` fields other than `desperate` are constants, because nothing in the
  core writes them after construction.
- The lazy `IEnumerable` of `FoodSearchGroups` is modelled by the number of groups a consumer
  asks for in one enumeration. Interleaving two enumerations is not modelled.
- `Extensions.HasFlag`: the generic enum type shared by both arguments is not modelled. Each
  value carries its own signedness and its underlying integer sign-extended to 64 bits.
- `FoodSearching.Find`: the new cache is stated only as an extension of the old one, with an
  entry for every scanned food thing. Which entries are added is not stated.
- `SearchGroups.FoodSearchGroups.Enumerate`: when groups are already stored, the replayed
  groups are not tied to the current map. The source stores them without rechecking.
