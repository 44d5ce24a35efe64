/**
  The host game's data, reduced to what the food search reads. Every world query the engine
  makes (forbidden, reachability, social propriety, thoughts, willingness to eat, home area)
  is an oracle field of `World`; the engine never computes them itself.
*/
module Verse {
  import opened Base

  /** A map cell. */
  datatype IntVec3 = IntVec3(x: int, y: int, z: int) {
    function Minus(o: IntVec3): IntVec3 {
      IntVec3(x - o.x, y - o.y, z - o.z)
    }

    /** The host's Manhattan length: horizontal plane only, the height is ignored. */
    function LengthManhattan(): (r: int)
      ensures r >= 0
      ensures r == 0 <==> x == 0 && z == 0
    {
      Abs(x) + Abs(z)
    }
  }

  /** The host's sentinel cell; the food search uses it to mean "carried, no map position". */
  const Invalid: IntVec3 := IntVec3(-1000, -1000, -1000)
  const Zero: IntVec3 := IntVec3(0, 0, 0)

  /** Food preferability, in the host's declaration order (the order `>` compares). */
  datatype FoodPreferability =
    | Undefined | NeverForNutrition | DesperateOnly | DesperateOnlyForHumanlikes
    | RawBad | RawTasty | MealAwful | MealSimple | MealFine | MealLavish
  {
    function Rank(): nat {
      match this
      case Undefined => 0
      case NeverForNutrition => 1
      case DesperateOnly => 2
      case DesperateOnlyForHumanlikes => 3
      case RawBad => 4
      case RawTasty => 5
      case MealAwful => 6
      case MealSimple => 7
      case MealFine => 8
      case MealLavish => 9
    }
  }

  /** Single-bit food-type flags; a flag set stands for the host's bit mask, and
      `(foodType & F) != 0` for a one-bit flag F is `F in foodType`. */
  datatype FoodTypeFlag =
    | VegetableOrFruitFlag | MeatFlag | FluidFlag | CorpseFlag | SeedFlag | AnimalProductFlag
    | PlantFlag | TreeFlag | MealFlag | ProcessedFlag | LiquorFlag | KibbleFlag

  /** Thing categories the classifier distinguishes. */
  datatype ThingCategory = PlantMatterCategory | CorpsesInsect | OtherCategory(name: string)

  /** A thought definition: its unique name and the mood effect of each stage (only the sign is used). */
  datatype ThoughtDef = ThoughtDef(defName: string, stageMoodEffects: seq<int>)

  /** The ingestible properties of a definition that the classifier reads. */
  datatype IngestibleProps = IngestibleProps(
    positiveNutrition: bool,      // cached nutrition > 0
    drug: bool,                   // has a drug category
    preferability: FoodPreferability,
    foodType: set<FoodTypeFlag>,
    gluttonousJoy: bool,          // joy kind is Gluttonous and joy >= 0.05
    tasteThought: Option<ThoughtDef>,
    humanlikeMeat: bool,          // the host's humanlike-meat test
    mechanoidSource: bool)        // source race is a mechanoid

  datatype PlantProps = PlantProps(sowTags: seq<string>)

  /** A thing definition. Definitions are identified by their unique `defName`. A null
      list of thing categories or sow tags is modelled as the empty list (both read the same). */
  datatype ThingDef = ThingDef(
    defName: string,
    hasRace: bool,
    ingestible: Option<IngestibleProps>,
    hasHatcherComp: bool,
    isCorpse: bool,
    thingCategories: seq<ThingCategory>,
    plant: Option<PlantProps>)
  {
    predicate IsDrug() {
      ingestible.Some? && ingestible.value.drug
    }

    predicate IsNutritionGivingIngestible() {
      ingestible.Some? && ingestible.value.positiveNutrition
    }
  }

  /** The runtime sub-type of a thing, as far as the core tests it. */
  datatype ThingKind =
    | PlainThing
    | NutrientPasteDispenser(dispensableDef: ThingDef, interactionCell: IntVec3)
    | PawnThing
    | CorpseThing
    | PlantThing(sown: bool)

  /** A map or inventory item, with the host's own "ingestible now" self-report. */
  datatype Thing = Thing(id: nat, def: ThingDef, kind: ThingKind, position: IntVec3, ingestibleNow: bool)

  /** Hunger, in the host's order. */
  datatype HungerCategory = Fed | Hungry | UrgentlyHungry | Starving {
    function Rank(): nat {
      match this
      case Fed => 0
      case Hungry => 1
      case UrgentlyHungry => 2
      case Starving => 3
    }
  }

  datatype RaceProps = RaceProps(animal: bool, toolUser: bool)
  datatype FactionKind = PlayerColony | OtherFaction(id: nat)
  datatype Faction = Faction(kind: FactionKind, hostileToPlayer: bool) {
    predicate IsPlayer() { kind == PlayerColony }
  }
  datatype Trait = Ascetic | Cannibal | OtherTrait(name: string)
  datatype Story = Story(traits: Option<seq<Trait>>)
  datatype Capacities = Capacities(capableOfManipulation: bool)
  datatype Health = Health(inPainShock: bool, downed: bool, capacities: Option<Capacities>)

  /** A pawn. Optional parts are the host's nullable references. */
  datatype Pawn = Pawn(
    id: nat,
    raceProps: Option<RaceProps>,
    faction: Option<Faction>,
    hostFaction: Option<Faction>,
    story: Option<Story>,
    health: Option<Health>,
    animalOrWildMan: bool,          // the host's AnimalOrWildMan query
    hunger: HungerCategory,         // current category of the food need
    position: IntVec3,
    inventory: Option<seq<Thing>>)  // inventory container contents, if any
  {
    /** The carried things; a missing container carries nothing. */
    function InventoryThings(): seq<Thing> {
      if inventory.None? then [] else inventory.value
    }
  }

  /** The world queries of one search, as oracles. */
  datatype World = World(
    mapThings: seq<Thing>,                             // every thing on the getter's map
    homeArea: IntVec3 -> bool,                         // home-area grid
    isForbidden: (Thing, Pawn) -> bool,                // thing forbidden to pawn
    canReach: (Pawn, IntVec3, bool) -> bool,           // pawn can touch cell, desperate flag
    isSociallyProper: (Thing, Pawn) -> bool,
    thoughtsFromIngesting: (Pawn, Thing) -> seq<ThoughtDef>,
    willEat: (Pawn, Thing, Option<Pawn>) -> bool)      // eater, thing, getter if different
}
