/**
  Pawn role predicates and the bit-mask flag test. A missing (null) part of a pawn makes the
  null-conditional predicates false; `IsIncapacitated` dereferences `health` directly and so
  throws on a pawn without one.
*/
module Extensions {
  import opened Base
  import opened Verse

  predicate IsAnimal(pawn: Pawn) {
    pawn.raceProps.Some? && pawn.raceProps.value.animal
  }

  predicate IsPlayerFaction(pawn: Pawn) {
    pawn.faction.Some? && pawn.faction.value.IsPlayer()
  }

  predicate IsColonist(pawn: Pawn) {
    IsPlayerFaction(pawn) && !IsAnimal(pawn)
  }

  /** Not of the player's faction, but hosted by it. The host's player faction is the one
      faction whose `IsPlayer` holds, so it is recognised by that flag; the insect faction has
      no such flag, so `IsInsectFaction` takes it as a parameter. */
  predicate IsGuest(pawn: Pawn) {
    !IsPlayerFaction(pawn) && pawn.hostFaction.Some? && pawn.hostFaction.value.IsPlayer()
  }

  predicate IsPet(pawn: Pawn) {
    IsAnimal(pawn) && IsPlayerFaction(pawn)
  }

  predicate IsWildAnimal(pawn: Pawn) {
    IsAnimal(pawn) && pawn.faction.None?
  }

  predicate IsSownPlant(thing: Thing) {
    thing.kind.PlantThing? && thing.kind.sown
  }

  /** Not in pain shock but downed; a pawn without a health tracker throws. */
  function IsIncapacitated(pawn: Pawn): (r: Result<bool>)
    ensures pawn.health.None? <==> r == Throws(NullReference)
    ensures r == Ok(true) <==> pawn.health.Some? && pawn.health.value.downed && !pawn.health.value.inPainShock
  {
    match pawn.health
    case None => Throws(NullReference)
    case Some(h) => Ok(!h.inPainShock && h.downed)
  }

  predicate HasTrait(pawn: Pawn, t: Trait) {
    pawn.story.Some? && pawn.story.value.traits.Some? && t in pawn.story.value.traits.value
  }

  predicate IsCannibal(pawn: Pawn) {
    HasTrait(pawn, Cannibal)
  }

  predicate IsAscetic(pawn: Pawn) {
    HasTrait(pawn, Ascetic)
  }

  predicate IsHostile(pawn: Pawn) {
    pawn.faction.Some? && pawn.faction.value.hostileToPlayer
  }

  predicate IsFriendly(pawn: Pawn) {
    !IsHostile(pawn)
  }

  /** `ofInsects` is the host's insect faction, which may not exist. */
  predicate IsInsectFaction(pawn: Pawn, ofInsects: Option<Faction>) {
    pawn.faction == ofInsects
  }

  predicate CanManipulate(pawn: Pawn) {
    && (pawn.raceProps.Some? && pawn.raceProps.value.toolUser)
    && (pawn.health.Some? && pawn.health.value.capacities.Some?
        && pawn.health.value.capacities.value.capableOfManipulation)
  }

  /** An enum value: the 64-bit two's-complement image of its underlying integer, and whether
      that underlying type is signed. */
  datatype EnumValue = EnumValue(bits: bv64, signed: bool)

  /** A value of a signed underlying type below zero: the sign bit of its image is set. */
  predicate Negative(v: EnumValue) {
    v.signed && v.bits & 0x8000_0000_0000_0000 != 0
  }

  /** The value of an unsigned enum with the given bits. */
  function Unsigned(b: bv64): EnumValue {
    EnumValue(b, false)
  }

  /** The enum flag test: every bit of `value` is set in `test`, both read as unsigned 64-bit
      integers. A null `test` is false, a null `value` throws, and a negative value of a signed
      enum cannot be read as unsigned and throws an overflow (`value` is converted first). */
  function HasFlag(test: Option<EnumValue>, value: Option<EnumValue>): (r: Result<bool>)
    ensures test.None? ==> r == Ok(false)
    ensures test.Some? && value.None? ==> r == Throws(ArgumentNull)
    ensures test.Some? && value.Some? && (Negative(value.value) || Negative(test.value)) ==> r == Throws(Overflow)
    ensures r.Ok? <==> test.None? || (value.Some? && !Negative(value.value) && !Negative(test.value))
  {
    if test.None? then Ok(false)
    else if value.None? then Throws(ArgumentNull)
    else if Negative(value.value) || Negative(test.value) then Throws(Overflow)
    else Ok(test.value.bits & value.value.bits == value.value.bits)
  }

  /** Colonist and pet split the player faction by the animal test, so no pawn is both. */
  lemma ColonistAndPetSplitPlayerFaction(pawn: Pawn)
    ensures IsColonist(pawn) <==> IsPlayerFaction(pawn) && !IsAnimal(pawn)
    ensures IsPet(pawn) <==> IsPlayerFaction(pawn) && IsAnimal(pawn)
    ensures !(IsColonist(pawn) && IsPet(pawn))
    ensures IsPlayerFaction(pawn) <==> IsColonist(pawn) || IsPet(pawn)
  {
  }

  /** A guest is outside the player faction, hence neither colonist nor pet. */
  lemma GuestIsNeitherColonistNorPet(pawn: Pawn)
    requires IsGuest(pawn)
    ensures !IsPlayerFaction(pawn) && !IsColonist(pawn) && !IsPet(pawn)
  {
  }

  /** A wild animal has no faction, hence is no pet, colonist or guest of the player's faction. */
  lemma WildAnimalIsNotPet(pawn: Pawn)
    requires IsWildAnimal(pawn)
    ensures !IsPlayerFaction(pawn) && !IsPet(pawn) && !IsColonist(pawn) && !IsHostile(pawn)
  {
  }

  /** Missing race properties, faction or story make the null-conditional predicates false. */
  lemma MissingPartsAreFalse(pawn: Pawn)
    ensures pawn.raceProps.None? ==> !IsAnimal(pawn) && !CanManipulate(pawn) && !IsPet(pawn) && !IsWildAnimal(pawn)
    ensures pawn.faction.None? ==> !IsPlayerFaction(pawn) && !IsHostile(pawn) && IsFriendly(pawn) && !IsColonist(pawn)
    ensures pawn.story.None? ==> !IsAscetic(pawn) && !IsCannibal(pawn)
    ensures pawn.health.None? ==> !CanManipulate(pawn)
  {
  }

  /** When there is no insect faction, exactly the factionless pawns (wild animals among them)
      compare equal to it. */
  lemma InsectFactionWhenAbsent(pawn: Pawn)
    ensures IsInsectFaction(pawn, None) <==> pawn.faction.None?
    ensures IsWildAnimal(pawn) ==> IsInsectFaction(pawn, None)
  {
  }

  /** Values whose sign bit is clear are tested as plain masks, whatever their signedness. */
  lemma HasFlagOfNonNegative(t: EnumValue, a: EnumValue)
    requires !Negative(t) && !Negative(a)
    ensures HasFlag(Some(t), Some(a)) == Ok(t.bits & a.bits == a.bits)
  {
  }

  lemma HasFlagZeroAndSelf(t: bv64)
    ensures HasFlag(Some(Unsigned(t)), Some(Unsigned(0))) == Ok(true)
    ensures HasFlag(Some(Unsigned(t)), Some(Unsigned(t))) == Ok(true)
    ensures HasFlag(Some(Unsigned(0)), Some(Unsigned(t))) == Ok(t == 0)
  {
  }

  /** A mask that holds two flags holds their union, and conversely. */
  lemma HasFlagUnion(t: bv64, a: bv64, b: bv64)
    requires HasFlag(Some(Unsigned(t)), Some(Unsigned(a))) == Ok(true) && HasFlag(Some(Unsigned(t)), Some(Unsigned(b))) == Ok(true)
    ensures HasFlag(Some(Unsigned(t)), Some(Unsigned(a | b))) == Ok(true)
  {
  }

  lemma HasFlagSplit(t: bv64, a: bv64, b: bv64)
    requires HasFlag(Some(Unsigned(t)), Some(Unsigned(a | b))) == Ok(true)
    ensures HasFlag(Some(Unsigned(t)), Some(Unsigned(a))) == Ok(true) && HasFlag(Some(Unsigned(t)), Some(Unsigned(b))) == Ok(true)
  {
  }

  /** The test is transitive. */
  lemma HasFlagTransitive(t: bv64, a: bv64, b: bv64)
    requires HasFlag(Some(Unsigned(t)), Some(Unsigned(a))) == Ok(true) && HasFlag(Some(Unsigned(a)), Some(Unsigned(b))) == Ok(true)
    ensures HasFlag(Some(Unsigned(t)), Some(Unsigned(b))) == Ok(true)
  {
    assert t & b == t & (a & b) == (t & a) & b;
  }
}
