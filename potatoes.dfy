/** The Potato species: its constants, its hook and what they mean for a day. */
module Potatoes {
  import opened Plants
  import Lifecycle

  predicate IsPotato(c: Crop) {
    c.species == Potato && c.traits == PotatoTraits
  }

  /** The hook adds 1 fertilizer (capped at 10) and leaves water and health alone. */
  lemma PotatoHook(c: Crop)
    requires c.species == Potato
    ensures SpeciesHook(c).fertilizerLevel
         == if c.fertilizerLevel + 1 <= MaxLevel then c.fertilizerLevel + 1 else MaxLevel
    ensures SpeciesHook(c) == c.(fertilizerLevel := SpeciesHook(c).fertilizerLevel)
  {
  }

  /** From levels in [0, 10], a potato grows (escapes the nutrient penalty) iff water >= 4 and fertilizer >= 3. */
  lemma PotatoFedIff(c: Crop)
    requires IsPotato(c) && CanGrow(c.stage)
    requires 0 <= c.waterLevel <= MaxLevel && 0 <= c.fertilizerLevel <= MaxLevel
    ensures !Starved(AfterConsumption(c)) <==> c.waterLevel >= 4 && c.fertilizerLevel >= 3
    ensures Daily(c).crop.daysGrown == c.daysGrown + 1 <==> c.waterLevel >= 4 && c.fertilizerLevel >= 3
  {
    NutrientEffectsExclusive(c);
  }

  /** Potato keeps the default pest damage: an infected growing potato loses exactly 15 more. */
  lemma PotatoPestDamage(c: Crop)
    requires IsPotato(c) && CanGrow(c.stage)
    ensures Daily(c.(infected := true)).crop.health == Daily(c.(infected := false)).crop.health - 15
  {
    PestCostsExactly(c);
  }

  /** With growthTime 1 a potato is a Seedling after 1 growth day, Mature after 2, Harvest after exactly 3. */
  lemma PotatoLife(acts: seq<Lifecycle.Action>)
    ensures var p := Lifecycle.PerformAll(NewCrop(Potato, PotatoTraits), acts);
            p.stage != Empty ==>
              && (p.stage == Seed <==> p.daysGrown == 0)
              && (p.stage == Seedling <==> p.daysGrown == 1)
              && (p.stage == Mature <==> p.daysGrown == 2)
              && (p.stage == Harvest <==> p.daysGrown == 3)
  {
    Lifecycle.LifeStages(PotatoTraits, Potato, acts);
  }
}
