/** The Tomato species: its constants, its hook and what they mean for a day. */
module Tomatoes {
  import opened Plants
  import Lifecycle

  predicate IsTomato(c: Crop) {
    c.species == Tomato && c.traits == TomatoTraits
  }

  /** The hook adds 1 water and 1 fertilizer (capped at 10) and 5 health (clamped to [0, 100]). */
  lemma TomatoHook(c: Crop)
    requires c.species == Tomato
    ensures SpeciesHook(c).waterLevel == if c.waterLevel + 1 <= MaxLevel then c.waterLevel + 1 else MaxLevel
    ensures SpeciesHook(c).fertilizerLevel
         == if c.fertilizerLevel + 1 <= MaxLevel then c.fertilizerLevel + 1 else MaxLevel
    ensures 0 <= SpeciesHook(c).health <= MaxHealth
    ensures 0 <= c.health + 5 <= MaxHealth ==> SpeciesHook(c).health == c.health + 5
    ensures c.health + 5 > MaxHealth ==> SpeciesHook(c).health == MaxHealth
    ensures c.health + 5 < 0 ==> SpeciesHook(c).health == 0
  {
  }

  /** From levels in [0, 10], a tomato grows (escapes the nutrient penalty) iff water >= 7 and fertilizer >= 5. */
  lemma TomatoFedIff(c: Crop)
    requires IsTomato(c) && CanGrow(c.stage)
    requires 0 <= c.waterLevel <= MaxLevel && 0 <= c.fertilizerLevel <= MaxLevel
    ensures !Starved(AfterConsumption(c)) <==> c.waterLevel >= 7 && c.fertilizerLevel >= 5
    ensures Daily(c).crop.daysGrown == c.daysGrown + 1 <==> c.waterLevel >= 7 && c.fertilizerLevel >= 5
  {
    NutrientEffectsExclusive(c);
  }

  /** An infected growing tomato loses exactly 30 more health in a day than an uninfected one. */
  lemma TomatoPestDamage(c: Crop)
    requires IsTomato(c) && CanGrow(c.stage)
    ensures Daily(c.(infected := true)).crop.health == Daily(c.(infected := false)).crop.health - 30
  {
    PestCostsExactly(c);
  }

  /** A harvested or dead tomato's day update leaves levels and health as they were. */
  lemma TomatoDoneStaysPut(c: Crop)
    requires IsTomato(c) && (c.stage == Harvest || c.stage == Empty)
    ensures Daily(c).crop.waterLevel == c.waterLevel && Daily(c).crop.fertilizerLevel == c.fertilizerLevel
    ensures Daily(c).crop.health == c.health && Daily(c).alive
  {
  }

  /** A new tomato stays alive on its stages: Seedling from day 3, Mature from 6, Harvest exactly at 9. */
  lemma TomatoLife(acts: seq<Lifecycle.Action>)
    ensures var p := Lifecycle.PerformAll(NewCrop(Tomato, TomatoTraits), acts);
            p.stage != Empty ==>
              && (p.stage == Seed <==> 0 <= p.daysGrown < 3)
              && (p.stage == Seedling <==> 3 <= p.daysGrown < 6)
              && (p.stage == Mature <==> 6 <= p.daysGrown < 9)
              && (p.stage == Harvest <==> p.daysGrown == 9)
  {
    Lifecycle.LifeStages(TomatoTraits, Tomato, acts);
  }
}
