/**
 * What holds of a crop across any sequence of the operations a game can apply
 * to it: care (water, fertilize, treat), weather and pests (which go through
 * water, fertilize and adjustHealth), infection, and day updates.
 */
module Lifecycle {
  import opened Plants

  /** One call on a plant. */
  datatype Action =
    | WaterBy(amount: int)
    | FertilizeBy(amount: int)
    | AdjustBy(amount: int)
    | Infect
    | Treat
    | NextDay

  function Perform(c: Crop, a: Action): Crop {
    match a
    case WaterBy(n) => Watered(c, n)
    case FertilizeBy(n) => Fertilized(c, n)
    case AdjustBy(n) => HealthAdjusted(c, n)
    case Infect => WithPest(c)
    case Treat => PestTreated(c)
    case NextDay => Daily(c).crop
  }

  /** The crop after the actions, in order. */
  function PerformAll(c: Crop, acts: seq<Action>): Crop
    decreases |acts|
  {
    if acts == [] then c else PerformAll(Perform(c, acts[0]), acts[1..])
  }

  /** The stage the growth thresholds growthTime, 2 * growthTime and 3 * growthTime assign to a day count. */
  function StageAt(daysGrown: int, growthTime: int): Stage {
    if daysGrown >= growthTime * 3 then Harvest
    else if daysGrown >= growthTime * 2 then Mature
    else if daysGrown >= growthTime then Seedling
    else Seed
  }

  /**
   * The invariant of a plant whose species constants are sensible: a living
   * stage always matches the thresholds, growth stops at 3 * growthTime, and
   * neither level nor health can exceed its maximum.
   */
  ghost predicate Sound(c: Crop) {
    var g := c.traits.growthTime;
    && g >= 1
    && c.traits.waterNeed >= 0
    && c.traits.fertilizerNeed >= 0
    && 0 <= c.daysGrown <= g * 3
    && (c.stage == Empty || c.stage == StageAt(c.daysGrown, g))
    && c.waterLevel <= MaxLevel
    && c.fertilizerLevel <= MaxLevel
    && c.health <= MaxHealth
  }

  /** A newly constructed plant is sound when its species constants are. */
  lemma NewCropSound(species: Species, traits: Traits)
    requires traits.growthTime >= 1 && traits.waterNeed >= 0 && traits.fertilizerNeed >= 0
    ensures Sound(NewCrop(species, traits))
  {
  }

  /** One day keeps the thresholds: a growth day crosses at most one of them. */
  lemma DailyKeepsSchedule(c: Crop)
    requires Sound(c)
    ensures Sound(Daily(c).crop)
  {
    if CanGrow(c.stage) {
      var e := DayBeforeDeath(c);
      var f := PestDamaged(Nourished(Consumed(SpeciesHook(c))));
      assert f.stage == c.stage && f.daysGrown == c.daysGrown && f.traits == c.traits;
      assert e == Grown(f);
      if CanGrow(f.stage) && !Starved(f) {
        assert e.daysGrown == c.daysGrown + 1;
        assert c.daysGrown < c.traits.growthTime * 3;
      }
    }
  }

  lemma PerformKeepsSound(c: Crop, a: Action)
    requires Sound(c)
    ensures Sound(Perform(c, a))
  {
    if a.NextDay? {
      DailyKeepsSchedule(c);
    }
  }

  /** Soundness survives every sequence of operations. */
  lemma {:induction false} PerformAllKeepsSound(c: Crop, acts: seq<Action>)
    requires Sound(c)
    ensures Sound(PerformAll(c, acts))
    decreases |acts|
  {
    if acts != [] {
      PerformKeepsSound(c, acts[0]);
      PerformAllKeepsSound(Perform(c, acts[0]), acts[1..]);
    }
  }

  /** An Empty crop is never revived or re-promoted. */
  lemma {:induction false} EmptyIsFinal(c: Crop, acts: seq<Action>)
    requires c.stage == Empty
    ensures PerformAll(c, acts).stage == Empty
    decreases |acts|
  {
    if acts != [] {
      EmptyIsFinal(Perform(c, acts[0]), acts[1..]);
    }
  }

  /** The stage never moves backward along the growth line, except to Empty. */
  lemma {:induction false} StageNeverRegresses(c: Crop, acts: seq<Action>)
    ensures PerformAll(c, acts).stage == Empty || Rank(PerformAll(c, acts).stage) >= Rank(c.stage)
    decreases |acts|
  {
    if acts != [] {
      var next := Perform(c, acts[0]);
      assert next.stage == Empty || Rank(next.stage) >= Rank(c.stage);
      if next.stage == Empty {
        EmptyIsFinal(next, acts[1..]);
      } else {
        StageNeverRegresses(next, acts[1..]);
      }
    }
  }

  /** The species tag and constants never change. */
  lemma {:induction false} SpeciesIsFixed(c: Crop, acts: seq<Action>)
    ensures PerformAll(c, acts).species == c.species && PerformAll(c, acts).traits == c.traits
    decreases |acts|
  {
    if acts != [] {
      SpeciesIsFixed(Perform(c, acts[0]), acts[1..]);
    }
  }

  /** The plant's life, as the thresholds read it: Harvest exactly at 3 * growthTime growth days. */
  lemma LifeStages(traits: Traits, species: Species, acts: seq<Action>)
    requires traits.growthTime >= 1 && traits.waterNeed >= 0 && traits.fertilizerNeed >= 0
    ensures var p := PerformAll(NewCrop(species, traits), acts);
            var g := traits.growthTime;
            p.stage != Empty ==>
              && (p.stage == Seed <==> 0 <= p.daysGrown < g)
              && (p.stage == Seedling <==> g <= p.daysGrown < g * 2)
              && (p.stage == Mature <==> g * 2 <= p.daysGrown < g * 3)
              && (p.stage == Harvest <==> p.daysGrown == g * 3)
  {
    NewCropSound(species, traits);
    PerformAllKeepsSound(NewCrop(species, traits), acts);
    SpeciesIsFixed(NewCrop(species, traits), acts);
  }
}
