/**
 * One crop's growth and health state machine (Plant, with the Tomato and
 * Potato species dispatched by a tag instead of subclass overrides).
 *
 * The pure functions on `Crop` values describe each operation; the class
 * `Plant` performs the same operations by assigning its fields step by step,
 * and every method promises that its new state is the function of its old one.
 */
module Plants {

  /** Growth stages. Empty marks a dead (or cleared) crop; it is not a growth step. */
  datatype Stage = Empty | Seed | Seedling | Mature | Harvest

  /** Stage.canGrow: only the three development stages grow. */
  predicate CanGrow(s: Stage)
    ensures CanGrow(s) <==> 0 < Rank(s) < Rank(Harvest)
  {
    s == Seed || s == Seedling || s == Mature
  }

  /** Position along Seed -> Seedling -> Mature -> Harvest; Empty is off that line. */
  function Rank(s: Stage): nat {
    match s
    case Empty => 0
    case Seed => 1
    case Seedling => 2
    case Mature => 3
    case Harvest => 4
  }

  /** Base stands for every species that keeps the default hooks. */
  datatype Species = Base | Tomato | Potato

  /** The fixed per-species constants a plant is constructed with. */
  datatype Traits = Traits(seedCost: int, harvestValue: int, growthTime: int,
                           waterNeed: int, fertilizerNeed: int)

  const TomatoTraits := Traits(15, 120, 3, 4, 3)
  const PotatoTraits := Traits(8, 60, 1, 2, 2)

  const MaxLevel := 10
  const MaxHealth := 100
  const StarvationLoss := 20
  const RecoveryGain := 5
  const TreatmentGain := 20
  const DefaultPestDamage := 15
  const TomatoPestDamage := 30

  function Min(a: int, b: int): int { if a <= b then a else b }
  function Max(a: int, b: int): int { if a >= b then a else b }

  /** The whole state of one plant, as a value. */
  datatype Crop = Crop(species: Species, traits: Traits, stage: Stage, daysGrown: int,
                       waterLevel: int, fertilizerLevel: int, health: int, infected: bool)

  /** The state every plant is constructed in. */
  function NewCrop(species: Species, traits: Traits): Crop {
    Crop(species, traits, Seed, 0, 0, 0, MaxHealth, false)
  }

  /** pestDamage(): Tomato overrides it, every other species keeps the default. */
  function PestDamage(species: Species): (d: int)
    ensures d > 0
    ensures species == Tomato ==> d == TomatoPestDamage
    ensures species != Tomato ==> d == DefaultPestDamage
  {
    match species
    case Tomato => TomatoPestDamage
    case _ => DefaultPestDamage
  }

  /** water(amount): add to the water level, never above MaxLevel. */
  function Watered(c: Crop, amount: int): (r: Crop)
    ensures r.waterLevel <= MaxLevel
    ensures r.waterLevel == c.waterLevel + amount
         || (c.waterLevel + amount > MaxLevel && r.waterLevel == MaxLevel)
    ensures r == c.(waterLevel := r.waterLevel)
  {
    c.(waterLevel := Min(c.waterLevel + amount, MaxLevel))
  }

  /** fertilize(amount): add to the fertilizer level, never above MaxLevel. */
  function Fertilized(c: Crop, amount: int): (r: Crop)
    ensures r.fertilizerLevel <= MaxLevel
    ensures r.fertilizerLevel == c.fertilizerLevel + amount
         || (c.fertilizerLevel + amount > MaxLevel && r.fertilizerLevel == MaxLevel)
    ensures r == c.(fertilizerLevel := r.fertilizerLevel)
  {
    c.(fertilizerLevel := Min(c.fertilizerLevel + amount, MaxLevel))
  }

  /** infectWithPest(): only the infection flag changes, and it is then set; infecting twice is infecting once. */
  function WithPest(c: Crop): (r: Crop)
    ensures r.infected
    ensures r.(infected := c.infected) == c
    ensures c.infected ==> r == c
  {
    c.(infected := true)
  }

  /** treatPest(): clears the infection and restores health, capped at MaxHealth. */
  function PestTreated(c: Crop): (r: Crop)
    ensures !r.infected
    ensures r.health <= MaxHealth
    ensures r.health == c.health + TreatmentGain
         || (c.health + TreatmentGain > MaxHealth && r.health == MaxHealth)
    ensures r.(infected := c.infected, health := c.health) == c
  {
    c.(infected := false, health := Min(MaxHealth, c.health + TreatmentGain))
  }

  /** adjustHealth(amount): the only operation that keeps health inside [0, MaxHealth]. */
  function HealthAdjusted(c: Crop, amount: int): (r: Crop)
    ensures 0 <= r.health <= MaxHealth
    ensures 0 <= c.health + amount <= MaxHealth ==> r.health == c.health + amount
    ensures c.health + amount < 0 ==> r.health == 0
    ensures c.health + amount > MaxHealth ==> r.health == MaxHealth
    ensures r == c.(health := r.health)
  {
    c.(health := Min(MaxHealth, Max(0, c.health + amount)))
  }

  /**
   * beforeDailyUpdate(): the species hook. The default does nothing; Tomato
   * drinks water and fertilizer and heals, Potato only takes fertilizer.
   */
  function SpeciesHook(c: Crop): (r: Crop)
    ensures r.species == c.species && r.traits == c.traits && r.stage == c.stage
    ensures r.daysGrown == c.daysGrown && r.infected == c.infected
    ensures c.species == Base ==> r == c
    ensures c.species == Potato ==> r.waterLevel == c.waterLevel && r.health == c.health
  {
    match c.species
    case Base => c
    case Tomato => HealthAdjusted(Fertilized(Watered(c, 1), 1), 5)
    case Potato => Fertilized(c, 1)
  }

  /** The daily consumption: each level drops by the species' need, floored at 0. */
  function Consumed(c: Crop): (r: Crop)
    ensures r.waterLevel >= 0 && r.fertilizerLevel >= 0
    ensures c.waterLevel >= c.traits.waterNeed ==> r.waterLevel == c.waterLevel - c.traits.waterNeed
    ensures c.waterLevel < c.traits.waterNeed ==> r.waterLevel == 0
    ensures c.fertilizerLevel >= c.traits.fertilizerNeed
            ==> r.fertilizerLevel == c.fertilizerLevel - c.traits.fertilizerNeed
    ensures c.fertilizerLevel < c.traits.fertilizerNeed ==> r.fertilizerLevel == 0
    ensures c.traits.waterNeed >= 0 && c.waterLevel <= MaxLevel ==> r.waterLevel <= MaxLevel
    ensures c.traits.fertilizerNeed >= 0 && c.fertilizerLevel <= MaxLevel
            ==> r.fertilizerLevel <= MaxLevel
    ensures r == c.(waterLevel := r.waterLevel, fertilizerLevel := r.fertilizerLevel)
  {
    c.(waterLevel := Max(0, c.waterLevel - c.traits.waterNeed),
       fertilizerLevel := Max(0, c.fertilizerLevel - c.traits.fertilizerNeed))
  }

  /** After consumption: is either level below the species' daily need? */
  predicate Starved(c: Crop) {
    c.waterLevel < c.traits.waterNeed || c.fertilizerLevel < c.traits.fertilizerNeed
  }

  /** The nutrient rule: a starved crop loses 20 health (unclamped), a fed one heals 5 up to MaxHealth. */
  function Nourished(c: Crop): (r: Crop)
    ensures Starved(c) ==> r.health == c.health - StarvationLoss
    ensures !Starved(c) ==> r.health <= MaxHealth
    ensures !Starved(c) ==> (r.health == c.health + RecoveryGain
                         || (c.health + RecoveryGain > MaxHealth && r.health == MaxHealth))
    ensures r == c.(health := r.health)
  {
    if Starved(c) then c.(health := c.health - StarvationLoss)
    else c.(health := Min(MaxHealth, c.health + RecoveryGain))
  }

  /** Pest damage, subtracted without clamping. */
  function PestDamaged(c: Crop): (r: Crop)
    ensures c.infected ==> r.health == c.health - PestDamage(c.species)
    ensures !c.infected ==> r == c
    ensures r == c.(health := r.health)
  {
    if c.infected then c.(health := c.health - PestDamage(c.species)) else c
  }

  /** The stage after a growth day: at most one promotion, checked against the current stage. */
  function Promoted(s: Stage, daysGrown: int, growthTime: int): (r: Stage)
    // a developing stage moves to the next one exactly when its own threshold growthTime * Rank(s) is reached
    ensures CanGrow(s) && daysGrown >= growthTime * Rank(s) ==> Rank(r) == Rank(s) + 1
    ensures !CanGrow(s) || daysGrown < growthTime * Rank(s) ==> r == s
  {
    if daysGrown >= growthTime && s == Seed then Seedling
    else if daysGrown >= growthTime * 2 && s == Seedling then Mature
    else if daysGrown >= growthTime * 3 && s == Mature then Harvest
    else s
  }

  /** Growth: a developing, fed crop gains a day and may move one stage forward. */
  function Grown(c: Crop): (r: Crop)
    ensures !CanGrow(c.stage) || Starved(c) ==> r == c
    ensures CanGrow(c.stage) && !Starved(c) ==> r.daysGrown == c.daysGrown + 1
    ensures r.stage == c.stage || Rank(r.stage) == Rank(c.stage) + 1
    ensures r == c.(daysGrown := r.daysGrown, stage := r.stage)
  {
    if CanGrow(c.stage) && !Starved(c) then
      var d := c.daysGrown + 1;
      c.(daysGrown := d, stage := Promoted(c.stage, d, c.traits.growthTime))
    else c
  }

  /** A day's outcome: the new crop and whether it survived. */
  datatype Day = Day(crop: Crop, alive: bool)

  /** The steps of updateDaily up to (not including) the death check. */
  function DayBeforeDeath(c: Crop): Crop {
    Grown(PestDamaged(Nourished(Consumed(SpeciesHook(c)))))
  }

  /** updateDaily(). */
  function Daily(c: Crop): (d: Day)
    ensures c.stage == Harvest || c.stage == Empty ==> d == Day(c, true)
    ensures d.crop.species == c.species && d.crop.traits == c.traits
    ensures d.crop.infected == c.infected
    // the stage moves at most one step forward, never backward except to Empty
    ensures d.crop.stage == Empty || d.crop.stage == c.stage || Rank(d.crop.stage) == Rank(c.stage) + 1
    ensures c.stage != Empty && d.alive ==> d.crop.stage != Empty
    // a growing crop survives iff its health ends above 0, and a dead crop is Empty
    ensures CanGrow(c.stage) ==> (d.alive <==> d.crop.health > 0)
    ensures !d.alive ==> d.crop.stage == Empty
    ensures c.health <= MaxHealth ==> d.crop.health <= MaxHealth
  {
    if c.stage == Harvest || c.stage == Empty then Day(c, true)
    else
      var e := DayBeforeDeath(c);
      if e.health <= 0 then Day(e.(stage := Empty), false) else Day(e, true)
  }

  /** The nutrient state the nutrient, pest and growth checks of updateDaily look at. */
  function AfterConsumption(c: Crop): Crop {
    Consumed(SpeciesHook(c))
  }

  /** The two nutrient outcomes of updateDaily exclude each other. */
  lemma NutrientEffectsExclusive(c: Crop)
    requires CanGrow(c.stage)
    ensures !Starved(AfterConsumption(c)) ==> Daily(c).crop.daysGrown == c.daysGrown + 1
    ensures !Starved(AfterConsumption(c)) ==> Nourished(AfterConsumption(c)).health <= MaxHealth
    ensures Starved(AfterConsumption(c)) ==> Daily(c).crop.daysGrown == c.daysGrown
    ensures Starved(AfterConsumption(c)) ==> Nourished(AfterConsumption(c)).health == SpeciesHook(c).health - StarvationLoss
  {
  }

  /** An infected growing crop ends the day exactly PestDamage lower than its uninfected twin. */
  lemma PestCostsExactly(c: Crop)
    requires CanGrow(c.stage)
    ensures Daily(c.(infected := true)).crop.health
         == Daily(c.(infected := false)).crop.health - PestDamage(c.species)
  {
  }

  /** The picture a grid shows for a crop: the species' harvest glyph or its stage's glyph. */
  datatype Glyph = HarvestGlyph | StageGlyph(stage: Stage)

  /** A plant, with the fields updateDaily and the care operations assign. */
  class Plant {
    const species: Species
    const displayName: string
    const seedCost: int
    const harvestValue: int
    const growthTime: int
    const waterNeed: int
    const fertilizerNeed: int

    var stage: Stage
    var daysGrown: int
    var waterLevel: int
    var fertilizerLevel: int
    var health: int
    var isPestInfected: bool

    function TraitsOf(): Traits {
      Traits(seedCost, harvestValue, growthTime, waterNeed, fertilizerNeed)
    }

    /** The plant's state as a value. */
    function Value(): Crop
      reads this
    {
      Crop(species, TraitsOf(), stage, daysGrown, waterLevel, fertilizerLevel, health, isPestInfected)
    }

    /** The constructor shared by every species that keeps the default hooks. */
    constructor (displayName: string, seedCost: int, harvestValue: int,
                 growthTime: int, waterNeed: int, fertilizerNeed: int)
      ensures species == Base && this.displayName == displayName
      ensures TraitsOf() == Traits(seedCost, harvestValue, growthTime, waterNeed, fertilizerNeed)
      ensures stage == Seed && daysGrown == 0 && waterLevel == 0 && fertilizerLevel == 0
      ensures health == MaxHealth && !isPestInfected
      ensures Value() == NewCrop(Base, TraitsOf())
    {
      this.species := Base;
      this.displayName := displayName;
      this.seedCost := seedCost;
      this.harvestValue := harvestValue;
      this.growthTime := growthTime;
      this.waterNeed := waterNeed;
      this.fertilizerNeed := fertilizerNeed;
      stage := Seed;
      daysGrown := 0;
      waterLevel := 0;
      fertilizerLevel := 0;
      health := MaxHealth;
      isPestInfected := false;
    }

    /** new Tomato(). */
    constructor Tomato()
      ensures species == Species.Tomato && displayName == "Tomato"
      ensures seedCost == 15 && harvestValue == 120 && growthTime == 3
      ensures waterNeed == 4 && fertilizerNeed == 3
      ensures Value() == NewCrop(Species.Tomato, TomatoTraits)
    {
      this.species := Species.Tomato;
      this.displayName := "Tomato";
      this.seedCost := 15;
      this.harvestValue := 120;
      this.growthTime := 3;
      this.waterNeed := 4;
      this.fertilizerNeed := 3;
      stage := Seed;
      daysGrown := 0;
      waterLevel := 0;
      fertilizerLevel := 0;
      health := MaxHealth;
      isPestInfected := false;
    }

    /** new Potato(). */
    constructor Potato()
      ensures species == Species.Potato && displayName == "Potato"
      ensures seedCost == 8 && harvestValue == 60 && growthTime == 1
      ensures waterNeed == 2 && fertilizerNeed == 2
      ensures Value() == NewCrop(Species.Potato, PotatoTraits)
    {
      this.species := Species.Potato;
      this.displayName := "Potato";
      this.seedCost := 8;
      this.harvestValue := 60;
      this.growthTime := 1;
      this.waterNeed := 2;
      this.fertilizerNeed := 2;
      stage := Seed;
      daysGrown := 0;
      waterLevel := 0;
      fertilizerLevel := 0;
      health := MaxHealth;
      isPestInfected := false;
    }

    method Water(amount: int)
      modifies this
      ensures Value() == Watered(old(Value()), amount)
    {
      waterLevel := Min(waterLevel + amount, MaxLevel);
    }

    method Fertilize(amount: int)
      modifies this
      ensures Value() == Fertilized(old(Value()), amount)
    {
      fertilizerLevel := Min(fertilizerLevel + amount, MaxLevel);
    }

    method InfectWithPest()
      modifies this
      ensures Value() == WithPest(old(Value()))
    {
      isPestInfected := true;
    }

    method TreatPest()
      modifies this
      ensures Value() == PestTreated(old(Value()))
    {
      isPestInfected := false;
      health := Min(MaxHealth, health + TreatmentGain);
    }

    method AdjustHealth(amount: int)
      modifies this
      ensures Value() == HealthAdjusted(old(Value()), amount)
    {
      health := Min(MaxHealth, Max(0, health + amount));
    }

    /** The species hook, dispatched on the tag. */
    method BeforeDailyUpdate()
      modifies this
      ensures Value() == SpeciesHook(old(Value()))
    {
      match species
      case Base =>
      case Tomato =>
        Water(1);
        Fertilize(1);
        AdjustHealth(5);
      case Potato =>
        Fertilize(1);
    }

    /** The daily step; the answer says whether the plant is still alive. */
    method UpdateDaily() returns (alive: bool)
      modifies this
      ensures Day(Value(), alive) == Daily(old(Value()))
      ensures old(stage) == Harvest || old(stage) == Empty ==> unchanged(this) && alive
    {
      if stage == Harvest || stage == Empty {
        return true;
      }
      BeforeDailyUpdate();
      ghost var hooked := Value();

      waterLevel := Max(0, waterLevel - waterNeed);
      fertilizerLevel := Max(0, fertilizerLevel - fertilizerNeed);
      assert Value() == Consumed(hooked);

      if waterLevel < waterNeed || fertilizerLevel < fertilizerNeed {
        health := health - StarvationLoss;
      } else {
        health := Min(MaxHealth, health + RecoveryGain);
      }
      assert Value() == Nourished(Consumed(hooked));

      if isPestInfected {
        health := health - PestDamage(species);
      }
      assert Value() == PestDamaged(Nourished(Consumed(hooked)));

      Grow();
      assert Value() == DayBeforeDeath(old(Value()));

      if health <= 0 {
        stage := Empty;
        return false;
      }
      return true;
    }

    /** The growth step of updateDaily: a fed, developing crop gains a day and may move up a stage. */
    method Grow()
      modifies this
      ensures Value() == Grown(old(Value()))
    {
      if CanGrow(stage) && waterLevel >= waterNeed && fertilizerLevel >= fertilizerNeed {
        daysGrown := daysGrown + 1;
        if daysGrown >= growthTime && stage == Seed {
          stage := Seedling;
        } else if daysGrown >= growthTime * 2 && stage == Seedling {
          stage := Mature;
        } else if daysGrown >= growthTime * 3 && stage == Mature {
          stage := Harvest;
        }
      }
    }

    /** getDisplayEmoji(): only the Harvest stage shows the species' own glyph. */
    function DisplayGlyph(): (g: Glyph)
      reads this
      ensures g == HarvestGlyph <==> stage == Harvest
      ensures g != HarvestGlyph ==> g == StageGlyph(stage)
    {
      if stage == Harvest then HarvestGlyph else StageGlyph(stage)
    }
  }
}
