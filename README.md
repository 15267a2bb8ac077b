# SmartFarm simulation core in Dafny

This project models the simulation engine of the SmartFarm game and proves properties of it:

- the `Plant` growth and health state machine that `updateDaily` drives;
- the Tomato and Potato species, which override the `beforeDailyUpdate` and `pestDamage` hooks;
- the `Farm` grid, with:
  - its bounds-checked cell lookup and planting;
  - the weather Markov chain;
  - the two-pass daily update (every weather effect first, then every cell's own update);
  - random pest infection with its count;
  - the crop census.

## Files

- `plants.dfy` (module `Plants`) covers `Plant.java`.
  - The plant's state is a value, `Crop`. Each operation is a pure step function on it: `Watered`, `Fertilized`, `WithPest`, `PestTreated`, `HealthAdjusted`, `SpeciesHook`, `Consumed`, `Nourished`, `PestDamaged`, `Grown` and `Daily`.
  - The class `Plant` has the source's mutable fields. Each of its methods assigns them step by step, as the Java does. Each method's postcondition ties the new state to the matching step function, e.g. `Value() == Daily(old(Value())).crop`.
  - The species of a plant is a tag: `Base` for any subclass that keeps the default hooks, `Tomato` or `Potato`. The two hooks dispatch on it with `match`.
- `lifecycle.dfy` (module `Lifecycle`) states what holds across any sequence of operations on a plant. It defines an invariant, `Sound`, and proves that every operation keeps it. `Sound` says:
  - the stage matches the growthTime thresholds;
  - `daysGrown` stops at 3 × growthTime;
  - neither level exceeds 10;
  - health never exceeds 100.

  It also proves that Empty is final, that the stage never moves backward and that the species constants never change.
- `tomatoes.dfy` (module `Tomatoes`) and `potatoes.dfy` (module `Potatoes`) state what the two species' constants and hooks mean for one day and for a whole life. This includes exactly which starting levels escape the nutrient penalty, the pest damage, and the day counts at which each stage is reached.
- `farm.dfy` (module `Farms`) covers `Farm.java`.
  - The class `Farm` keeps the grid as an `array2<Cell>`.
  - A `Cell` is a value: its coordinates and an optional crop.
  - A ghost field `trace` records every weather effect and every cell update that the daily update performs, in order. Against it the pass order is proved: first all the weather effects, row-major; then every cell's update, row-major.
  - The count of `infectRandomCrops` and the census of `getTotalCrops` are tied to recursive counting functions over a snapshot of the grid.

What is passed in rather than modelled:

- **Opaque steps.** What a weather does to a plant (`Weather.applyEffect`), how a cell accepts a plant (`Cell.plant`) and a cell's own daily update (`Cell.updateDaily`) belong to classes that are not part of this model. Each is a function parameter.
- **Random draws.** Every random draw is a parameter:
  - a boolean for each two-way weather branch;
  - an integer choice for `getRandomWeather`;
  - one boolean per cell for the infection roll.

## Model

| member | source | states |
|---|---|---|
| Plants.CanGrow | SmartFarm/src/smartfarm/model/plant/Plant.java:32-34 | exactly Seed, Seedling and Mature can grow: the stages strictly between the start and Harvest in the Seed → Harvest order |
| Plants.PestDamage | SmartFarm/src/smartfarm/model/plant/Plant.java:135-137 | the default pest damage is 15 and Tomato's is 30; it is always positive |
| Plants.Promoted | SmartFarm/src/smartfarm/model/plant/Plant.java:122-124 | a developing stage moves one step up exactly when daysGrown reaches growthTime times its own rank (g, 2g, 3g); otherwise the stage is kept |
| Plants.Watered | SmartFarm/src/smartfarm/model/plant/Plant.java:71-74 | the water level never exceeds 10; it is old+amount unless that passes 10, in which case it is 10; nothing else changes |
| Plants.Fertilized | SmartFarm/src/smartfarm/model/plant/Plant.java:76-78 | the fertilizer level never exceeds 10; it is old+amount unless that passes 10, in which case it is 10; nothing else changes |
| Plants.WithPest | SmartFarm/src/smartfarm/model/plant/Plant.java:80-83 | the crop is infected afterwards, only the flag changes, and infecting an infected crop returns it unchanged |
| Plants.PestTreated | SmartFarm/src/smartfarm/model/plant/Plant.java:85-89 | the infection is cleared and health becomes health+20, capped at 100; nothing else changes |
| Plants.HealthAdjusted | SmartFarm/src/smartfarm/model/plant/Plant.java:91-94 | health always ends in [0,100]: exactly health+amount when that is in range, 0 below, 100 above |
| Plants.SpeciesHook | SmartFarm/src/smartfarm/model/plant/Plant.java:134 | the hook never touches stage, days, species or infection; the default hook changes nothing; Potato's leaves water and health alone |
| Plants.Consumed | SmartFarm/src/smartfarm/model/plant/Plant.java:103-104 | each level drops by its need or to 0 when it cannot, so both end ≥ 0; levels that were ≤ 10 stay ≤ 10 |
| Plants.Nourished | SmartFarm/src/smartfarm/model/plant/Plant.java:106-111 | a starved crop loses exactly 20 health, with no floor; a fed one gains 5, capped at 100 |
| Plants.PestDamaged | SmartFarm/src/smartfarm/model/plant/Plant.java:113-116 | an infected crop loses exactly its species' pest damage, with no floor; an uninfected one is unchanged |
| Plants.Grown | SmartFarm/src/smartfarm/model/plant/Plant.java:118-125 | only a growing, fed crop gains exactly one day; the stage moves at most one step forward |
| Plants.Daily | SmartFarm/src/smartfarm/model/plant/Plant.java:96-132 | Harvest and Empty are left unchanged and reported alive; species, constants and infection never change; the stage moves at most one step forward or to Empty; a growing crop is reported dead iff its final health is ≤ 0, and a dead crop is Empty; health ≤ 100 is kept |
| Plants.NutrientEffectsExclusive | SmartFarm/src/smartfarm/model/plant/Plant.java:106-125 | without the nutrient penalty daysGrown rises by exactly 1 and health stays ≤ 100; with it daysGrown is unchanged and health drops by 20 |
| Plants.PestCostsExactly | SmartFarm/src/smartfarm/model/plant/Plant.java:113-116 | an infected growing crop ends the day exactly pestDamage() lower in health than its uninfected twin |
| Plants.Plant.constructor | SmartFarm/src/smartfarm/model/plant/Plant.java:53-69 | the species constants are stored; the plant starts as a Seed with 0 days, 0 water, 0 fertilizer, 100 health and no infection |
| Plants.Plant.Tomato | SmartFarm/src/smartfarm/model/plant/Tomato.java:4-6 | a new Tomato has seedCost 15, harvestValue 120, growthTime 3, waterNeed 4, fertilizerNeed 3 and the initial state |
| Plants.Plant.Potato | SmartFarm/src/smartfarm/model/plant/Potato.java:4-6 | a new Potato has seedCost 8, harvestValue 60, growthTime 1, waterNeed 2, fertilizerNeed 2 and the initial state |
| Plants.Plant.Water | SmartFarm/src/smartfarm/model/plant/Plant.java:71-74 | the new state is Watered of the old one |
| Plants.Plant.Fertilize | SmartFarm/src/smartfarm/model/plant/Plant.java:76-78 | the new state is Fertilized of the old one |
| Plants.Plant.InfectWithPest | SmartFarm/src/smartfarm/model/plant/Plant.java:80-83 | the new state is WithPest of the old one |
| Plants.Plant.TreatPest | SmartFarm/src/smartfarm/model/plant/Plant.java:85-89 | the new state is PestTreated of the old one |
| Plants.Plant.AdjustHealth | SmartFarm/src/smartfarm/model/plant/Plant.java:91-94 | the new state is HealthAdjusted of the old one |
| Plants.Plant.BeforeDailyUpdate | SmartFarm/src/smartfarm/model/plant/Tomato.java:11-15 | the species hook, run through water, fertilize and adjustHealth, leaves the state SpeciesHook of the old one |
| Plants.Plant.Grow | SmartFarm/src/smartfarm/model/plant/Plant.java:118-125 | the growth step leaves the state Grown of the old one |
| Plants.Plant.UpdateDaily | SmartFarm/src/smartfarm/model/plant/Plant.java:96-132 | the new state and the answer are exactly Daily of the old state; Harvest and Empty return true with nothing changed |
| Plants.Plant.DisplayGlyph | SmartFarm/src/smartfarm/model/plant/Plant.java:148-152 | the harvest glyph is shown iff the stage is Harvest; otherwise the stage's own glyph |
| Lifecycle.NewCropSound | SmartFarm/src/smartfarm/model/plant/Plant.java:63-68 | a new plant with growthTime ≥ 1 and non-negative needs satisfies the invariant |
| Lifecycle.DailyKeepsSchedule | SmartFarm/src/smartfarm/model/plant/Plant.java:118-125 | a day update keeps the stage on the g, 2g, 3g thresholds and daysGrown ≤ 3g |
| Lifecycle.PerformKeepsSound | SmartFarm/src/smartfarm/model/plant/Plant.java:71-132 | each of water, fertilize, adjustHealth, infect, treat and updateDaily keeps the invariant |
| Lifecycle.PerformAllKeepsSound | SmartFarm/src/smartfarm/model/plant/Plant.java:71-132 | every sequence of those operations keeps the invariant |
| Lifecycle.EmptyIsFinal | SmartFarm/src/smartfarm/model/plant/Plant.java:96-100 | once Empty, a plant stays Empty whatever is done to it |
| Lifecycle.StageNeverRegresses | SmartFarm/src/smartfarm/model/plant/Plant.java:122-128 | over any sequence of operations the stage only moves forward along Seed, Seedling, Mature, Harvest, or to Empty |
| Lifecycle.SpeciesIsFixed | SmartFarm/src/smartfarm/model/plant/Plant.java:37-42 | no operation changes the species or its constants |
| Lifecycle.LifeStages | SmartFarm/src/smartfarm/model/plant/Plant.java:122-124 | a living plant is a Seed below g days, a Seedling in [g,2g), Mature in [2g,3g) and at Harvest exactly at 3g |
| Tomatoes.TomatoHook | SmartFarm/src/smartfarm/model/plant/Tomato.java:11-15 | Tomato's hook adds 1 water and 1 fertilizer (each capped at 10) and 5 health: exactly health+5 when that is in [0,100], 100 above it, 0 below it |
| Tomatoes.TomatoFedIff | SmartFarm/src/smartfarm/model/plant/Tomato.java:5-15 | from levels in [0,10] a growing tomato escapes the nutrient penalty, and gains a day, iff water ≥ 7 and fertilizer ≥ 5 |
| Tomatoes.TomatoPestDamage | SmartFarm/src/smartfarm/model/plant/Tomato.java:8-10 | an infected growing tomato ends the day exactly 30 lower in health than an uninfected one |
| Tomatoes.TomatoDoneStaysPut | SmartFarm/src/smartfarm/model/plant/Tomato.java:11-15 | a harvested or dead tomato's update runs no hook: levels and health stay as they were |
| Tomatoes.TomatoLife | SmartFarm/src/smartfarm/model/plant/Tomato.java:5 | a living tomato is a Seedling from 3 days, Mature from 6, at Harvest exactly at 9 |
| Potatoes.PotatoHook | SmartFarm/src/smartfarm/model/plant/Potato.java:8-10 | Potato's hook adds 1 fertilizer (capped at 10) and changes nothing else |
| Potatoes.PotatoFedIff | SmartFarm/src/smartfarm/model/plant/Potato.java:5-10 | from levels in [0,10] a growing potato escapes the nutrient penalty, and gains a day, iff water ≥ 4 and fertilizer ≥ 3 |
| Potatoes.PotatoPestDamage | SmartFarm/src/smartfarm/model/plant/Potato.java:3-11 | with the inherited pestDamage an infected growing potato ends the day exactly 15 lower in health |
| Potatoes.PotatoLife | SmartFarm/src/smartfarm/model/plant/Potato.java:5 | a living potato is a Seedling at 1 day, Mature at 2, at Harvest exactly at 3 |
| Farms.NextWeather | SmartFarm/src/smartfarm/model/Farm.java:37-49 | the next weather is always one of the current one's successors; Storm always becomes Rainy |
| Farms.SuccessorsReached | SmartFarm/src/smartfarm/model/Farm.java:41-45 | a weather is a successor iff one of the two draws leads to it |
| Farms.RandomWeather | SmartFarm/src/smartfarm/model/Farm.java:51-62 | choices 0..4 give Sunny, Rainy, Cloudy, Drought, Storm; any other choice gives Sunny |
| Farms.RandomWeatherCoversAll | SmartFarm/src/smartfarm/model/Farm.java:51-62 | every weather is reached by exactly one choice in [0,5) |
| Farms.InfectCell | SmartFarm/src/smartfarm/model/Farm.java:104 | infecting a cell keeps its coordinates and occupancy; a planted cell's plant becomes infected and nothing else about it changes; an unplanted cell is unchanged |
| Farms.Weathered | SmartFarm/src/smartfarm/model/Farm.java:90-93 | only an occupied cell's plant receives the weather effect; other cells are unchanged |
| Farms.AfterDraw | SmartFarm/src/smartfarm/model/Farm.java:103-106 | an occupied cell with a winning draw is infected, and every other cell is unchanged; occupancy and coordinates are kept |
| Farms.RowCensusBound | SmartFarm/src/smartfarm/model/Farm.java:115-117 | a row's count of occupied cells is at most its length |
| Farms.CensusBound | SmartFarm/src/smartfarm/model/Farm.java:112-120 | the census of a rows×cols grid is at most rows*cols |
| Farms.RowInfectionsBound | SmartFarm/src/smartfarm/model/Farm.java:101-107 | a row's infections never exceed its count of occupied cells |
| Farms.InfectionsBound | SmartFarm/src/smartfarm/model/Farm.java:98-110 | the infection count never exceeds the census |
| Farms.WeatherRowExact | SmartFarm/src/smartfarm/model/Farm.java:89-94 | a row's weather visits are exactly its occupied cells, left to right, as many as the row's census |
| Farms.WeatherPassExact | SmartFarm/src/smartfarm/model/Farm.java:86-96 | the weather pass visits exactly the occupied cells, in row-major order, as many as the census |
| Farms.UpdateRow | SmartFarm/src/smartfarm/model/Farm.java:80-82 | a row's update pass makes one visit per cell |
| Farms.UpdateRowAt | SmartFarm/src/smartfarm/model/Farm.java:80-82 | the k-th update visit of a row is cell k |
| Farms.UpdatePassShape | SmartFarm/src/smartfarm/model/Farm.java:79-83 | the update pass makes rows*cols visits, all of them cell updates |
| Farms.UpdatePassRowMajor | SmartFarm/src/smartfarm/model/Farm.java:79-83 | cell (r,c) is updated at position r*cols+c: row-major order |
| Farms.WeatherBeforeUpdates | SmartFarm/src/smartfarm/model/Farm.java:77-84 | in a day's schedule no weather effect follows a cell update, and the first census-many visits are exactly the weather effects |
| Farms.Farm.constructor | SmartFarm/src/smartfarm/model/Farm.java:18-30 | the grid is rows×cols, every cell (i,j) is fresh with coordinates (i,j), so every cell knows its place; the weather is Sunny |
| Farms.Farm.UpdateWeatherRandomly | SmartFarm/src/smartfarm/model/Farm.java:37-49 | the weather moves along the chain to one of its successors |
| Farms.Farm.GetCell | SmartFarm/src/smartfarm/model/Farm.java:64-70 | the lookup succeeds iff the position is in bounds, returning that cell; otherwise the error is "Invalid position" |
| Farms.Farm.PlantCrop | SmartFarm/src/smartfarm/model/Farm.java:72-75 | out of bounds fails with "Invalid position" before touching the grid; a cell's refusal is returned and changes nothing; otherwise only that cell changes; every cell keeps its coordinates |
| Farms.Farm.PlacedKept | SmartFarm/src/smartfarm/model/Farm.java:25-29 | a grid change that keeps every cell's coordinates keeps every cell at the position it was created for |
| Farms.Farm.ApplyWeatherEffects | SmartFarm/src/smartfarm/model/Farm.java:86-96 | every cell becomes Weathered of its old contents, every cell keeps its coordinates, and the trace grows by exactly the weather pass |
| Farms.Farm.WeatherRowPass | SmartFarm/src/smartfarm/model/Farm.java:89-94 | one row's cells are weathered, its occupied cells are traced left to right, and no other row changes |
| Farms.Farm.UpdateDaily | SmartFarm/src/smartfarm/model/Farm.java:77-84 | every cell becomes its own update applied to its weathered contents, every cell keeps its coordinates, and the trace grows by the whole weather pass followed by the whole update pass |
| Farms.Farm.GrowthPass | SmartFarm/src/smartfarm/model/Farm.java:79-83 | every cell is replaced by its own update, and the trace grows by every cell, in row-major order |
| Farms.Farm.UpdateRowPass | SmartFarm/src/smartfarm/model/Farm.java:80-82 | one row's cells are updated and traced left to right, and no other row changes |
| Farms.Farm.InfectRandomCrops | SmartFarm/src/smartfarm/model/Farm.java:98-110 | exactly the occupied cells with a winning draw are infected, the rest are unchanged, and every cell keeps its coordinates; the result is their number, which lies in [0, census] ⊆ [0, rows*cols] |
| Farms.Farm.InfectionPass | SmartFarm/src/smartfarm/model/Farm.java:100-108 | every cell becomes AfterDraw of its old contents and its draw, and the count is the number of infections over the grid |
| Farms.Farm.InfectRow | SmartFarm/src/smartfarm/model/Farm.java:101-107 | one row's cells with a winning draw are infected and counted, and no other row changes |
| Farms.Farm.GetTotalCrops | SmartFarm/src/smartfarm/model/Farm.java:112-120 | the result is the number of occupied cells and lies in [0, rows*cols] |

## Left out

- Integers are unbounded. Java's 32-bit wrap-around is not modelled in `water`, `fertilize`, `adjustHealth`, the nutrient and pest subtractions, or `growthTime * 2` and `growthTime * 3`. No game value comes near the limit.
- A call of `water`, `fertilize` or `adjustHealth` with a negative amount can drive a level below 0, as the source allows. The invariant `Sound` bounds the levels only from above; the floor at 0 holds only right after the daily consumption.
- Every random draw is a parameter instead of `java.util.Random` or `Math.random()`, and the probabilities are not modelled. This covers `shouldChangeWeather` (Farm.java:33-35), the thresholds of `updateWeatherRandomly` and the `probability` of `infectRandomCrops`.
- Farms.Farm.UpdateWeatherRandomly: does not take the integer choice for its fallback branch. The weather type has exactly the five named kinds, so that branch cannot be taken. `getRandomWeather` is modelled on its own as `Farms.RandomWeather`.
- The `Cell` class, the `Weather` subclasses' `applyEffect` and `GameState` are not part of this model. Cell occupancy copies `Cell.isEmpty`: a cell is occupied when it holds a plant whose stage is not Empty. `Cell.infectWithPest` is modelled by `InfectCell`. Everything else about cells and weathers is a function parameter.
- Cells are values in the grid, not shared objects. `Farm.getCell` returns a copy, so aliasing between a returned cell and the grid is not modelled.
- Farms.Farm.UpdateDaily: the nested loop of `updateDaily` is `GrowthPass`, the nested loop of `infectRandomCrops` is `InfectionPass`, and each inner row loop is its own method (`WeatherRowPass`, `UpdateRowPass`, `InfectRow`). The growth step of `Plant.updateDaily` is likewise the method `Grow`. The loops and their order are as in the source.
- Farms.Farm.PlantCrop and Farms.Farm.UpdateDaily require that the opaque cell steps (`Cell.plant`, `Cell.updateDaily`) keep a cell's coordinates, as `Cell` does: its private `row` and `col` are assigned only by its constructor. `Cell` itself is not part of this model, so this is an assumption about it rather than a proved fact.
- Display strings are not modelled: `displayName` is kept but `getInfo` is not, and glyphs are the shape `HarvestGlyph` / `StageGlyph`, not their emoji.
- The getters and setters (`getStage`, `getHealth`, `getRows`, `setCurrentWeather`, …) are not modelled as members. They are direct field reads and writes.
- Wheat and Corn are not part of this model. Any species that overrides neither hook behaves as `Base`.
