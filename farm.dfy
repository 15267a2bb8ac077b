/**
 * The farm: a rows x cols grid of cells and the current weather, with the
 * weather Markov chain, the two-pass daily update, random infection and the
 * crop census.
 *
 * A cell is a value here: its coordinates and the crop it may hold. What a
 * weather does to a crop, how a cell takes a new plant and what a cell does on
 * its own daily update are not part of this model; they are passed in as
 * functions. Every random draw is passed in as a value.
 */
module Farms {
  import opened Plants

  datatype Option<T> = None | Some(value: T)

  /** A GameException and its message. */
  datatype GameException = GameException(message: string)

  datatype Result<T> = Ok(value: T) | Err(error: GameException)

  const InvalidPosition := "Invalid position"

  // ---------------------------------------------------------------- weather

  datatype Weather = Sunny | Rainy | Cloudy | Drought | Storm

  /** The states the chain can move to from each weather. */
  function Successors(w: Weather): set<Weather> {
    match w
    case Rainy => {Cloudy, Rainy}
    case Cloudy => {Sunny, Rainy}
    case Sunny => {Drought, Cloudy}
    case Drought => {Sunny, Drought}
    case Storm => {Rainy}
  }

  /**
   * The transition of updateWeatherRandomly; `coin` says whether the draw fell
   * below the state's threshold. Storm draws nothing. Every weather is one of
   * the five named ones, so the random fallback branch is never taken.
   */
  function NextWeather(w: Weather, coin: bool): (r: Weather)
    ensures r in Successors(w)
    ensures w == Storm ==> r == Rainy
  {
    match w
    case Rainy => if coin then Cloudy else Rainy
    case Cloudy => if coin then Sunny else Rainy
    case Sunny => if coin then Drought else Cloudy
    case Drought => if coin then Sunny else Drought
    case Storm => Rainy
  }

  /** Every successor is reached by some draw, and only successors are. */
  lemma SuccessorsReached(w: Weather, r: Weather)
    ensures r in Successors(w) <==> NextWeather(w, true) == r || NextWeather(w, false) == r
  {
  }

  /** getRandomWeather, given the drawn choice. */
  function RandomWeather(choice: int): (w: Weather)
    ensures choice == 0 || choice < 0 || choice > 4 ==> w == Sunny
    ensures choice == 1 ==> w == Rainy
    ensures choice == 2 ==> w == Cloudy
    ensures choice == 3 ==> w == Drought
    ensures choice == 4 ==> w == Storm
  {
    match choice
    case 0 => Sunny
    case 1 => Rainy
    case 2 => Cloudy
    case 3 => Drought
    case 4 => Storm
    case _ => Sunny
  }

  /** The fallback draw reaches every weather, each from exactly one choice in [0, 5). */
  lemma RandomWeatherCoversAll(w: Weather)
    ensures exists k :: 0 <= k < 5 && RandomWeather(k) == w
    ensures forall a, b :: 0 <= a < 5 && 0 <= b < 5 && RandomWeather(a) == w && RandomWeather(b) == w ==> a == b
  {
    var k := match w
      case Sunny => 0
      case Rainy => 1
      case Cloudy => 2
      case Drought => 3
      case Storm => 4;
    assert RandomWeather(k) == w;
  }

  // ---------------------------------------------------------------- cells

  /** One grid position and the plant it may hold. */
  datatype Cell = Cell(row: int, col: int, plant: Option<Crop>)

  /** Cell.isEmpty() negated: a plant is there and it is not Empty. */
  predicate IsOccupied(c: Cell) {
    c.plant.Some? && c.plant.value.stage != Empty
  }

  function FreshCell(row: int, col: int): Cell {
    Cell(row, col, None)
  }

  /** Cell.infectWithPest(): infects the plant, if there is one. */
  function InfectCell(c: Cell): (r: Cell)
    ensures r.row == c.row && r.col == c.col
    ensures IsOccupied(r) == IsOccupied(c)
    ensures c.plant.Some? ==> r.plant.Some? && r.plant.value.infected
    ensures c.plant.Some? ==> r.plant.value.(infected := c.plant.value.infected) == c.plant.value
    ensures c.plant.None? ==> r == c
  {
    if c.plant.Some? then c.(plant := Some(WithPest(c.plant.value))) else c
  }

  /** The weather pass on one cell: only an occupied cell's plant feels the weather. */
  function Weathered(c: Cell, w: Weather, effect: (Weather, Crop) -> Crop): (r: Cell)
    ensures !IsOccupied(c) ==> r == c
    ensures IsOccupied(c) ==> r.plant == Some(effect(w, c.plant.value))
    ensures r.row == c.row && r.col == c.col
  {
    if IsOccupied(c) then c.(plant := Some(effect(w, c.plant.value))) else c
  }

  /** Cell.plant never moves a cell: a cell that takes a plant keeps its coordinates. */
  ghost predicate PlantingKeepsPlace(plantInto: (Cell, Crop) -> Result<Cell>) {
    forall c, p :: plantInto(c, p).Ok? ==> plantInto(c, p).value.row == c.row && plantInto(c, p).value.col == c.col
  }

  /** Cell.updateDaily never moves a cell. */
  ghost predicate UpdateKeepsPlace(cellDaily: Cell -> Cell) {
    forall c :: cellDaily(c).row == c.row && cellDaily(c).col == c.col
  }

  // ---------------------------------------------------------------- grid snapshots

  /** Every row of the snapshot has `cols` cells. */
  ghost predicate Rectangular(g: seq<seq<Cell>>, cols: nat) {
    forall i :: 0 <= i < |g| ==> |g[i]| == cols
  }

  /** The number of occupied cells among the first `j` of a row. */
  function RowCensus(row: seq<Cell>, j: nat): nat
    requires j <= |row|
  {
    if j == 0 then 0 else RowCensus(row, j - 1) + (if IsOccupied(row[j - 1]) then 1 else 0)
  }

  /** A row's census counts at most its cells. */
  lemma {:induction false} RowCensusBound(row: seq<Cell>, j: nat)
    requires j <= |row|
    ensures RowCensus(row, j) <= j
  {
    if j > 0 {
      RowCensusBound(row, j - 1);
    }
  }

  /** The number of occupied cells in the first `i` rows. */
  function Census(g: seq<seq<Cell>>, i: nat): (n: nat)
    requires i <= |g|
  {
    if i == 0 then 0 else Census(g, i - 1) + RowCensus(g[i - 1], |g[i - 1]|)
  }

  /** The census of a rectangular grid lies in [0, rows * cols]. */
  lemma {:induction false} CensusBound(g: seq<seq<Cell>>, cols: nat, i: nat)
    requires Rectangular(g, cols) && i <= |g|
    ensures Census(g, i) <= i * cols
  {
    if i > 0 {
      CensusBound(g, cols, i - 1);
      RowCensusBound(g[i - 1], cols);
      assert (i - 1) * cols + cols == i * cols;
    }
  }

  /** Does the infection pass infect this cell, given its draw? */
  predicate Hit(c: Cell, roll: bool) {
    IsOccupied(c) && roll
  }

  /** A cell after the infection pass, given its draw. */
  function AfterDraw(c: Cell, roll: bool): (r: Cell)
    ensures Hit(c, roll) ==> r == InfectCell(c)
    ensures !Hit(c, roll) ==> r == c
    ensures IsOccupied(r) == IsOccupied(c)
    ensures r.row == c.row && r.col == c.col
  {
    if Hit(c, roll) then InfectCell(c) else c
  }

  /** One draw per cell, laid out like the grid. */
  ghost predicate Fits(rolls: seq<seq<bool>>, g: seq<seq<Cell>>) {
    |rolls| == |g| && forall i :: 0 <= i < |g| ==> |rolls[i]| == |g[i]|
  }

  /** How many of the first `j` cells of a row the infection pass infects. */
  function RowInfections(row: seq<Cell>, rolls: seq<bool>, j: nat): nat
    requires j <= |row| && j <= |rolls|
  {
    if j == 0 then 0
    else RowInfections(row, rolls, j - 1) + (if Hit(row[j - 1], rolls[j - 1]) then 1 else 0)
  }

  /** How many cells of the first `i` rows the infection pass infects. */
  function Infections(g: seq<seq<Cell>>, rolls: seq<seq<bool>>, i: nat): nat
    requires Fits(rolls, g) && i <= |g|
  {
    if i == 0 then 0
    else Infections(g, rolls, i - 1) + RowInfections(g[i - 1], rolls[i - 1], |g[i - 1]|)
  }

  /** Only occupied cells are infected: a row's infections never exceed its census. */
  lemma {:induction false} RowInfectionsBound(row: seq<Cell>, rolls: seq<bool>, j: nat)
    requires j <= |row| && j <= |rolls|
    ensures RowInfections(row, rolls, j) <= RowCensus(row, j)
  {
    if j > 0 {
      RowInfectionsBound(row, rolls, j - 1);
    }
  }

  /** The infection pass infects at most as many cells as the census counts. */
  lemma {:induction false} InfectionsBound(g: seq<seq<Cell>>, rolls: seq<seq<bool>>, i: nat)
    requires Fits(rolls, g) && i <= |g|
    ensures Infections(g, rolls, i) <= Census(g, i)
  {
    if i > 0 {
      InfectionsBound(g, rolls, i - 1);
      RowInfectionsBound(g[i - 1], rolls[i - 1], |g[i - 1]|);
    }
  }

  /** Two snapshots of the same shape that agree cell by cell are equal. */
  lemma SameGrid(g: seq<seq<Cell>>, h: seq<seq<Cell>>, cols: nat)
    requires |g| == |h| && Rectangular(g, cols) && Rectangular(h, cols)
    requires forall i, j :: 0 <= i < |g| && 0 <= j < cols ==> g[i][j] == h[i][j]
    ensures g == h
  {
    forall i | 0 <= i < |g| ensures g[i] == h[i] {
      assert g[i] == h[i];
    }
  }

  // ---------------------------------------------------------------- the visit trace

  /** One call made during the daily update: a weather effect on a cell's plant, or a cell's own update. */
  datatype Visit = WeatherEffect(row: int, col: int) | CellUpdate(row: int, col: int)

  /** Row-major order on positions. */
  predicate Precedes(a: Visit, b: Visit) {
    a.row < b.row || (a.row == b.row && a.col < b.col)
  }

  /** The weather pass over the first `j` cells of row `i`: one visit per occupied cell, left to right. */
  function WeatherRow(row: seq<Cell>, i: int, j: nat): seq<Visit>
    requires j <= |row|
  {
    if j == 0 then []
    else WeatherRow(row, i, j - 1) + (if IsOccupied(row[j - 1]) then [WeatherEffect(i, j - 1)] else [])
  }

  /** The weather pass over the first `i` rows, in row-major order. */
  function WeatherPass(g: seq<seq<Cell>>, i: nat): seq<Visit>
    requires i <= |g|
  {
    if i == 0 then [] else WeatherPass(g, i - 1) + WeatherRow(g[i - 1], i - 1, |g[i - 1]|)
  }

  /** A row's weather visits: exactly its occupied cells, left to right, as many as the row census. */
  lemma {:induction false} WeatherRowExact(row: seq<Cell>, i: int, j: nat)
    requires j <= |row|
    ensures var s := WeatherRow(row, i, j);
            && (forall v :: v in s <==> v.WeatherEffect? && v.row == i && 0 <= v.col < j && IsOccupied(row[v.col]))
            && (forall a, b :: 0 <= a < b < |s| ==> Precedes(s[a], s[b]))
            && |s| == RowCensus(row, j)
  {
    if j > 0 {
      WeatherRowExact(row, i, j - 1);
    }
  }

  /** The weather pass: exactly the occupied cells, in row-major order, as many as the census. */
  lemma {:induction false} WeatherPassExact(g: seq<seq<Cell>>, i: nat)
    requires i <= |g|
    ensures var s := WeatherPass(g, i);
            && (forall v :: v in s <==>
                 v.WeatherEffect? && 0 <= v.row < i && 0 <= v.col < |g[v.row]| && IsOccupied(g[v.row][v.col]))
            && (forall a, b :: 0 <= a < b < |s| ==> Precedes(s[a], s[b]))
            && |s| == Census(g, i)
  {
    if i > 0 {
      WeatherPassExact(g, i - 1);
      var s := WeatherPass(g, i - 1);
      var t := WeatherRow(g[i - 1], i - 1, |g[i - 1]|);
      WeatherRowExact(g[i - 1], i - 1, |g[i - 1]|);
      assert WeatherPass(g, i) == s + t;
      forall a, b | 0 <= a < |s| && 0 <= b < |t| ensures Precedes(s[a], t[b]) {
        assert s[a] in s;
        assert t[b] in t;
      }
    }
  }

  /** The update pass over the first `j` cells of row `i`. */
  function UpdateRow(i: int, j: nat): (s: seq<Visit>)
    ensures |s| == j
  {
    if j == 0 then [] else UpdateRow(i, j - 1) + [CellUpdate(i, j - 1)]
  }

  /** The update pass over the first `i` rows: every cell, in row-major order. */
  function UpdatePass(i: nat, cols: nat): seq<Visit> {
    if i == 0 then [] else UpdatePass(i - 1, cols) + UpdateRow(i - 1, cols)
  }

  /** Row `i`'s update visits are its cells, left to right. */
  lemma {:induction false} UpdateRowAt(i: int, j: nat, k: nat)
    requires k < j
    ensures UpdateRow(i, j)[k] == CellUpdate(i, k)
  {
    if k < j - 1 {
      UpdateRowAt(i, j - 1, k);
    }
  }

  /** The update pass visits rows * cols cells, and only makes cell updates. */
  lemma {:induction false} UpdatePassShape(i: nat, cols: nat)
    ensures |UpdatePass(i, cols)| == i * cols
    ensures forall v :: v in UpdatePass(i, cols) ==> v.CellUpdate?
  {
    if i > 0 {
      UpdatePassShape(i - 1, cols);
      assert (i - 1) * cols + cols == i * cols;
      forall v | v in UpdateRow(i - 1, cols) ensures v.CellUpdate? {
        var k :| 0 <= k < cols && UpdateRow(i - 1, cols)[k] == v;
        UpdateRowAt(i - 1, cols, k);
      }
    }
  }

  /** Cell (r, c) is updated at position r * cols + c of the update pass. */
  lemma {:induction false} UpdatePassRowMajor(rows: nat, cols: nat, r: nat, c: nat)
    requires r < rows && c < cols
    ensures r * cols + c < |UpdatePass(rows, cols)|
    ensures UpdatePass(rows, cols)[r * cols + c] == CellUpdate(r, c)
  {
    var s := UpdatePass(rows - 1, cols);
    assert UpdatePass(rows, cols) == s + UpdateRow(rows - 1, cols);
    UpdatePassShape(rows - 1, cols);
    UpdatePassShape(rows, cols);
    if r == rows - 1 {
      assert r * cols + c == |s| + c;
      UpdateRowAt(r, cols, c);
    } else {
      UpdatePassRowMajor(rows - 1, cols, r, c);
      assert r * cols + c < (rows - 1) * cols by {
        assert r * cols + c < r * cols + cols == (r + 1) * cols;
        assert (r + 1) * cols <= (rows - 1) * cols;
      }
    }
  }

  /** Everything one daily update calls, in order. */
  function DaySchedule(g: seq<seq<Cell>>, cols: nat): seq<Visit> {
    WeatherPass(g, |g|) + UpdatePass(|g|, cols)
  }

  /** Every weather effect of a day comes before every cell update of that day. */
  lemma WeatherBeforeUpdates(g: seq<seq<Cell>>, cols: nat)
    ensures var s := DaySchedule(g, cols);
            forall a, b :: 0 <= a < b < |s| && s[a].CellUpdate? ==> s[b].CellUpdate?
    ensures var s := DaySchedule(g, cols);
            forall k :: 0 <= k < |s| ==> (s[k].WeatherEffect? <==> k < Census(g, |g|))
  {
    var w := WeatherPass(g, |g|);
    var u := UpdatePass(|g|, cols);
    var s := w + u;
    WeatherPassExact(g, |g|);
    UpdatePassShape(|g|, cols);
    forall k | 0 <= k < |s| ensures s[k].WeatherEffect? <==> k < |w| {
      if k < |w| {
        assert s[k] == w[k] && w[k] in w;
      } else {
        assert s[k] == u[k - |w|] && u[k - |w|] in u;
      }
    }
  }

  // ---------------------------------------------------------------- the farm

  class Farm {
    const rows: nat
    const cols: nat
    const grid: array2<Cell>
    var weather: Weather
    /** Every weather effect and cell update made by UpdateDaily so far, in order. */
    ghost var trace: seq<Visit>

    ghost predicate Valid() {
      grid.Length0 == rows && grid.Length1 == cols
    }

    /** Every cell knows its own position, as the constructor sets it up. */
    ghost predicate Placed()
      requires Valid()
      reads grid
    {
      forall i, j :: 0 <= i < rows && 0 <= j < cols ==> grid[i, j].row == i && grid[i, j].col == j
    }

    /** The grid's contents as a value. */
    ghost function Cells(): (g: seq<seq<Cell>>)
      requires Valid()
      reads grid
      ensures |g| == rows && Rectangular(g, cols)
      ensures forall i, j :: 0 <= i < rows && 0 <= j < cols ==> g[i][j] == grid[i, j]
    {
      seq(grid.Length0, i requires 0 <= i < grid.Length0 reads grid =>
        seq(grid.Length1, j requires 0 <= j < grid.Length1 reads grid => grid[i, j]))
    }

    predicate InBounds(row: int, col: int) {
      0 <= row < rows && 0 <= col < cols
    }

    /** Farm(rows, cols): every cell is fresh and knows its own coordinates; the weather starts Sunny. */
    constructor (rows: nat, cols: nat)
      ensures this.rows == rows && this.cols == cols && Valid() && fresh(grid)
      ensures weather == Sunny && trace == []
      ensures forall i, j :: 0 <= i < rows && 0 <= j < cols ==> grid[i, j] == FreshCell(i, j)
      ensures Placed()
    {
      this.rows := rows;
      this.cols := cols;
      var g := new Cell[rows, cols];
      var i := 0;
      while i < rows
        invariant 0 <= i <= rows
        invariant forall r, c :: 0 <= r < i && 0 <= c < cols ==> g[r, c] == FreshCell(r, c)
      {
        var j := 0;
        while j < cols
          invariant 0 <= j <= cols
          invariant forall r, c :: 0 <= r < i && 0 <= c < cols ==> g[r, c] == FreshCell(r, c)
          invariant forall c :: 0 <= c < j ==> g[i, c] == FreshCell(i, c)
        {
          g[i, j] := FreshCell(i, j);
          j := j + 1;
        }
        i := i + 1;
      }
      this.grid := g;
      weather := Sunny;
      trace := [];
    }

    /** updateWeatherRandomly(), with the draw supplied. */
    method UpdateWeatherRandomly(coin: bool)
      modifies this`weather
      ensures weather == NextWeather(old(weather), coin)
      ensures weather in Successors(old(weather))
    {
      weather := NextWeather(weather, coin);
    }

    /** getCell(row, col): a bounds-checked lookup. */
    function GetCell(row: int, col: int): (r: Result<Cell>)
      requires Valid()
      reads grid
      ensures r.Ok? <==> InBounds(row, col)
      ensures r.Ok? ==> r.value == grid[row, col]
      ensures r.Err? ==> r.error == GameException(InvalidPosition)
    {
      if row < 0 || row >= rows || col < 0 || col >= cols then Err(GameException(InvalidPosition))
      else Ok(grid[row, col])
    }

    /**
     * plantCrop(row, col, plant): the bounds check comes first; then the cell
     * either takes the plant or refuses it, and a refusal changes nothing.
     */
    method PlantCrop(row: int, col: int, plant: Crop, plantInto: (Cell, Crop) -> Result<Cell>)
      returns (r: Result<()>)
      requires Valid() && PlantingKeepsPlace(plantInto)
      modifies grid
      ensures old(Placed()) ==> Placed()
      ensures !InBounds(row, col) ==> r == Err(GameException(InvalidPosition)) && unchanged(grid)
      ensures InBounds(row, col) && plantInto(old(grid[row, col]), plant).Err? ==>
                r == Err(plantInto(old(grid[row, col]), plant).error) && unchanged(grid)
      ensures InBounds(row, col) && plantInto(old(grid[row, col]), plant).Ok? ==>
                && r == Ok(())
                && grid[row, col] == plantInto(old(grid[row, col]), plant).value
                && forall i, j :: InBounds(i, j) && (i, j) != (row, col) ==> grid[i, j] == old(grid[i, j])
    {
      var cell := GetCell(row, col);
      if cell.Err? {
        return Err(cell.error);
      }
      var placed := plantInto(cell.value, plant);
      if placed.Err? {
        return Err(placed.error);
      }
      grid[row, col] := placed.value;
      return Ok(());
    }

    /** A grid update that keeps every cell's coordinates keeps every cell in its place. */
    twostate lemma PlacedKept()
      requires Valid()
      requires forall i, j :: InBounds(i, j) ==> grid[i, j].row == old(grid[i, j]).row && grid[i, j].col == old(grid[i, j]).col
      ensures old(Placed()) ==> Placed()
    {
    }

    /** The grid's contents as a value, known cell by cell. */
    ghost method Snapshot() returns (g: seq<seq<Cell>>)
      requires Valid()
      ensures |g| == rows && Rectangular(g, cols)
      ensures forall i, j :: InBounds(i, j) ==> g[i][j] == grid[i, j]
    {
      g := Cells();
    }

    /** applyWeatherEffects(): the current weather acts on every occupied cell, row by row. */
    method ApplyWeatherEffects(effect: (Weather, Crop) -> Crop)
      requires Valid()
      modifies grid, this`trace
      ensures old(Placed()) ==> Placed()
      ensures trace == old(trace) + WeatherPass(old(Cells()), rows)
      ensures forall i, j :: InBounds(i, j) ==> grid[i, j] == Weathered(old(grid[i, j]), weather, effect)
    {
      ghost var g0 := Snapshot();
      var i := 0;
      while i < rows
        invariant 0 <= i <= rows
        invariant trace == old(trace) + WeatherPass(g0, i)
        invariant forall r, c :: 0 <= r < i && 0 <= c < cols ==> grid[r, c] == Weathered(old(grid[r, c]), weather, effect)
        invariant forall r, c :: i <= r < rows && 0 <= c < cols ==> grid[r, c] == old(grid[r, c])
      {
        WeatherRowPass(i, effect, g0[i]);
        assert WeatherPass(g0, i + 1) == WeatherPass(g0, i) + WeatherRow(g0[i], i, cols);
        i := i + 1;
      }
      SameGrid(g0, old(Cells()), cols);
      PlacedKept();
    }

    /** The inner loop of applyWeatherEffects over row `i`, whose cells are `row`. */
    method WeatherRowPass(i: nat, effect: (Weather, Crop) -> Crop, ghost row: seq<Cell>)
      requires Valid() && i < rows
      requires |row| == cols && forall c :: 0 <= c < cols ==> row[c] == grid[i, c]
      modifies grid, this`trace
      ensures trace == old(trace) + WeatherRow(row, i, cols)
      ensures forall c :: 0 <= c < cols ==> grid[i, c] == Weathered(row[c], weather, effect)
      ensures forall r, c :: InBounds(r, c) && r != i ==> grid[r, c] == old(grid[r, c])
    {
      var j := 0;
      while j < cols
        invariant 0 <= j <= cols
        invariant trace == old(trace) + WeatherRow(row, i, j)
        invariant forall c :: 0 <= c < j ==> grid[i, c] == Weathered(row[c], weather, effect)
        invariant forall c :: j <= c < cols ==> grid[i, c] == row[c]
        invariant forall r, c :: InBounds(r, c) && r != i ==> grid[r, c] == old(grid[r, c])
      {
        var cell := grid[i, j];
        if IsOccupied(cell) {
          grid[i, j] := cell.(plant := Some(effect(weather, cell.plant.value)));
          trace := trace + [WeatherEffect(i, j)];
        }
        j := j + 1;
      }
    }

    /**
     * updateDaily(): first the whole weather pass, then every cell's own
     * update (`cellDaily`) in row-major order.
     */
    method UpdateDaily(effect: (Weather, Crop) -> Crop, cellDaily: Cell -> Cell)
      requires Valid() && UpdateKeepsPlace(cellDaily)
      modifies grid, this`trace
      ensures old(Placed()) ==> Placed()
      ensures trace == old(trace) + DaySchedule(old(Cells()), cols)
      ensures forall i, j :: InBounds(i, j) ==>
        grid[i, j] == cellDaily(Weathered(old(grid[i, j]), weather, effect))
    {
      ApplyWeatherEffects(effect);
      GrowthPass(cellDaily);
    }

    /** The second loop of updateDaily(): every cell's own update, in row-major order. */
    method GrowthPass(cellDaily: Cell -> Cell)
      requires Valid() && UpdateKeepsPlace(cellDaily)
      modifies grid, this`trace
      ensures old(Placed()) ==> Placed()
      ensures trace == old(trace) + UpdatePass(rows, cols)
      ensures forall i, j :: InBounds(i, j) ==> grid[i, j] == cellDaily(old(grid[i, j]))
    {
      var i := 0;
      while i < rows
        invariant 0 <= i <= rows
        invariant trace == old(trace) + UpdatePass(i, cols)
        invariant forall r, c :: 0 <= r < i && 0 <= c < cols ==> grid[r, c] == cellDaily(old(grid[r, c]))
        invariant forall r, c :: i <= r < rows && 0 <= c < cols ==> grid[r, c] == old(grid[r, c])
      {
        UpdateRowPass(i, cellDaily);
        assert UpdatePass(i + 1, cols) == UpdatePass(i, cols) + UpdateRow(i, cols);
        i := i + 1;
      }
      PlacedKept();
    }

    /** The inner loop of updateDaily's second pass over row `i`. */
    method UpdateRowPass(i: nat, cellDaily: Cell -> Cell)
      requires Valid() && i < rows
      modifies grid, this`trace
      ensures trace == old(trace) + UpdateRow(i, cols)
      ensures forall c :: 0 <= c < cols ==> grid[i, c] == cellDaily(old(grid[i, c]))
      ensures forall r, c :: InBounds(r, c) && r != i ==> grid[r, c] == old(grid[r, c])
    {
      var j := 0;
      while j < cols
        invariant 0 <= j <= cols
        invariant trace == old(trace) + UpdateRow(i, j)
        invariant forall c :: 0 <= c < j ==> grid[i, c] == cellDaily(old(grid[i, c]))
        invariant forall c :: j <= c < cols ==> grid[i, c] == old(grid[i, c])
        invariant forall r, c :: InBounds(r, c) && r != i ==> grid[r, c] == old(grid[r, c])
      {
        grid[i, j] := cellDaily(grid[i, j]);
        trace := trace + [CellUpdate(i, j)];
        j := j + 1;
      }
    }

    /**
     * infectRandomCrops(probability), with the per-cell draws supplied
     * (rolls[i][j] is whether cell (i, j)'s draw fell below the probability):
     * infects exactly the occupied cells whose draw came up, and counts them.
     */
    method InfectRandomCrops(rolls: seq<seq<bool>>) returns (infected: int)
      requires Valid()
      requires |rolls| == rows && forall i :: 0 <= i < rows ==> |rolls[i]| == cols
      modifies grid
      ensures old(Placed()) ==> Placed()
      ensures infected == Infections(old(Cells()), rolls, rows)
      ensures 0 <= infected <= Census(old(Cells()), rows) <= rows * cols
      ensures forall i, j :: InBounds(i, j) ==>
        grid[i, j] == AfterDraw(old(grid[i, j]), rolls[i][j])
    {
      ghost var g0 := Cells();
      infected := InfectionPass(rolls, g0);
      PlacedKept();
      CensusBound(g0, cols, rows);
      InfectionsBound(g0, rolls, rows);
    }

    /** The nested loop of infectRandomCrops, over a grid whose cells are `g0`. */
    method InfectionPass(rolls: seq<seq<bool>>, ghost g0: seq<seq<Cell>>) returns (infected: int)
      requires Valid()
      requires |rolls| == rows && forall i :: 0 <= i < rows ==> |rolls[i]| == cols
      requires |g0| == rows && Rectangular(g0, cols)
      requires forall r, c :: InBounds(r, c) ==> g0[r][c] == grid[r, c]
      modifies grid
      ensures infected == Infections(g0, rolls, rows)
      ensures forall i, j :: InBounds(i, j) ==>
        grid[i, j] == AfterDraw(old(grid[i, j]), rolls[i][j])
    {
      infected := 0;
      var i := 0;
      while i < rows
        invariant 0 <= i <= rows
        invariant infected == Infections(g0, rolls, i)
        invariant forall r, c :: 0 <= r < i && 0 <= c < cols ==>
          grid[r, c] == AfterDraw(old(grid[r, c]), rolls[r][c])
        invariant forall r, c :: i <= r < rows && 0 <= c < cols ==> grid[r, c] == old(grid[r, c])
      {
        var n := InfectRow(i, rolls[i], g0[i]);
        infected := infected + n;
        i := i + 1;
      }
    }

    /** The inner loop of infectRandomCrops over row `i`. */
    method InfectRow(i: nat, rolls: seq<bool>, ghost row: seq<Cell>) returns (n: nat)
      requires Valid() && i < rows && |rolls| == cols
      requires |row| == cols && forall c :: 0 <= c < cols ==> row[c] == grid[i, c]
      modifies grid
      ensures n == RowInfections(row, rolls, cols)
      ensures forall c :: 0 <= c < cols ==>
        grid[i, c] == AfterDraw(old(grid[i, c]), rolls[c])
      ensures forall r, c :: InBounds(r, c) && r != i ==> grid[r, c] == old(grid[r, c])
    {
      n := 0;
      var j := 0;
      while j < cols
        invariant 0 <= j <= cols
        invariant n == RowInfections(row, rolls, j)
        invariant forall c :: 0 <= c < j ==>
          grid[i, c] == AfterDraw(old(grid[i, c]), rolls[c])
        invariant forall c :: j <= c < cols ==> grid[i, c] == old(grid[i, c])
        invariant forall r, c :: InBounds(r, c) && r != i ==> grid[r, c] == old(grid[r, c])
      {
        if IsOccupied(grid[i, j]) && rolls[j] {
          grid[i, j] := InfectCell(grid[i, j]);
          n := n + 1;
        }
        j := j + 1;
      }
    }

    /** getTotalCrops(): the number of occupied cells. */
    method GetTotalCrops() returns (count: int)
      requires Valid()
      ensures count == Census(Cells(), rows)
      ensures 0 <= count <= rows * cols
    {
      ghost var g := Cells();
      CensusBound(g, cols, rows);
      count := 0;
      var i := 0;
      while i < rows
        invariant 0 <= i <= rows
        invariant count == Census(g, i)
      {
        var j := 0;
        while j < cols
          invariant 0 <= j <= cols
          invariant count == Census(g, i) + RowCensus(g[i], j)
        {
          if IsOccupied(grid[i, j]) {
            count := count + 1;
          }
          j := j + 1;
        }
        i := i + 1;
      }
    }
  }
}
