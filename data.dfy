/** The score store of src/c/app/data.c: a 2 x 2 table of `int8_t` scores
    indexed by region and time period, the currently selected region, and
    the load progress (how many cells no longer hold the sentinel -1). */
module Data {
  import opened IntTypes

  datatype Region = North | South
  datatype TimePeriod = Morning | Afternoon

  /** One row of the table, the `RegionScores` struct. */
  datatype RegionScores = RegionScores(morning: int8, afternoon: int8)

  /** The whole table as a value: the North row and the South row. */
  datatype Table = Table(north: RegionScores, south: RegionScores)

  datatype Cell = Cell(region: Region, time: TimePeriod)

  /** The sentinel for a cell that has not been loaded yet. */
  const Unloaded: int8 := -1

  const InitialTable: Table := Table(RegionScores(Unloaded, Unloaded), RegionScores(Unloaded, Unloaded))

  /** The four cells in the order get_data_loaded_progress inspects them. */
  const AllCells: seq<Cell> :=
    [Cell(North, Morning), Cell(North, Afternoon), Cell(South, Morning), Cell(South, Afternoon)]

  /** The array index of a region (REGION_NORTH = 0, REGION_SOUTH = 1). */
  function Index(r: Region): (i: nat)
    ensures i < 2
    ensures i == 0 <==> r == North
  {
    match r
    case North => 0
    case South => 1
  }

  function Row(t: Table, r: Region): RegionScores {
    if r == North then t.north else t.south
  }

  function Get(t: Table, r: Region, time: TimePeriod): int8 {
    var row := Row(t, r);
    if time == Morning then row.morning else row.afternoon
  }

  /** The table after one cell is overwritten: that cell holds the new score,
      the other three are as before. */
  function Set(t: Table, r: Region, time: TimePeriod, s: int8): (t': Table)
    ensures Get(t', r, time) == s
    ensures forall r': Region, time': TimePeriod :: (r' != r || time' != time) ==> Get(t', r', time') == Get(t, r', time')
  {
    var row := Row(t, r);
    var row' := if time == Morning then row.(morning := s) else row.(afternoon := s);
    if r == North then t.(north := row') else t.(south := row')
  }

  predicate IsLoaded(t: Table, c: Cell) {
    Get(t, c.region, c.time) != Unloaded
  }

  /** The number of cells in `cells` that hold a loaded score. */
  function CountLoaded(t: Table, cells: seq<Cell>): nat
  {
    if cells == [] then 0
    else (if IsLoaded(t, cells[0]) then 1 else 0) + CountLoaded(t, cells[1..])
  }

  /** Load progress: how many of the four cells are loaded. */
  function Progress(t: Table): (n: nat)
    ensures n <= 4
  {
    CountLoadedBound(t, AllCells);
    CountLoaded(t, AllCells)
  }

  lemma {:induction false} CountLoadedBound(t: Table, cells: seq<Cell>)
    ensures CountLoaded(t, cells) <= |cells|
  {
    if cells != [] {
      CountLoadedBound(t, cells[1..]);
    }
  }

  /** The count reaches the length of the list exactly when every listed cell is loaded. */
  lemma {:induction false} CountLoadedAll(t: Table, cells: seq<Cell>)
    ensures CountLoaded(t, cells) == |cells| <==> forall i :: 0 <= i < |cells| ==> IsLoaded(t, cells[i])
  {
    if cells != [] {
      CountLoadedAll(t, cells[1..]);
      CountLoadedBound(t, cells[1..]);
      assert forall i :: 1 <= i < |cells| ==> cells[i] == cells[1..][i - 1];
    }
  }

  /** Overwriting cell `c` changes the count by the change in that cell's loaded
      status, provided `c` occurs at most once in the list. */
  lemma {:induction false} CountLoadedSet(t: Table, cells: seq<Cell>, c: Cell, s: int8)
    requires forall i, j :: 0 <= i < j < |cells| ==> cells[i] != cells[j]
    ensures var t' := Set(t, c.region, c.time, s);
      CountLoaded(t', cells) ==
        CountLoaded(t, cells)
        + (if c in cells && s != Unloaded then 1 else 0)
        - (if c in cells && IsLoaded(t, c) then 1 else 0)
  {
    if cells != [] {
      var rest := cells[1..];
      assert forall i, j :: 0 <= i < j < |rest| ==> rest[i] != rest[j] by {
        forall i, j | 0 <= i < j < |rest| ensures rest[i] != rest[j] {
          assert rest[i] == cells[i + 1] && rest[j] == cells[j + 1];
        }
      }
      CountLoadedSet(t, rest, c, s);
      assert c in cells <==> c == cells[0] || c in rest;
      if c == cells[0] {
        assert c !in rest by {
          forall j | 0 <= j < |rest| ensures rest[j] != c {
            assert rest[j] == cells[j + 1];
          }
        }
      }
    }
  }

  lemma AllCellsDistinct()
    ensures forall i, j :: 0 <= i < j < |AllCells| ==> AllCells[i] != AllCells[j]
  {
  }

  lemma AllCellsComplete(c: Cell)
    ensures c in AllCells
  {
    match c
    case Cell(North, Morning) => assert AllCells[0] == c;
    case Cell(North, Afternoon) => assert AllCells[1] == c;
    case Cell(South, Morning) => assert AllCells[2] == c;
    case Cell(South, Afternoon) => assert AllCells[3] == c;
  }

  /** Progress counts the four cells one by one, as get_data_loaded_progress does. */
  lemma ProgressByCells(t: Table)
    ensures Progress(t) ==
      (if t.north.morning != Unloaded then 1 else 0) + (if t.north.afternoon != Unloaded then 1 else 0)
      + (if t.south.morning != Unloaded then 1 else 0) + (if t.south.afternoon != Unloaded then 1 else 0)
  {
    var c3 := [Cell(South, Afternoon)];
    var c2 := [Cell(South, Morning)] + c3;
    var c1 := [Cell(North, Afternoon)] + c2;
    assert AllCells == [Cell(North, Morning)] + c1;
    assert c3[1..] == [] && c2[1..] == c3 && c1[1..] == c2 && AllCells[1..] == c1;
    assert CountLoaded(t, c3) == if t.south.afternoon != Unloaded then 1 else 0;
    assert CountLoaded(t, c2) == (if t.south.morning != Unloaded then 1 else 0) + CountLoaded(t, c3);
    assert CountLoaded(t, c1) == (if t.north.afternoon != Unloaded then 1 else 0) + CountLoaded(t, c2);
    assert Progress(t) == (if t.north.morning != Unloaded then 1 else 0) + CountLoaded(t, c1);
  }

  /** The table is fully loaded (progress 4) exactly when no cell holds the sentinel. */
  lemma ProgressFull(t: Table)
    ensures Progress(t) == 4 <==> forall r: Region, time: TimePeriod :: Get(t, r, time) != Unloaded
  {
    CountLoadedAll(t, AllCells);
    if Progress(t) == 4 {
      forall r: Region, time: TimePeriod ensures Get(t, r, time) != Unloaded {
        AllCellsComplete(Cell(r, time));
      }
    }
  }

  /** Writing one cell moves the progress by the change in that cell's loaded status:
      +1 when a sentinel is replaced by a score, -1 when a score is replaced by the
      sentinel, unchanged otherwise. */
  lemma ProgressAfterSet(t: Table, r: Region, time: TimePeriod, s: int8)
    ensures Progress(Set(t, r, time, s)) ==
      Progress(t)
      + (if s != Unloaded then 1 else 0)
      - (if Get(t, r, time) != Unloaded then 1 else 0)
  {
    AllCellsDistinct();
    AllCellsComplete(Cell(r, time));
    CountLoadedSet(t, AllCells, Cell(r, time), s);
  }

  lemma InitialProgress()
    ensures Progress(InitialTable) == 0
    ensures forall r: Region, time: TimePeriod :: Get(InitialTable, r, time) == Unloaded
  {
    ProgressByCells(InitialTable);
  }

  /** The static state of data.c: `s_region_scores` and `s_current_region`. */
  class ScoreStore {
    const scores: array<RegionScores>
    var currentRegion: Region

    ghost predicate Valid()
      reads this
    {
      scores.Length == 2
    }

    /** The table the array holds. */
    ghost function Contents(): Table
      reads this, scores
      requires Valid()
    {
      Table(scores[0], scores[1])
    }

    /** The static initialisers: every cell -1, region North. */
    constructor ()
      ensures Valid() && fresh(scores)
      ensures Contents() == InitialTable
      ensures currentRegion == North
    {
      scores := new RegionScores[2](_ => RegionScores(Unloaded, Unloaded));
      currentRegion := North;
    }

    method GetCurrentRegion() returns (r: Region)
      ensures r == currentRegion
    {
      r := currentRegion;
    }

    /** The `time` cell of the current region, and no other cell. */
    method GetCurrentRegionScore(time: TimePeriod) returns (s: int8)
      requires Valid()
      ensures s == Get(Contents(), currentRegion, time)
    {
      if time == Morning {
        s := scores[Index(currentRegion)].morning;
      } else {
        s := scores[Index(currentRegion)].afternoon;
      }
    }

    method SetRegionScore(region: Region, time: TimePeriod, score: int8)
      requires Valid()
      modifies scores
      ensures Valid()
      ensures Contents() == Set(old(Contents()), region, time, score)
    {
      var i := Index(region);
      if time == Morning {
        scores[i] := scores[i].(morning := score);
      } else {
        scores[i] := scores[i].(afternoon := score);
      }
    }

    /** Only the selector changes; the array is not touched. */
    method SetCurrentRegion(region: Region)
      requires Valid()
      modifies this
      ensures Valid() && currentRegion == region
      ensures Contents() == old(Contents())
    {
      currentRegion := region;
    }

    /** The number of loaded cells, counted one by one. */
    method GetDataLoadedProgress() returns (progress: int)
      requires Valid()
      ensures progress == Progress(Contents())
      ensures 0 <= progress <= 4
    {
      progress := 0;
      if scores[Index(North)].morning != Unloaded {
        progress := progress + 1;
      }
      if scores[Index(North)].afternoon != Unloaded {
        progress := progress + 1;
      }
      if scores[Index(South)].morning != Unloaded {
        progress := progress + 1;
      }
      if scores[Index(South)].afternoon != Unloaded {
        progress := progress + 1;
      }
      ProgressByCells(Contents());
    }
  }
}
