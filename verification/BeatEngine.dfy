/**
 Lookups in a loaded beat grid (`web/src/core/BeatEngine.js`): two binary searches and a forward cursor
 against a plain scan for the last beat at or before a position.
 */
module BeatEngine {
  import opened Collections
  import opened Numbers
  import opened BeatMap

  /** Times never decrease along the grid. */
  ghost predicate Sorted(grid: seq<Beat>) {
    forall i, j :: 0 <= i < j < |grid| ==> grid[i].time <= grid[j].time
  }

  /** The plain scan: index of the last beat at or before the position, -1 if there is none. */
  function LastAt(grid: seq<Beat>, position: real): int {
    if grid == [] then -1
    else if grid[|grid| - 1].time <= position then |grid| - 1
    else LastAt(grid[..|grid| - 1], position)
  }

  /** In a sorted grid the scan is where "at or before" turns into "after". */
  lemma {:induction false} LastAtSplits(grid: seq<Beat>, position: real)
    requires Sorted(grid)
    ensures -1 <= LastAt(grid, position) < |grid|
    ensures forall i :: 0 <= i < |grid| ==> (grid[i].time <= position <==> i <= LastAt(grid, position))
  {
    if grid != [] && grid[|grid| - 1].time > position {
      LastAtSplits(grid[..|grid| - 1], position);
    }
  }

  lemma LastAtIs(grid: seq<Beat>, position: real, k: int)
    requires Sorted(grid) && -1 <= k < |grid|
    requires forall i :: 0 <= i <= k ==> grid[i].time <= position
    requires forall i :: k < i < |grid| ==> grid[i].time > position
    ensures LastAt(grid, position) == k
  {
    LastAtSplits(grid, position);
  }

  lemma LastAtGrows(grid: seq<Beat>, p: real, q: real)
    requires Sorted(grid) && p <= q
    ensures LastAt(grid, p) <= LastAt(grid, q)
  {
    LastAtSplits(grid, p);
    LastAtSplits(grid, q);
  }

  // ---------------------------------------------------------------- the cursor

  /** Cursor fields of the engine: `_gridIndex` and `_lastCustomIndex`. */
  datatype Cursor = Cursor(next: nat, last: int)

  /** Moving past every beat at or before the position. */
  function Advance(grid: seq<Beat>, next: nat, position: real): (r: nat)
    requires next <= |grid|
    ensures next <= r <= |grid|
    decreases |grid| - next
  {
    if next < |grid| && grid[next].time <= position then Advance(grid, next + 1, position) else next
  }

  /** The custom-grid branch of one query: the new cursor and the index emitted, if any. */
  function Query(grid: seq<Beat>, c: Cursor, position: real): (Cursor, Option<nat>)
    requires c.next <= |grid|
  {
    var next := Advance(grid, c.next, position);
    if next > 0 && c.last != next - 1 then (Cursor(next, next - 1), Some(next - 1))
    else (Cursor(next, c.last), None)
  }

  /** Cursor after a series of queries, from the state a load or reset leaves behind. */
  function After(grid: seq<Beat>, positions: seq<real>): (c: Cursor)
    ensures c.next <= |grid|
  {
    if positions == [] then Cursor(0, -1)
    else Query(grid, After(grid, positions[..|positions| - 1]), positions[|positions| - 1]).0
  }

  /** What the k-th query of a series emits. */
  function Emitted(grid: seq<Beat>, positions: seq<real>, k: nat): Option<nat>
    requires k < |positions|
  {
    Query(grid, After(grid, positions[..k]), positions[k]).1
  }

  /** The furthest position asked for. */
  function Furthest(positions: seq<real>): real
    requires positions != []
  {
    if |positions| == 1 then positions[0] else Max(Furthest(positions[..|positions| - 1]), positions[|positions| - 1])
  }

  lemma {:induction false} AdvanceToScan(grid: seq<Beat>, next: nat, position: real)
    requires Sorted(grid) && next <= |grid|
    ensures Advance(grid, next, position) == if LastAt(grid, position) + 1 < next then next else LastAt(grid, position) + 1
    decreases |grid| - next
  {
    LastAtSplits(grid, position);
    if next < |grid| && grid[next].time <= position {
      AdvanceToScan(grid, next + 1, position);
    }
  }

  /**
   Between loads and resets the cursor is the plain scan for the furthest position asked for so far; for
   positions that do not decrease it is therefore the scan for the current position.
   */
  lemma {:induction false} CursorIsScan(grid: seq<Beat>, positions: seq<real>)
    requires Sorted(grid) && positions != []
    ensures After(grid, positions).next == LastAt(grid, Furthest(positions)) + 1
    ensures After(grid, positions).last == After(grid, positions).next - 1
  {
    var before := positions[..|positions| - 1];
    var position := positions[|positions| - 1];
    AdvanceToScan(grid, After(grid, before).next, position);
    LastAtSplits(grid, position);
    if |positions| > 1 {
      CursorIsScan(grid, before);
      LastAtGrows(grid, Furthest(before), Furthest(positions));
      LastAtGrows(grid, position, Furthest(positions));
    }
  }

  lemma {:induction false} FurthestIsLast(positions: seq<real>)
    requires positions != [] && forall i, j :: 0 <= i < j < |positions| ==> positions[i] <= positions[j]
    ensures Furthest(positions) == positions[|positions| - 1]
  {
    if |positions| > 1 {
      FurthestIsLast(positions[..|positions| - 1]);
    }
  }

  /** For positions that do not decrease, a query emits the beat the scan finds, if it was not the last one emitted. */
  lemma ForwardQueriesAgreeWithScan(grid: seq<Beat>, positions: seq<real>)
    requires Sorted(grid) && positions != []
    requires forall i, j :: 0 <= i < j < |positions| ==> positions[i] <= positions[j]
    ensures After(grid, positions).next - 1 == LastAt(grid, positions[|positions| - 1])
  {
    FurthestIsLast(positions);
    CursorIsScan(grid, positions);
  }

  /** An emission names the new cursor position, which lies beyond everything emitted before. */
  lemma EmissionMovesOn(grid: seq<Beat>, positions: seq<real>, k: nat)
    requires Sorted(grid) && k < |positions| && Emitted(grid, positions, k).Some?
    ensures Emitted(grid, positions, k).value + 1 == After(grid, positions[..k + 1]).next
    ensures Emitted(grid, positions, k).value >= After(grid, positions[..k]).next
  {
    var before := positions[..k];
    assert positions[..k + 1][..k] == before;
    if before != [] {
      CursorIsScan(grid, before);
    }
  }

  lemma {:induction false} CursorNeverFalls(grid: seq<Beat>, positions: seq<real>, i: nat, j: nat)
    requires i <= j <= |positions|
    ensures After(grid, positions[..i]).next <= After(grid, positions[..j]).next
  {
    if i < j {
      CursorNeverFalls(grid, positions, i, j - 1);
      assert positions[..j][..j - 1] == positions[..j - 1];
    }
  }

  /** Each beat is emitted at most once, in order, whatever positions are asked for. */
  lemma EmittedOnceInOrder(grid: seq<Beat>, positions: seq<real>, i: nat, j: nat)
    requires Sorted(grid) && i < j < |positions|
    requires Emitted(grid, positions, i).Some? && Emitted(grid, positions, j).Some?
    ensures Emitted(grid, positions, i).value < Emitted(grid, positions, j).value
  {
    EmissionMovesOn(grid, positions, i);
    EmissionMovesOn(grid, positions, j);
    CursorNeverFalls(grid, positions, i + 1, j);
  }

  /** The latest emission of a forward series is the beat the scan finds for the current position. */
  lemma {:induction false} LatestEmissionIsCurrent(grid: seq<Beat>, positions: seq<real>) returns (k: nat)
    requires Sorted(grid) && positions != [] && LastAt(grid, Furthest(positions)) >= 0
    ensures k < |positions| && Emitted(grid, positions, k) == Some(LastAt(grid, Furthest(positions)))
    ensures forall m :: k < m < |positions| ==> Emitted(grid, positions, m).None?
  {
    CursorIsScan(grid, positions);
    var before := positions[..|positions| - 1];
    if Emitted(grid, positions, |positions| - 1).Some? {
      k := |positions| - 1;
    } else {
      NothingNew(grid, positions);
      k := LatestEmissionIsCurrent(grid, before);
      forall m | 0 <= m < |before| ensures Emitted(grid, before, m) == Emitted(grid, positions, m) {
        assert before[..m] == positions[..m];
      }
    }
  }

  /** A query that emits nothing has not moved the cursor. */
  lemma NothingNew(grid: seq<Beat>, positions: seq<real>)
    requires Sorted(grid) && positions != [] && LastAt(grid, Furthest(positions)) >= 0
    requires Emitted(grid, positions, |positions| - 1).None?
    ensures |positions| > 1
    ensures LastAt(grid, Furthest(positions[..|positions| - 1])) == LastAt(grid, Furthest(positions))
  {
    var before := positions[..|positions| - 1];
    CursorIsScan(grid, positions);
    if before != [] {
      CursorIsScan(grid, before);
    }
  }

  // ---------------------------------------------------------------- the engine

  const DEFAULT_INTERVAL := 0.5

  class Engine {
    var customGrid: seq<Beat>   // empty when none is loaded
    var gridIndex: nat
    var lastCustomIndex: int
    var beatInterval: real
    ghost var asked: seq<real>  // positions queried since the last load or reset

    /** The cursor fields are what the queries since the last reset make of them. */
    ghost predicate Valid()
      reads this
    {
      Sorted(customGrid) && Cursor(gridIndex, lastCustomIndex) == After(customGrid, asked)
    }

    constructor ()
      ensures Valid() && customGrid == [] && asked == []
    {
      customGrid, gridIndex, lastCustomIndex, beatInterval, asked := [], 0, -1, DEFAULT_INTERVAL, [];
    }

    /** An empty grid is ignored, cursor included. */
    method LoadBeatGrid(grid: seq<Beat>)
      requires Valid() && Sorted(grid)
      modifies this
      ensures Valid()
      ensures if grid == [] then customGrid == old(customGrid) && asked == old(asked)
              else customGrid == grid && asked == []
    {
      if grid == [] {
        return;
      }
      customGrid, gridIndex, lastCustomIndex, asked := grid, 0, -1, [];
    }

    method ClearBeatGrid()
      modifies this
      ensures Valid() && customGrid == [] && asked == []
    {
      customGrid, gridIndex, lastCustomIndex, asked := [], 0, -1, [];
    }

    method ResetCursor()
      requires Valid()
      modifies this
      ensures Valid() && customGrid == old(customGrid) && asked == []
    {
      gridIndex, lastCustomIndex, asked := 0, -1, [];
    }

    /** The binary search both lookups run. */
    method Search(position: real) returns (found: int)
      requires Valid()
      ensures found == LastAt(customGrid, position)
    {
      var low, high := 0, |customGrid| - 1;
      found := -1;
      while low <= high
        invariant 0 <= low <= high + 1 <= |customGrid|
        invariant found == low - 1
        invariant forall i :: 0 <= i < low ==> customGrid[i].time <= position
        invariant forall i :: high < i < |customGrid| ==> customGrid[i].time > position
        decreases high - low
      {
        var mid := (low + high) / 2;
        if customGrid[mid].time <= position {
          found := mid;
          low := mid + 1;
        } else {
          high := mid - 1;
        }
      }
      LastAtIs(customGrid, position, found);
    }

    method GetSectionEnergyAt(position: real) returns (energy: real)
      requires Valid()
      ensures 0.0 <= energy <= 1.0
      ensures var k := LastAt(customGrid, position);
              -1 <= k < |customGrid| && energy == if k >= 0 then Clamp01(customGrid[k].sectionEnergy) else 0.0
    {
      LastAtSplits(customGrid, position);
      if customGrid == [] {
        return 0.0;
      }
      var found := Search(position);
      energy := if found >= 0 then Clamp01(customGrid[found].sectionEnergy) else 0.0;
    }

    /** The beat an analysed frame is built from, the time since it and to the next one. */
    method GetAnalyzedBeatAt(position: real) returns (r: Option<(nat, real, real)>)
      requires Valid()
      ensures customGrid == [] <==> r.None?
      ensures r.Some? ==>
        var (k, age, interval) := r.value;
        && k < |customGrid|
        && k as int == (if LastAt(customGrid, position) < 0 then 0 else LastAt(customGrid, position))
        && age >= 0.0 && interval >= 0.24
        && (k + 1 == |customGrid| ==> interval == Max(0.24, beatInterval))
        && (k + 1 < |customGrid| ==>
              var gap := customGrid[k + 1].time - customGrid[k].time;
              gap >= 0.0 && interval == Max(0.24, if gap > 0.0 then gap else beatInterval))
        && (LastAt(customGrid, position) >= 0 ==> customGrid[k].time + age == position)
        && (LastAt(customGrid, position) >= 0 && k + 1 < |customGrid| ==> age < customGrid[k + 1].time - customGrid[k].time)
    {
      LastAtSplits(customGrid, position);
      if customGrid == [] {
        return None;
      }
      var found := Search(position);
      var k := if found < 0 then 0 else found;
      var next := if k + 1 < |customGrid| then k + 1 else |customGrid| - 1;
      var gap := customGrid[next].time - customGrid[k].time;
      r := Some((k, Max(0.0, position - customGrid[k].time), Max(0.24, if gap == 0.0 then beatInterval else gap)));
    }

    /** The custom-grid branch of `getBeatAtWithGrid`: the index emitted and the time to the next beat. */
    method GetBeatAtWithGrid(position: real) returns (r: Option<(nat, real)>)
      requires Valid()
      modifies this
      ensures Valid() && customGrid == old(customGrid)
      ensures customGrid != [] ==> asked == old(asked) + [position]
      ensures customGrid == [] ==> asked == old(asked) && r.None?
      ensures customGrid != [] ==>
        (match Emitted(customGrid, asked, |asked| - 1)
         case None => r.None?
         case Some(k) => r.Some? && r.value.0 == k && k < |customGrid|
                         && r.value.1 == if k + 1 < |customGrid| then customGrid[k + 1].time - position else 1.0)
    {
      if customGrid == [] {
        return None;
      }
      ghost var start := gridIndex;
      while gridIndex < |customGrid| && customGrid[gridIndex].time <= position
        invariant gridIndex <= |customGrid| && customGrid == old(customGrid) && asked == old(asked)
        invariant lastCustomIndex == old(lastCustomIndex)
        invariant Advance(customGrid, gridIndex, position) == Advance(customGrid, start, position)
        decreases |customGrid| - gridIndex
      {
        gridIndex := gridIndex + 1;
      }
      asked := asked + [position];
      assert asked[..|asked| - 1] == old(asked);
      if gridIndex > 0 && lastCustomIndex != gridIndex - 1 {
        lastCustomIndex := gridIndex - 1;
        r := Some((gridIndex - 1, if gridIndex < |customGrid| then customGrid[gridIndex].time - position else 1.0));
      } else {
        r := None;
      }
    }
  }

  /** Every grid `BuildBeatMap` produces may be loaded. */
  lemma BuiltGridsAreSorted(beats: seq<Beat>, step: real)
    requires WellSpaced(beats, step) && step > 0.0
    ensures Sorted(beats)
  {
    forall i, j | 0 <= i < j < |beats| ensures beats[i].time <= beats[j].time {
      SpacedBeatsAscend(beats, step, i, j);
    }
  }
}
