/** The tile grid of backend/logic/maze.go: map construction, walkability,
    spawn-cell choice and the cell-by-cell line-of-sight traversal. */
module Maze {
  import opened Geometry

  const TileEmpty: int := 0
  const TileWall: int := 1

  /** A grid cell, addressed by column x and row y. */
  datatype Cell = Cell(x: int, y: int)

  /** Two cells that share an edge: one step along exactly one axis. */
  predicate Adjacent(a: Cell, b: Cell) {
    (a.x == b.x && (a.y - b.y == 1 || b.y - a.y == 1)) ||
    (a.y == b.y && (a.x - b.x == 1 || b.x - a.x == 1))
  }

  /** The map: `tiles[y][x]` is the tile in column x of row y. */
  datatype GameMap = GameMap(width: int, height: int, tiles: seq<seq<int>>) {

    /** Height rows of Width tiles each. */
    predicate Valid() {
      0 <= width && 0 <= height && |tiles| == height &&
      forall y :: 0 <= y < height ==> |tiles[y]| == width
    }

    predicate InGrid(x: int, y: int) {
      0 <= x < width && 0 <= y < height
    }

    predicate OnBorder(x: int, y: int) {
      x == 0 || x == width - 1 || y == 0 || y == height - 1
    }

    function Tile(x: int, y: int): int
      requires Valid() && InGrid(x, y)
    {
      tiles[y][x]
    }

    predicate IsWall(x: int, y: int)
      requires Valid() && InGrid(x, y)
    {
      Tile(x, y) == TileWall
    }

    /** Every border cell is a wall. */
    ghost predicate Bordered()
      requires Valid()
    {
      forall x, y :: InGrid(x, y) && OnBorder(x, y) ==> Tile(x, y) == TileWall
    }

    /** Every tile is TileEmpty or TileWall. */
    ghost predicate TilesBinary()
      requires Valid()
    {
      forall x, y :: InGrid(x, y) ==> Tile(x, y) == TileEmpty || Tile(x, y) == TileWall
    }

    /** An empty cell away from the border: where GetRandomSpawnPos may land. */
    predicate OpenInterior(x: int, y: int)
      requires Valid()
    {
      1 <= x <= width - 2 && 1 <= y <= height - 2 && Tile(x, y) == TileEmpty
    }
  }

  /** What NewGameMap writes at one cell: the border is wall, an interior tile
      is wall or empty, never wall when density <= 0 and always wall when
      density >= 1 (the random draw lies in [0, 1)). */
  predicate GeneratedTile(t: int, x: int, y: int, width: int, height: int, density: real) {
    var border := x == 0 || x == width - 1 || y == 0 || y == height - 1;
    (t == TileEmpty || t == TileWall) &&
    (border ==> t == TileWall) &&
    (!border && density <= 0.0 ==> t == TileEmpty) &&
    (!border && density >= 1.0 ==> t == TileWall)
  }

  /** NewGameMap: Height rows of Width tiles, border walls, random interior.
      The random draw for each interior cell is a nondeterministic value in [0, 1). */
  method NewGameMap(width: int, height: int, density: real) returns (m: GameMap)
    requires width >= 0 && height >= 0
    ensures m.width == width && m.height == height && m.Valid()
    ensures forall x, y :: m.InGrid(x, y) ==> GeneratedTile(m.Tile(x, y), x, y, width, height, density)
    ensures m.Bordered() && m.TilesBinary()
  {
    var tiles: seq<seq<int>> := [];
    var y := 0;
    while y < height
      invariant 0 <= y <= height
      invariant |tiles| == y
      invariant forall j :: 0 <= j < y ==> |tiles[j]| == width
      invariant forall i, j :: 0 <= j < y && 0 <= i < width ==>
                  GeneratedTile(tiles[j][i], i, j, width, height, density)
    {
      var row: seq<int> := [];
      var x := 0;
      while x < width
        invariant 0 <= x <= width
        invariant |row| == x
        invariant forall i :: 0 <= i < x ==> GeneratedTile(row[i], i, y, width, height, density)
      {
        if x == 0 || x == width - 1 || y == 0 || y == height - 1 {
          row := row + [TileWall];
        } else {
          var draw: real :| 0.0 <= draw < 1.0;
          if draw < density {
            row := row + [TileWall];
          } else {
            row := row + [TileEmpty];
          }
        }
        x := x + 1;
      }
      tiles := tiles + [row];
      y := y + 1;
    }
    m := GameMap(width, height, tiles);
  }

  /** IsWalkable: the cell under (x, y), found by truncating both coordinates,
      is inside the grid and empty. */
  predicate IsWalkable(m: GameMap, x: real, y: real)
    requires m.Valid()
    ensures IsWalkable(m, x, y) ==> -1.0 < x < m.width as real && -1.0 < y < m.height as real
  {
    TruncBounds(x);
    TruncBounds(y);
    var gx, gy := Trunc(x), Trunc(y);
    m.InGrid(gx, gy) && m.Tile(gx, gy) == TileEmpty
  }

  /** Sampling a cell at its centre, as the collision scan does, reads exactly
      that cell's tile; outside the grid nothing is walkable. */
  lemma WalkableAtCellCentre(m: GameMap, x: int, y: int)
    requires m.Valid() && x >= 0 && y >= 0
    ensures IsWalkable(m, x as real + 0.5, y as real + 0.5) <==> m.InGrid(x, y) && m.Tile(x, y) == TileEmpty
  {
    assert Trunc(x as real + 0.5) == x;
    assert Trunc(y as real + 0.5) == y;
  }

  /** Because the border is all wall, a walkable point lies strictly inside the
      border ring; in particular no negative coordinate is walkable, even those
      in (-1, 0) that truncate to column or row 0. */
  lemma WalkableInsideBorder(m: GameMap, x: real, y: real)
    requires m.Valid() && m.Bordered()
    requires IsWalkable(m, x, y)
    ensures 1.0 <= x < (m.width - 1) as real
    ensures 1.0 <= y < (m.height - 1) as real
  {
    var gx, gy := Trunc(x), Trunc(y);
    assert !m.OnBorder(gx, gy);
    assert 1 <= gx <= m.width - 2 && 1 <= gy <= m.height - 2;
  }

  ghost predicate HasOpenInterior(m: GameMap)
    requires m.Valid()
  {
    exists x, y :: m.OpenInterior(x, y)
  }

  /** GetRandomSpawnPos: the centre of a random empty interior cell.  The retry
      loop is modelled by its outcome (a nondeterministic empty cell); it loops
      forever when there is none, so such maps are excluded. */
  method GetRandomSpawnPos(m: GameMap) returns (p: Vec2)
    requires m.Valid() && HasOpenInterior(m)
    ensures exists x, y :: m.OpenInterior(x, y) && p == Vec2(x as real + 0.5, y as real + 0.5)
    ensures IsWalkable(m, p.x, p.y)
  {
    var x, y :| 1 <= x <= m.width - 2 && 1 <= y <= m.height - 2 && m.Tile(x, y) == TileEmpty;
    p := Vec2(x as real + 0.5, y as real + 0.5);
    assert m.OpenInterior(x, y);
    WalkableAtCellCentre(m, x, y);
  }

  // ---------------------------------------------------------------------------
  // Line of sight

  /** The traversal state of HasLineOfSight: the current cell, the step signs,
      and the ray parameters at which the next vertical (tMaxX) and horizontal
      (tMaxY) grid lines are crossed. */
  datatype Cursor = Cursor(x: int, y: int, stepX: int, stepY: int,
                           tMaxX: Ext, tMaxY: Ext, tDeltaX: Ext, tDeltaY: Ext)
  {
    function Here(): Cell { Cell(x, y) }

    /** Steps are unit or zero, a finite tMax goes with a nonzero step, and the
        ray moves along at least one axis. */
    predicate Ok() {
      -1 <= stepX <= 1 && -1 <= stepY <= 1 &&
      (stepX != 0 <==> tMaxX.Fin?) && (stepX != 0 ==> tDeltaX.Fin?) &&
      (stepY != 0 <==> tMaxY.Fin?) && (stepY != 0 ==> tDeltaY.Fin?) &&
      (stepX != 0 || stepY != 0)
    }
  }

  /** One loop iteration's move: cross whichever grid line comes first. */
  function Advance(c: Cursor): Cursor {
    if ExtLess(c.tMaxX, c.tMaxY) then
      c.(x := c.x + c.stepX, tMaxX := ExtAdd(c.tMaxX, c.tDeltaX))
    else
      c.(y := c.y + c.stepY, tMaxY := ExtAdd(c.tMaxY, c.tDeltaY))
  }

  /** Each iteration moves exactly one cell along exactly one axis. */
  lemma AdvanceMovesOneCell(c: Cursor)
    requires c.Ok()
    ensures Advance(c).Ok()
    ensures Adjacent(c.Here(), Advance(c).Here())
  {
  }

  /** Where the traversal stops on entering a cell. */
  predicate Blocks(m: GameMap, n: Cell)
    requires m.Valid()
  {
    !m.InGrid(n.x, n.y) || m.IsWall(n.x, n.y)
  }

  /** The remaining `fuel` iterations of the loop, from cursor c: true when the
      end cell is entered before an out-of-grid cell or a wall. */
  function Walk(m: GameMap, c: Cursor, end: Cell, fuel: nat): bool
    requires m.Valid()
    decreases fuel
  {
    if fuel == 0 then false
    else
      var n := Advance(c);
      if Blocks(m, n.Here()) then false
      else if n.Here() == end then true
      else Walk(m, n, end, fuel - 1)
  }

  /** The cells the same iterations enter, the stopping cell included. */
  function Visited(m: GameMap, c: Cursor, end: Cell, fuel: nat): seq<Cell>
    requires m.Valid()
    decreases fuel
  {
    if fuel == 0 then []
    else
      var n := Advance(c);
      if Blocks(m, n.Here()) || n.Here() == end then [n.Here()]
      else [n.Here()] + Visited(m, n, end, fuel - 1)
  }

  /** A 4-connected path leaving cell `from`. */
  predicate PathFrom(from: Cell, p: seq<Cell>) {
    (|p| > 0 ==> Adjacent(from, p[0])) &&
    forall i :: 0 <= i < |p| - 1 ==> Adjacent(p[i], p[i + 1])
  }

  /** What the traversal guarantees: it enters at most `fuel` cells along a
      4-connected path; every cell before the last is inside the grid, open and
      not the end; and it answers true exactly when the last cell entered is
      the end cell, inside the grid and open. */
  lemma {:induction false} WalkTrace(m: GameMap, c: Cursor, end: Cell, fuel: nat)
    requires m.Valid() && c.Ok()
    ensures var p := Visited(m, c, end, fuel);
      |p| <= fuel &&
      PathFrom(c.Here(), p) &&
      (forall i :: 0 <= i < |p| - 1 ==> !Blocks(m, p[i]) && p[i] != end) &&
      (Walk(m, c, end, fuel) <==> |p| > 0 && p[|p| - 1] == end && !Blocks(m, p[|p| - 1]))
    decreases fuel
  {
    if fuel > 0 {
      var n := Advance(c);
      AdvanceMovesOneCell(c);
      if !(Blocks(m, n.Here()) || n.Here() == end) {
        WalkTrace(m, n, end, fuel - 1);
        var rest := Visited(m, n, end, fuel - 1);
        assert Visited(m, c, end, fuel) == [n.Here()] + rest;
      }
    }
  }

  /** The endpoint test of HasLineOfSight: both points inside [0,W) x [0,H). */
  predicate EndpointsInside(m: GameMap, from: Vec2, to: Vec2) {
    !(from.x < 0.0 || from.y < 0.0 || to.x < 0.0 || to.y < 0.0) &&
    !(from.x >= m.width as real || to.x >= m.width as real ||
      from.y >= m.height as real || to.y >= m.height as real)
  }

  function CellOf(p: Vec2): Cell { Cell(Trunc(p.x), Trunc(p.y)) }

  function Sign(d: real): int { if d > 0.0 then 1 else if d < 0.0 then -1 else 0 }

  function Abs(d: real): real { if d < 0.0 then -d else d }

  /** The ray parameter of the first grid line crossed along one axis, and the
      spacing between successive ones (Inf when the ray does not move along it). */
  function FirstCrossing(cell: int, origin: real, d: real): Ext {
    var step := Sign(d);
    if step == 0 then Inf
    else
      var next := if step > 0 then (cell + 1) as real else cell as real;
      Fin(Abs(next - origin) * (1.0 / Abs(d)))
  }

  function CrossingSpacing(d: real): Ext {
    if Sign(d) == 0 then Inf else Fin(1.0 * (1.0 / Abs(d)))
  }

  /** The cursor HasLineOfSight starts from. */
  function StartCursor(from: Vec2, to: Vec2): Cursor {
    var dx, dy := to.x - from.x, to.y - from.y;
    var sx, sy := Trunc(from.x), Trunc(from.y);
    Cursor(sx, sy, Sign(dx), Sign(dy),
           FirstCrossing(sx, from.x, dx), FirstCrossing(sy, from.y, dy),
           CrossingSpacing(dx), CrossingSpacing(dy))
  }

  lemma StartCursorOk(from: Vec2, to: Vec2)
    requires CellOf(from) != CellOf(to)
    ensures StartCursor(from, to).Ok()
  {
  }

  function MaxSteps(m: GameMap): nat
    requires m.Valid()
  {
    m.width * m.height + 8
  }

  /** The answer HasLineOfSight computes, as a function of its inputs. */
  function LineOfSight(m: GameMap, from: Vec2, to: Vec2): (b: bool)
    requires m.Valid()
    ensures b ==> EndpointsInside(m, from, to)
    ensures EndpointsInside(m, from, to) && CellOf(from) == CellOf(to) ==> b
  {
    if !EndpointsInside(m, from, to) then false
    else if CellOf(from) == CellOf(to) then true
    else Walk(m, StartCursor(from, to), CellOf(to), MaxSteps(m))
  }

  /** A true answer between different cells means a 4-connected chain of at
      most W*H+8 open in-grid cells leads from the start cell to the end cell.
      The start cell itself is never examined. */
  lemma LineOfSightMeansClearPath(m: GameMap, from: Vec2, to: Vec2)
    requires m.Valid() && LineOfSight(m, from, to) && CellOf(from) != CellOf(to)
    ensures var p := Visited(m, StartCursor(from, to), CellOf(to), MaxSteps(m));
      0 < |p| <= MaxSteps(m) && PathFrom(CellOf(from), p) && p[|p| - 1] == CellOf(to) &&
      forall i :: 0 <= i < |p| ==> !Blocks(m, p[i])
  {
    StartCursorOk(from, to);
    WalkTrace(m, StartCursor(from, to), CellOf(to), MaxSteps(m));
  }

  /** A false answer between different in-grid cells means the end cell was
      not entered as an open cell within W*H+8 steps: the traversal stopped at
      a wall or the grid edge, or ran out of steps. */
  lemma LineOfSightFalseMeansNotReached(m: GameMap, from: Vec2, to: Vec2)
    requires m.Valid() && EndpointsInside(m, from, to) && CellOf(from) != CellOf(to)
    requires !LineOfSight(m, from, to)
    ensures var p := Visited(m, StartCursor(from, to), CellOf(to), MaxSteps(m));
      |p| == 0 || p[|p| - 1] != CellOf(to) || Blocks(m, p[|p| - 1])
  {
    StartCursorOk(from, to);
    WalkTrace(m, StartCursor(from, to), CellOf(to), MaxSteps(m));
  }

  /** The per-axis set-up of HasLineOfSight: the step sign, the first
      crossing and the crossing spacing (both Inf when the ray is parallel to
      that axis). */
  method AxisStart(cell: int, origin: real, d: real) returns (step: int, tMax: Ext, tDelta: Ext)
    ensures step == Sign(d) && tMax == FirstCrossing(cell, origin, d) && tDelta == CrossingSpacing(d)
  {
    step := 0;
    if d > 0.0 {
      step := 1;
    } else if d < 0.0 {
      step := -1;
    }
    var inv: Ext := Inf;
    if d != 0.0 {
      inv := Fin(1.0 / Abs(d));
    }
    if step != 0 {
      var next := if step > 0 then (cell + 1) as real else cell as real;
      tMax := Fin(Abs(next - origin) * inv.v);
      tDelta := Fin(1.0 * inv.v);
    } else {
      tMax := Inf;
      tDelta := Inf;
    }
  }

  /** HasLineOfSight, the loop of the source. */
  method HasLineOfSight(m: GameMap, from: Vec2, to: Vec2) returns (b: bool)
    requires m.Valid()
    ensures b == LineOfSight(m, from, to)
    ensures !EndpointsInside(m, from, to) ==> !b
    ensures EndpointsInside(m, from, to) && CellOf(from) == CellOf(to) ==> b
  {
    if from.x < 0.0 || from.y < 0.0 || to.x < 0.0 || to.y < 0.0 {
      return false;
    }
    if from.x >= m.width as real || to.x >= m.width as real ||
       from.y >= m.height as real || to.y >= m.height as real {
      return false;
    }
    var start := CellOf(from);
    var end := CellOf(to);
    if start == end {
      return true;
    }
    var c := SetUpCursor(from, to);
    b := Traverse(m, c, end.x, end.y, m.width * m.height + 8);
  }

  /** The set-up of HasLineOfSight: the start cell and, per axis, the step
      sign, the first crossing and the crossing spacing. */
  method SetUpCursor(from: Vec2, to: Vec2) returns (c: Cursor)
    ensures c == StartCursor(from, to)
  {
    var dx := to.x - from.x;
    var dy := to.y - from.y;
    var startX, startY := Trunc(from.x), Trunc(from.y);
    var stepX, tMaxX, tDeltaX := AxisStart(startX, from.x, dx);
    var stepY, tMaxY, tDeltaY := AxisStart(startY, from.y, dy);
    c := Cursor(startX, startY, stepX, stepY, tMaxX, tMaxY, tDeltaX, tDeltaY);
  }

  /** The traversal loop of HasLineOfSight, from the cursor it sets up. */
  method Traverse(m: GameMap, start: Cursor, endX: int, endY: int, maxSteps: nat) returns (b: bool)
    requires m.Valid()
    ensures b == Walk(m, start, Cell(endX, endY), maxSteps)
  {
    var x, y := start.x, start.y;
    var stepX, stepY := start.stepX, start.stepY;
    var tMaxX, tMaxY := start.tMaxX, start.tMaxY;
    var tDeltaX, tDeltaY := start.tDeltaX, start.tDeltaY;
    ghost var end := Cell(endX, endY);
    ghost var c := start;
    var i := 0;
    while i < maxSteps
      invariant 0 <= i <= maxSteps
      invariant c == Cursor(x, y, stepX, stepY, tMaxX, tMaxY, tDeltaX, tDeltaY)
      invariant Walk(m, c, end, maxSteps - i) == Walk(m, start, end, maxSteps)
    {
      if ExtLess(tMaxX, tMaxY) {
        x := x + stepX;
        tMaxX := ExtAdd(tMaxX, tDeltaX);
      } else {
        y := y + stepY;
        tMaxY := ExtAdd(tMaxY, tDeltaY);
      }
      c := Advance(c);
      assert c.Here() == Cell(x, y);
      if x < 0 || x >= m.width || y < 0 || y >= m.height {
        return false;
      }
      if m.tiles[y][x] == TileWall {
        return false;
      }
      assert !Blocks(m, c.Here());
      if x == endX && y == endY {
        return true;
      }
      i := i + 1;
    }
    return false;
  }
}
