/** Circle-versus-tile collision with axis sliding (backend/logic/physics.go). */
module Physics {
  import opened Geometry
  import opened Maze

  function Max(a: real, b: real): real { if a >= b then a else b }
  function Min(a: real, b: real): real { if a <= b then a else b }

  /** The point of the unit tile [tx, tx+1] x [ty, ty+1] closest to c. */
  function ClosestInTile(c: Vec2, tx: int, ty: int): Vec2 {
    Vec2(Max(tx as real, Min(c.x, (tx + 1) as real)),
         Max(ty as real, Min(c.y, (ty + 1) as real)))
  }

  /** CircleAABB: the circle of radius r at c overlaps tile (tx, ty).  A circle
      of radius 0 overlaps nothing; one centred in the tile overlaps it
      whenever its radius is not 0. */
  predicate CircleAABB(c: Vec2, r: real, tx: int, ty: int): (overlaps: bool)
    ensures overlaps ==> r != 0.0
    ensures InTile(c, tx, ty) ==> (overlaps <==> r != 0.0)
  {
    SqIsProduct(0.0);
    assert r != 0.0 ==> Sq(r) > 0.0 by {
      if r != 0.0 { SqPositive(r); }
    }
    CentreInOwnTile(c, tx, ty);
    DistSq(c, ClosestInTile(c, tx, ty)) < Sq(r)
  }

  /** A centre inside the tile is its own closest point. */
  lemma CentreInOwnTile(c: Vec2, tx: int, ty: int)
    ensures InTile(c, tx, ty) ==> DistSq(c, ClosestInTile(c, tx, ty)) == 0.0
  {
    if InTile(c, tx, ty) {
      assert ClosestInTile(c, tx, ty) == c;
      assert Sub(c, c) == Vec2(0.0, 0.0);
      SqIsProduct(0.0);
    }
  }

  predicate InTile(q: Vec2, tx: int, ty: int) {
    tx as real <= q.x <= (tx + 1) as real && ty as real <= q.y <= (ty + 1) as real
  }

  /** Along one axis, clamping into [lo, lo+1] gives the nearest point. */
  lemma ClampIsNearest(v: real, lo: int, q: real)
    requires lo as real <= q <= (lo + 1) as real
    ensures Sq(v - Max(lo as real, Min(v, (lo + 1) as real))) <= Sq(v - q)
  {
    var k := Max(lo as real, Min(v, (lo + 1) as real));
    if v < lo as real {
      SqOfNegation(v - k);
      SqOfNegation(v - q);
      SqMonotone(k - v, q - v);
    } else if v > (lo + 1) as real {
      SqMonotone(v - k, v - q);
    } else {
      assert v - k == 0.0;
      SqIsProduct(0.0);
      SqNonNegative(v - q);
    }
  }

  /** The closest-point test is exact: the circle overlaps the tile iff some
      point of the (closed) tile lies strictly within distance r of c. */
  lemma CircleAABBIsOverlap(c: Vec2, r: real, tx: int, ty: int)
    ensures CircleAABB(c, r, tx, ty) <==> exists q :: InTile(q, tx, ty) && DistSq(c, q) < Sq(r)
  {
    var k := ClosestInTile(c, tx, ty);
    assert InTile(k, tx, ty);
    forall q | InTile(q, tx, ty)
      ensures DistSq(c, k) <= DistSq(c, q)
    {
      ClampIsNearest(c.x, tx, q.x);
      ClampIsNearest(c.y, ty, q.y);
    }
  }

  /** The bounds test of checkCollision: the circle pokes out of the map. */
  predicate OutOfBounds(m: GameMap, pos: Vec2, r: real) {
    pos.x < r || pos.x > m.width as real - r || pos.y < r || pos.y > m.height as real - r
  }

  /** A tile the scan reports: not walkable at its centre and overlapped. */
  predicate WallOverlap(m: GameMap, pos: Vec2, r: real, x: int, y: int)
    requires m.Valid()
  {
    !IsWalkable(m, x as real + 0.5, y as real + 0.5) && CircleAABB(pos, r, x, y)
  }

  /** No wall tile of row y within the scanned columns
      [int(x-r), int(x+r)] overlaps the circle. */
  predicate RowClear(m: GameMap, pos: Vec2, r: real, y: int)
    requires m.Valid()
  {
    forall x | Trunc(pos.x - r) <= x <= Trunc(pos.x + r) :: !WallOverlap(m, pos, r, x, y)
  }

  /** What checkCollision answers: out of bounds, or a wall overlap in one of
      the scanned rows [int(y-r), int(y+r)]. */
  predicate Collides(m: GameMap, pos: Vec2, r: real)
    requires m.Valid()
    ensures !Collides(m, pos, r) ==>
      r <= pos.x <= m.width as real - r && r <= pos.y <= m.height as real - r
  {
    OutOfBounds(m, pos, r) ||
    exists y | Trunc(pos.y - r) <= y <= Trunc(pos.y + r) :: !RowClear(m, pos, r, y)
  }

  /** checkCollision, with the source's nested scan. */
  method CheckCollision(m: GameMap, pos: Vec2, radius: real) returns (hit: bool)
    requires m.Valid()
    ensures hit == Collides(m, pos, radius)
  {
    if pos.x < radius || pos.x > m.width as real - radius ||
       pos.y < radius || pos.y > m.height as real - radius {
      return true;
    }
    var minX := Trunc(pos.x - radius);
    var maxX := Trunc(pos.x + radius);
    var minY := Trunc(pos.y - radius);
    var maxY := Trunc(pos.y + radius);

    var y := minY;
    while y <= maxY
      invariant minY <= y && (y <= maxY + 1 || y == minY)
      invariant forall y' | minY <= y' < y :: RowClear(m, pos, radius, y')
    {
      hit := ScanRow(m, pos, radius, y, minX, maxX);
      if hit {
        return true;
      }
      y := y + 1;
    }
    return false;
  }

  /** The inner loop of checkCollision: one row of the scanned tiles. */
  method ScanRow(m: GameMap, pos: Vec2, radius: real, y: int, minX: int, maxX: int) returns (hit: bool)
    requires m.Valid()
    requires minX == Trunc(pos.x - radius) && maxX == Trunc(pos.x + radius)
    ensures hit == !RowClear(m, pos, radius, y)
  {
    var x := minX;
    while x <= maxX
      invariant minX <= x && (x <= maxX + 1 || x == minX)
      invariant forall x' | minX <= x' < x :: !WallOverlap(m, pos, radius, x', y)
    {
      if !IsWalkable(m, x as real + 0.5, y as real + 0.5) {
        if CircleAABB(pos, radius, x, y) {
          assert WallOverlap(m, pos, radius, x, y);
          return true;
        }
      }
      x := x + 1;
    }
    return false;
  }

  /** An overlapped tile lies inside the scanned column range. */
  lemma OverlapWithinScanRange(c: real, r: real, t: int)
    requires 0.0 <= r && r <= c
    requires Sq(c - Max(t as real, Min(c, (t + 1) as real))) < Sq(r)
    ensures Trunc(c - r) <= t <= Trunc(c + r)
  {
    var k := Max(t as real, Min(c, (t + 1) as real));
    var d := if c >= k then c - k else k - c;
    SqOfNegation(c - k);
    assert Sq(d) < Sq(r);
    if d >= r {
      SqMonotone(r, d);
    }
    assert c - r < k < c + r;
  }

  /** The scan range is wide enough: when checkCollision says no, no wall tile
      anywhere on the map overlaps the circle (for a non-negative radius). */
  lemma NoCollisionMeansNoWallOverlap(m: GameMap, pos: Vec2, r: real, x: int, y: int)
    requires m.Valid() && r >= 0.0
    requires !Collides(m, pos, r)
    requires !IsWalkable(m, x as real + 0.5, y as real + 0.5)
    ensures !CircleAABB(pos, r, x, y)
  {
    if CircleAABB(pos, r, x, y) {
      var k := ClosestInTile(pos, x, y);
      SqNonNegative(pos.x - k.x);
      SqNonNegative(pos.y - k.y);
      OverlapWithinScanRange(pos.x, r, x);
      OverlapWithinScanRange(pos.y, r, y);
      assert RowClear(m, pos, r, y);
      assert WallOverlap(m, pos, r, x, y);
      assert false;
    }
  }

  /** A circle of positive radius that does not collide has its centre on a
      walkable cell. */
  lemma NoCollisionStandsOnWalkable(m: GameMap, pos: Vec2, r: real)
    requires m.Valid() && r > 0.0
    requires !Collides(m, pos, r)
    ensures IsWalkable(m, pos.x, pos.y)
  {
    assert !OutOfBounds(m, pos, r);
    var x, y := Trunc(pos.x), Trunc(pos.y);
    OwnTileOverlapped(pos, r);
    if !IsWalkable(m, x as real + 0.5, y as real + 0.5) {
      NoCollisionMeansNoWallOverlap(m, pos, r, x, y);
    }
    WalkableAtCellCentre(m, x, y);
  }

  /** A circle of positive radius overlaps the tile under its centre. */
  lemma OwnTileOverlapped(pos: Vec2, r: real)
    requires pos.x >= 0.0 && pos.y >= 0.0 && r > 0.0
    ensures CircleAABB(pos, r, Trunc(pos.x), Trunc(pos.y))
  {
    SqPositive(r);
    ClosestOfOwnTile(pos);
    DistSqSelf(pos);
  }

  lemma ClosestOfOwnTile(pos: Vec2)
    requires pos.x >= 0.0 && pos.y >= 0.0
    ensures ClosestInTile(pos, Trunc(pos.x), Trunc(pos.y)) == pos
  {
  }

  lemma DistSqSelf(p: Vec2)
    ensures DistSq(p, p) == 0.0
  {
    assert Sub(p, p) == Vec2(0.0, 0.0);
    SqIsProduct(0.0);
  }

  /** ResolveMovement: the full move if it is free, else the X-only slide,
      else the Y-only slide, else stay. */
  method ResolveMovement(m: GameMap, pos: Vec2, delta: Vec2, radius: real) returns (r: Vec2)
    requires m.Valid()
    ensures var full, onlyX, onlyY := Add(pos, delta), Vec2(pos.x + delta.x, pos.y), Vec2(pos.x, pos.y + delta.y);
      (!Collides(m, full, radius) ==> r == full) &&
      (Collides(m, full, radius) && !Collides(m, onlyX, radius) ==> r == onlyX) &&
      (Collides(m, full, radius) && Collides(m, onlyX, radius) && !Collides(m, onlyY, radius) ==> r == onlyY) &&
      (Collides(m, full, radius) && Collides(m, onlyX, radius) && Collides(m, onlyY, radius) ==> r == pos)
    ensures r == pos || !Collides(m, r, radius)
    ensures !Collides(m, pos, radius) ==> !Collides(m, r, radius)
  {
    var target := Vec2(pos.x + delta.x, pos.y + delta.y);
    var hit := CheckCollision(m, target, radius);
    if !hit {
      return target;
    }
    var targetX := Vec2(pos.x + delta.x, pos.y);
    hit := CheckCollision(m, targetX, radius);
    if !hit {
      return targetX;
    }
    var targetY := Vec2(pos.x, pos.y + delta.y);
    hit := CheckCollision(m, targetY, radius);
    if !hit {
      return targetY;
    }
    return pos;
  }
}
