/** Walking along a recorded path: the position between tiles and the tile last reached, over reals. */
module Walking {
  import opened Wrappers

  const I64_MAX := 0x7FFF_FFFF_FFFF_FFFF
  const U32_MAX := 0xFFFF_FFFF

  type I64 = x: int | -0x8000_0000_0000_0000 <= x <= 0x7FFF_FFFF_FFFF_FFFF
  type U32 = x: int | 0 <= x <= 0xFFFF_FFFF

  const UP: Byte := 85
  const RIGHT: Byte := 82
  const DOWN: Byte := 68
  const LEFT: Byte := 76

  datatype Point = Point(x: real, y: real)

  datatype Tile = Tile(x: U32, y: U32)

  datatype Presence = Presence(fromTile: Tile, path: Bytes, departAt: I64)

  predicate IsMove(b: Byte) { b == UP || b == RIGHT || b == DOWN || b == LEFT }

  /** `d` of a step in the direction of b. */
  function Move(p: Point, b: Byte, d: real): Point
  {
    if b == UP then p.(y := p.y - d)
    else if b == RIGHT then p.(x := p.x + d)
    else if b == DOWN then p.(y := p.y + d)
    else if b == LEFT then p.(x := p.x - d)
    else p
  }

  function Abs(r: real): real { if r < 0.0 then -r else r }

  function Distance(p: Point, q: Point): real { Abs(p.x - q.x) + Abs(p.y - q.y) }

  function AsPoint(t: Tile): Point { Point(t.x as real, t.y as real) }

  /** saturating_sub, then max(0). */
  function Elapsed(departAt: I64, now: I64): nat
  {
    var d := now - departAt;
    if d < 0 then 0 else if d > I64_MAX then I64_MAX else d
  }

  lemma ProductNonNegative(a: real, b: real)
    requires a >= 0.0 && b >= 0.0
    ensures a * b >= 0.0
  {
  }

  function RawSteps(p: Presence, speed: real, now: I64): (s: real)
    requires speed > 0.0
    ensures s >= 0.0
  {
    ProductNonNegative(Elapsed(p.departAt, now) as real / 1000.0, speed);
    Elapsed(p.departAt, now) as real / 1000.0 * speed
  }

  function MinReal(a: real, b: real): real { if a <= b then a else b }

  function Steps(p: Presence, speed: real, now: I64): (s: real)
    requires speed > 0.0
    ensures 0.0 <= s <= |p.path| as real
  {
    MinReal(RawSteps(p, speed, now), |p.path| as real)
  }

  // ---- reference: walking s steps ----

  /** The moves before the first byte that is not one. */
  function Walkable(path: Bytes): (v: nat)
    ensures v <= |path|
  {
    if path == [] || !IsMove(path[0]) then 0 else 1 + Walkable(path[1..])
  }

  /** The tile after n whole moves. */
  function AfterMoves(from: Point, path: Bytes, n: nat): Point
    requires n <= |path|
  {
    if n == 0 then from else Move(AfterMoves(from, path, n - 1), path[n - 1], 1.0)
  }

  /** Where a walk of s steps is: floor(s) whole moves and the fraction left over of the next. */
  function WalkTo(from: Point, path: Bytes, s: real): Point
    requires s >= 0.0
  {
    WalkAt(from, path, s.Floor, s - s.Floor as real)
  }

  /** w whole moves and a part f of the next, or the end of the walk if that comes first. */
  function WalkAt(from: Point, path: Bytes, w: nat, f: real): Point
  {
    var v := Walkable(path);
    if w >= v then AfterMoves(from, path, v) else Move(AfterMoves(from, path, w), path[w], f)
  }

  lemma {:induction false} WalkableBytes(path: Bytes, i: nat)
    requires i <= Walkable(path)
    ensures i < Walkable(path) ==> i < |path| && IsMove(path[i]) && path[i] in {85, 82, 68, 76}
    ensures i == Walkable(path) && i < |path| ==> !IsMove(path[i]) && path[i] !in {85, 82, 68, 76}
  {
    if path != [] && IsMove(path[0]) && i > 0 { WalkableBytes(path[1..], i - 1); }
  }

  /** How often b occurs in the path. */
  function CountOf(path: Bytes, b: Byte): nat
  {
    if path == [] then 0 else CountOf(path[..|path| - 1], b) + if path[|path| - 1] == b then 1 else 0
  }

  /** Every R is one to the right and every L one to the left; every D is one down, which is up in y, and
      every U one up. */
  lemma {:induction false} MovesAddUp(from: Point, path: Bytes, n: nat)
    requires n <= |path|
    ensures var to, made := AfterMoves(from, path, n), path[..n];
      && to.x == from.x + CountOf(made, 82) as real - CountOf(made, 76) as real
      && to.y == from.y + CountOf(made, 68) as real - CountOf(made, 85) as real
  {
    if n > 0 {
      MovesAddUp(from, path, n - 1);
      assert path[..n][..n - 1] == path[..n - 1] && path[..n][n - 1] == path[n - 1];
    }
  }

  function Clamp01(r: real): real { if r < 0.0 then 0.0 else if r > 1.0 then 1.0 else r }

  /** position_at: the early-exit loop lands where the walk of s steps does. */
  method PositionAt(p: Presence, speed: real, now: I64) returns (tile: Point)
    requires speed > 0.0
    ensures tile == WalkTo(AsPoint(p.fromTile), p.path, Steps(p, speed, now))
  {
    hide RawSteps;
    var steps := RawSteps(p, speed, now);
    if steps > |p.path| as real { steps := |p.path| as real; }
    ghost var from, v := AsPoint(p.fromTile), Walkable(p.path);
    tile := Point(p.fromTile.x as real, p.fromTile.y as real);
    var index := 0;
    while index < |p.path|
      invariant 0 <= index <= v && index as real <= steps && tile == AfterMoves(from, p.path, index)
      decreases |p.path| - index
    {
      WalkableBytes(p.path, index);
      var progress := Clamp01(steps - index as real);
      if !IsMove(p.path[index]) { return; }
      tile := Move(tile, p.path[index], progress);
      if progress < 1.0 {
        assert steps.Floor == index;
        return;
      }
      index := index + 1;
    }
  }

  function SaturatingMove(t: Tile, b: Byte): Tile
  {
    if b == UP then t.(y := if t.y > 0 then t.y - 1 else 0)
    else if b == RIGHT then t.(x := if t.x < U32_MAX then t.x + 1 else U32_MAX)
    else if b == DOWN then t.(y := if t.y < U32_MAX then t.y + 1 else U32_MAX)
    else if b == LEFT then t.(x := if t.x > 0 then t.x - 1 else 0)
    else t
  }

  /** A move on tiles is the move on points, held at the edge of the grid. */
  lemma SaturatingMoveIsHeld(t: Tile, b: Byte)
    ensures var free, held := Move(AsPoint(t), b, 1.0), SaturatingMove(t, b);
      && held.x as real == (if free.x < 0.0 then 0.0 else if free.x > U32_MAX as real then U32_MAX as real else free.x)
      && held.y as real == (if free.y < 0.0 then 0.0 else if free.y > U32_MAX as real then U32_MAX as real else free.y)
  {
  }

  function SaturatingMoves(t: Tile, path: Bytes, n: nat): Tile
    requires n <= |path|
  {
    if n == 0 then t else SaturatingMove(SaturatingMoves(t, path, n - 1), path[n - 1])
  }

  function MinInt(a: int, b: int): int { if a <= b then a else b }

  /** Whole moves tile_at makes. */
  function WholeSteps(p: Presence, speed: real, now: I64): (n: nat)
    requires speed > 0.0
    ensures n <= Walkable(p.path)
  {
    MinInt(RawSteps(p, speed, now).Floor, Walkable(p.path))
  }

  /** tile_at: whole moves only, clamped to the grid. */
  method TileAt(p: Presence, speed: real, now: I64) returns (tile: Tile)
    requires speed > 0.0
    ensures tile == SaturatingMoves(p.fromTile, p.path, WholeSteps(p, speed, now))
  {
    hide RawSteps;
    var steps := MinInt(RawSteps(p, speed, now).Floor, |p.path|);
    tile := p.fromTile;
    var index := 0;
    while index < steps
      invariant 0 <= index <= steps && index <= Walkable(p.path) && tile == SaturatingMoves(p.fromTile, p.path, index)
    {
      WalkableBytes(p.path, index);
      if !IsMove(p.path[index]) { return; }
      tile := SaturatingMove(tile, p.path[index]);
      index := index + 1;
    }
  }

  // ---- the walk, step by step ----

  lemma {:induction false} AfterMovesShift(from: Point, path: Bytes, n: nat)
    requires 1 <= n <= |path|
    ensures AfterMoves(from, path, n) == AfterMoves(Move(from, path[0], 1.0), path[1..], n - 1)
  {
    if n > 1 { AfterMovesShift(from, path, n - 1); }
  }

  lemma WalkToShift(from: Point, path: Bytes, s: real)
    requires s >= 1.0 && path != [] && IsMove(path[0])
    ensures WalkTo(from, path, s) == WalkTo(Move(from, path[0], 1.0), path[1..], s - 1.0)
  {
    var v := Walkable(path);
    assert (s - 1.0).Floor == s.Floor - 1;
    if s.Floor >= v { AfterMovesShift(from, path, v); } else { AfterMovesShift(from, path, s.Floor); }
  }

  lemma Triangle(p: Point, q: Point, r: Point)
    ensures Distance(p, r) <= Distance(p, q) + Distance(q, r)
  {
  }

  lemma WalkToStart(from: Point, path: Bytes, s: real)
    requires 0.0 <= s < 1.0
    ensures WalkTo(from, path, s) == if path != [] && IsMove(path[0]) then Move(from, path[0], s) else from
  {
    assert s.Floor == 0;
  }

  /** A walk covers no more ground than its steps. */
  lemma {:induction false} WalkIsContinuous(from: Point, path: Bytes, s: real, t: real)
    requires 0.0 <= s <= t
    ensures Distance(WalkTo(from, path, s), WalkTo(from, path, t)) <= t - s
    decreases |path|
  {
    if path == [] || !IsMove(path[0]) {
      assert Walkable(path) == 0;
    } else if s >= 1.0 {
      WalkToShift(from, path, s);
      WalkToShift(from, path, t);
      WalkIsContinuous(Move(from, path[0], 1.0), path[1..], s - 1.0, t - 1.0);
    } else if t < 1.0 {
      WalkToStart(from, path, s);
      WalkToStart(from, path, t);
    } else {
      var first := Move(from, path[0], 1.0);
      WalkToStart(from, path, s);
      WalkToShift(from, path, t);
      WalkToStart(first, path[1..], 0.0);
      WalkIsContinuous(first, path[1..], 0.0, t - 1.0);
      Triangle(WalkTo(from, path, s), first, WalkTo(from, path, t));
    }
  }

  lemma Scale(a: real, b: real, k: real)
    requires a <= b && k >= 0.0
    ensures a * k <= b * k && b * k - a * k == (b - a) * k
  {
  }

  lemma StepsBetween(a: real, b: real, d: real, k: real)
    requires a <= b && b - a <= d && k >= 0.0
    ensures a * k <= b * k && b * k - a * k <= d * k
  {
    Scale(a, b, k);
    Scale(b - a, d, k);
  }

  lemma MinGap(a: real, b: real, c: real)
    requires a <= b
    ensures MinReal(a, c) <= MinReal(b, c) && MinReal(b, c) - MinReal(a, c) <= b - a
  {
  }

  lemma ElapsedGap(departAt: I64, t1: I64, t2: I64)
    requires t1 <= t2
    ensures Elapsed(departAt, t1) <= Elapsed(departAt, t2) && Elapsed(departAt, t2) - Elapsed(departAt, t1) <= t2 - t1
  {
  }

  lemma Seconds(a: int, b: int, d: int)
    requires a <= b && b - a <= d
    ensures a as real / 1000.0 <= b as real / 1000.0 && b as real / 1000.0 - a as real / 1000.0 <= d as real / 1000.0
  {
  }

  lemma RawStepsGap(p: Presence, speed: real, t1: I64, t2: I64)
    requires speed > 0.0 && t1 <= t2
    ensures RawSteps(p, speed, t1) <= RawSteps(p, speed, t2)
    ensures RawSteps(p, speed, t2) - RawSteps(p, speed, t1) <= (t2 - t1) as real / 1000.0 * speed
  {
    hide Elapsed;
    var e1, e2 := Elapsed(p.departAt, t1), Elapsed(p.departAt, t2);
    ElapsedGap(p.departAt, t1, t2);
    Seconds(e1, e2, t2 - t1);
    StepsBetween(e1 as real / 1000.0, e2 as real / 1000.0, (t2 - t1) as real / 1000.0, speed);
  }

  /** Between any two clock readings an agent moves at most speed times the time between them. */
  lemma SpeedLimit(p: Presence, speed: real, t1: I64, t2: I64)
    requires speed > 0.0 && t1 <= t2
    ensures Distance(WalkTo(AsPoint(p.fromTile), p.path, Steps(p, speed, t1)),
                     WalkTo(AsPoint(p.fromTile), p.path, Steps(p, speed, t2)))
      <= (t2 - t1) as real / 1000.0 * speed
  {
    hide RawSteps, WalkTo, Distance, AsPoint;
    RawStepsGap(p, speed, t1, t2);
    MinGap(RawSteps(p, speed, t1), RawSteps(p, speed, t2), |p.path| as real);
    WalkIsContinuous(AsPoint(p.fromTile), p.path, Steps(p, speed, t1), Steps(p, speed, t2));
  }

  // ---- tile and position ----

  /** The first n moves stay on the u32 grid. */
  predicate OnGrid(t: Tile, path: Bytes, n: nat)
    requires n <= |path|
  {
    forall i | 0 <= i <= n ::
      var q := AfterMoves(AsPoint(t), path, i);
      0.0 <= q.x <= U32_MAX as real && 0.0 <= q.y <= U32_MAX as real
  }

  lemma {:induction false} NoSaturation(t: Tile, path: Bytes, n: nat)
    requires n <= |path| && OnGrid(t, path, n)
    ensures AsPoint(SaturatingMoves(t, path, n)) == AfterMoves(AsPoint(t), path, n)
  {
    if n > 0 {
      assert OnGrid(t, path, n - 1);
      NoSaturation(t, path, n - 1);
      var q := AfterMoves(AsPoint(t), path, n);
      assert 0.0 <= q.x <= U32_MAX as real && 0.0 <= q.y <= U32_MAX as real;
    }
  }

  /** While the walk stays on the grid, the position is exactly the fraction of a step away from the
      tile: none once the walk is over. */
  lemma PositionNearTile(p: Presence, speed: real, now: I64)
    requires speed > 0.0 && OnGrid(p.fromTile, p.path, WholeSteps(p, speed, now))
    ensures var s := Steps(p, speed, now);
      var tile := SaturatingMoves(p.fromTile, p.path, WholeSteps(p, speed, now));
      Distance(WalkTo(AsPoint(p.fromTile), p.path, s), AsPoint(tile))
      == if s.Floor < Walkable(p.path) then s - s.Floor as real else 0.0
  {
    hide RawSteps;
    var s, v, n := Steps(p, speed, now), Walkable(p.path), WholeSteps(p, speed, now);
    NoSaturation(p.fromTile, p.path, n);
    FloorMin(RawSteps(p, speed, now), |p.path|);
    if s.Floor < v { WalkableBytes(p.path, s.Floor); }
  }

  lemma FloorMin(r: real, n: nat)
    requires r >= 0.0
    ensures MinReal(r, n as real).Floor == MinInt(r.Floor, n)
  {
  }

  // ---- re-basing ----

  lemma {:induction false} AfterMovesSplit(from: Point, path: Bytes, n: nat, k: nat)
    requires n + k <= |path|
    ensures AfterMoves(AfterMoves(from, path, n), path[n..], k) == AfterMoves(from, path, n + k)
  {
    if k > 0 { AfterMovesSplit(from, path, n, k - 1); }
  }

  lemma {:induction false} WalkableSuffix(path: Bytes, n: nat)
    requires n <= Walkable(path)
    ensures Walkable(path[n..]) == Walkable(path) - n
  {
    if n > 0 {
      WalkableSuffix(path[1..], n - 1);
      assert path[1..][n - 1..] == path[n..];
    }
  }

  lemma FloorShift(s: real, n: int)
    ensures (s - n as real).Floor == s.Floor - n
    ensures s - n as real - (s - n as real).Floor as real == s - s.Floor as real
  {
  }

  lemma WalkAtSplit(from: Point, path: Bytes, n: nat, w: nat, f: real)
    requires n <= Walkable(path) && n <= w
    ensures WalkAt(AfterMoves(from, path, n), path[n..], w - n, f) == WalkAt(from, path, w, f)
  {
    hide Walkable, AfterMoves, Move, WalkAt;
    WalkableSuffix(path, n);
    WalkAtMeans(from, path, w, f);
    WalkAtMeans(AfterMoves(from, path, n), path[n..], w - n, f);
    AfterMovesSplit(from, path, n, MinInt(w, Walkable(path)) - n);
  }

  lemma WalkAtMeans(from: Point, path: Bytes, w: nat, f: real)
    ensures Walkable(path) <= |path|
    ensures w >= Walkable(path) ==> WalkAt(from, path, w, f) == AfterMoves(from, path, Walkable(path))
    ensures w < Walkable(path) ==> WalkAt(from, path, w, f) == Move(AfterMoves(from, path, w), path[w], f)
  {
    hide AfterMoves, Move;
  }

  lemma WalkFromMiddle(from: Point, path: Bytes, n: nat, s: real)
    requires n <= Walkable(path) && s >= n as real
    ensures WalkTo(AfterMoves(from, path, n), path[n..], s - n as real) == WalkTo(from, path, s)
  {
    hide Walkable, AfterMoves, WalkAt;
    FloorShift(s, n);
    WalkAtSplit(from, path, n, s.Floor, s - s.Floor as real);
  }

  /** The record an agent would publish on reaching a tile: the rest of the path from there. */
  predicate Rebased(p: Presence, speed: real, n: nat, q: Presence)
  {
    && n <= Walkable(p.path) && q.path == p.path[n..] && AsPoint(q.fromTile) ==
      AfterMoves(AsPoint(p.fromTile), p.path, n)
    && p.departAt <= q.departAt && (q.departAt - p.departAt) as real / 1000.0 * speed == n as real
  }

  /** Re-basing the record at the moment a step is completed changes no later position. */
  lemma RebaseKeepsPositions(p: Presence, speed: real, n: nat, q: Presence, now: I64)
    requires speed > 0.0 && Rebased(p, speed, n, q) && q.departAt <= now && now - p.departAt <= I64_MAX
    ensures WalkTo(AsPoint(q.fromTile), q.path, Steps(q, speed, now)) ==
      WalkTo(AsPoint(p.fromTile), p.path, Steps(p, speed, now))
  {
    var ep, eq := Elapsed(p.departAt, now), Elapsed(q.departAt, now);
    var moved := (q.departAt - p.departAt) as real / 1000.0;
    assert ep as real / 1000.0 == eq as real / 1000.0 + moved;
    Scale(moved, ep as real / 1000.0, speed);
    ProductNonNegative(eq as real / 1000.0, speed);
    assert RawSteps(q, speed, now) == RawSteps(p, speed, now) - n as real;
    WalkFromMiddle(AsPoint(p.fromTile), p.path, n, Steps(p, speed, now));
  }
}
