/**
  The movement rules every moving body of the chase game follows, in all three
  revisions: one-step lookahead boxes, the per-axis re-check that stops a body at a
  wall and snaps it to the tile, the displacement guard, the random wander of the
  enemies, and the key steering of the revisions without queued input.

  A body is a circle of some radius centred at (x, y) with a velocity direction of
  -1, 0 or 1 per axis; it moves by velocity * speed * dt per frame.
*/
module Motion {
  import opened Wrappers
  import opened TileMap
  import opened Arith

  datatype Dir = Left | Right | Up | Down

  /** The keys held during a frame. */
  datatype Keys = Keys(left: bool, right: bool, up: bool, down: bool, space: bool, enter: bool)

  /** Lookahead boxes are narrowed across the direction of travel by this factor,
      so that a body that is not quite aligned with a corridor still fits into it. */
  const CORNER_FORGIVENESS: real := 1.5

  /** Position and velocity direction of a moving body. */
  datatype Body = Body(x: real, y: real, xVel: int, yVel: int)

  predicate UnitVelocity(k: Body)
  {
    -1 <= k.xVel <= 1 && -1 <= k.yVel <= 1
  }

  /** A body at rest at the centre of cell c of a grid of the given tile size. */
  function AtCentre(c: Cell, tile: real): Body
  {
    Body(c.x as real * tile + tile / 2.0, c.y as real * tile + tile / 2.0, 0, 0)
  }

  /** rect(xShift, yShift): the bounding box of the body moved by the shift,
      narrowed across a shift that is not zero. */
  function Rect(x: real, y: real, radius: real, xShift: real, yShift: real): Box
  {
    var radiusX := if yShift == 0.0 then radius else radius / CORNER_FORGIVENESS;
    var radiusY := if xShift == 0.0 then radius else radius / CORNER_FORGIVENESS;
    Box(x - radiusX + xShift, y - radiusY + yShift, radiusX * 2.0, radiusY * 2.0)
  }

  /** The box is centred on the shifted centre; it is the full square of side
      2 * radius across a zero shift and two thirds of it across a shift that is
      not zero. */
  lemma RectShape(x: real, y: real, radius: real, xShift: real, yShift: real)
    ensures var b := Rect(x, y, radius, xShift, yShift);
      && b.x + b.w / 2.0 == x + xShift && b.y + b.h / 2.0 == y + yShift
      && (yShift == 0.0 ==> b.w == 2.0 * radius)
      && (yShift != 0.0 ==> b.w == 2.0 * radius / CORNER_FORGIVENESS)
      && (xShift == 0.0 ==> b.h == 2.0 * radius)
      && (xShift != 0.0 ==> b.h == 2.0 * radius / CORNER_FORGIVENESS)
      && (radius >= 0.0 ==> 0.0 <= b.w <= 2.0 * radius && 0.0 <= b.h <= 2.0 * radius)
  {
  }

  /** How far a body with velocity direction v moves in a frame of dt seconds. */
  function Displacement(v: int, speed: real, dt: real): real
  {
    v as real * speed * dt
  }

  /** The box a body tests before turning toward d. */
  function Lookahead(k: Body, radius: real, speed: real, dt: real, d: Dir): Box
  {
    match d
    case Left => Rect(k.x, k.y, radius, Displacement(-1, speed, dt), 0.0)
    case Right => Rect(k.x, k.y, radius, Displacement(1, speed, dt), 0.0)
    case Up => Rect(k.x, k.y, radius, 0.0, Displacement(-1, speed, dt))
    case Down => Rect(k.x, k.y, radius, 0.0, Displacement(1, speed, dt))
  }

  /** Turn toward d: the velocity of d's axis is set, the other axis is kept. */
  function Steer(k: Body, d: Dir): Body
  {
    match d
    case Left => k.(xVel := -1)
    case Right => k.(xVel := 1)
    case Up => k.(yVel := -1)
    case Down => k.(yVel := 1)
  }

  // ---------------------------------------------------------------------------
  // Re-check, snap and the displacement guard
  // ---------------------------------------------------------------------------

  /** The centre coordinate of a body of the given radius pushed back against the
      low edge of the tile that contains c. */
  function Snap(c: real, radius: real, tile: real): real
    requires tile > 0.0
  {
    (c / tile).Floor as real * tile + radius
  }

  /** Snapping keeps a body of radius below one tile in the tile it was in. */
  lemma {:induction false} SnapStaysInTile(c: real, radius: real, tile: real)
    requires tile > 0.0 && 0.0 <= radius < tile
    ensures (Snap(c, radius, tile) / tile).Floor == (c / tile).Floor
  {
    var n := (c / tile).Floor;
    var s := Snap(c, radius, tile);
    assert s / tile == n as real + radius / tile;
    DivBelow(radius, 1.0, tile);
    if radius > 0.0 {
      DivAbove(radius, 0.0, tile);
    }
  }

  /** Snapping twice is snapping once. */
  lemma SnapIdempotent(c: real, radius: real, tile: real)
    requires tile > 0.0 && 0.0 <= radius < tile
    ensures Snap(Snap(c, radius, tile), radius, tile) == Snap(c, radius, tile)
  {
    SnapStaysInTile(c, radius, tile);
  }

  /** The re-check of the current velocity: when the box one step ahead on the x
      axis hits a wall, x is snapped and the x velocity cleared; then the same on
      the y axis, at the possibly snapped x. */
  function Recheck(walls: Box -> bool, tile: real, radius: real, speed: real, dt: real, k: Body): Body
    requires tile > 0.0
  {
    var kx :=
      if walls(Rect(k.x, k.y, radius, Displacement(k.xVel, speed, dt), 0.0))
      then k.(x := Snap(k.x, radius, tile), xVel := 0)
      else k;
    if walls(Rect(kx.x, kx.y, radius, 0.0, Displacement(kx.yVel, speed, dt)))
    then kx.(y := Snap(kx.y, radius, tile), yVel := 0)
    else kx
  }

  /** The guarded move: the body advances by velocity * speed * dt only when that
      is less than one tile on both axes. */
  function Advance(tile: real, speed: real, dt: real, k: Body): Body
  {
    var moveX := Displacement(k.xVel, speed, dt);
    var moveY := Displacement(k.yVel, speed, dt);
    if Abs(moveX) < tile && Abs(moveY) < tile then k.(x := k.x + moveX, y := k.y + moveY)
    else k
  }

  /** The movement phase of a frame: re-check, then the guarded move. */
  function Move(walls: Box -> bool, tile: real, radius: real, speed: real, dt: real, k: Body): Body
    requires tile > 0.0
  {
    Advance(tile, speed, dt, Recheck(walls, tile, radius, speed, dt, k))
  }

  /** Velocities stay unit directions, and an axis keeps its velocity only when the
      box one step ahead on it was clear; otherwise the velocity is cleared. */
  lemma MoveKeepsOnlyClearVelocities(walls: Box -> bool, tile: real, radius: real, speed: real, dt: real, k: Body)
    requires tile > 0.0 && UnitVelocity(k)
    ensures var r := Move(walls, tile, radius, speed, dt, k);
      && UnitVelocity(r)
      && (r.xVel == 0 || r.xVel == k.xVel)
      && (r.yVel == 0 || r.yVel == k.yVel)
      && (r.xVel != 0 ==> !walls(Rect(k.x, k.y, radius, Displacement(k.xVel, speed, dt), 0.0)))
  {
    if walls(Rect(k.x, k.y, radius, Displacement(k.xVel, speed, dt), 0.0)) {
      assert Recheck(walls, tile, radius, speed, dt, k).xVel == 0;
    } else {
      assert Recheck(walls, tile, radius, speed, dt, k).xVel == k.xVel;
    }
  }

  /** A body whose step on the x axis is blocked comes to rest on that axis at the
      snapped coordinate, inside the tile it was in. */
  lemma {:induction false} BlockedAxisRests(walls: Box -> bool, tile: real, radius: real, speed: real, dt: real, k: Body)
    requires tile > 0.0 && 0.0 <= radius < tile
    requires walls(Rect(k.x, k.y, radius, Displacement(k.xVel, speed, dt), 0.0))
    ensures var r := Move(walls, tile, radius, speed, dt, k);
      && r.xVel == 0
      && r.x == Snap(k.x, radius, tile)
      && (r.x / tile).Floor == (k.x / tile).Floor
  {
    var rc := Recheck(walls, tile, radius, speed, dt, k);
    assert rc.xVel == 0 && rc.x == Snap(k.x, radius, tile);
    assert Displacement(rc.xVel, speed, dt) == 0.0;
    SnapStaysInTile(k.x, radius, tile);
  }

  /** The same on the y axis: a body whose step on the y axis, taken after the x
      re-check, is blocked comes to rest on that axis at the snapped coordinate,
      inside the tile it was in. */
  lemma {:induction false} BlockedYAxisRests(walls: Box -> bool, tile: real, radius: real, speed: real, dt: real, k: Body)
    requires tile > 0.0 && 0.0 <= radius < tile
    requires var kx :=
        if walls(Rect(k.x, k.y, radius, Displacement(k.xVel, speed, dt), 0.0))
        then k.(x := Snap(k.x, radius, tile), xVel := 0)
        else k;
      walls(Rect(kx.x, kx.y, radius, 0.0, Displacement(kx.yVel, speed, dt)))
    ensures var r := Move(walls, tile, radius, speed, dt, k);
      && r.yVel == 0
      && r.y == Snap(k.y, radius, tile)
      && (r.y / tile).Floor == (k.y / tile).Floor
  {
    var rc := Recheck(walls, tile, radius, speed, dt, k);
    assert rc.yVel == 0 && rc.y == Snap(k.y, radius, tile);
    assert Displacement(rc.yVel, speed, dt) == 0.0;
    SnapStaysInTile(k.y, radius, tile);
  }

  /** Snapping moves a coordinate by more than radius - tile and at most radius. */
  lemma SnapShift(c: real, radius: real, tile: real)
    requires tile > 0.0
    ensures radius - tile < Snap(c, radius, tile) - c <= radius
  {
    FloorTile(c, tile);
  }

  /** No tunnelling: for a body whose radius is at most one tile, a frame changes
      each coordinate by less than two tiles, however long the frame. */
  lemma {:induction false} MoveIsBounded(walls: Box -> bool, tile: real, radius: real, speed: real, dt: real, k: Body)
    requires tile > 0.0 && 0.0 <= radius <= tile
    ensures var r := Move(walls, tile, radius, speed, dt, k);
      Abs(r.x - k.x) < 2.0 * tile && Abs(r.y - k.y) < 2.0 * tile
  {
    SnapShift(k.x, radius, tile);
    SnapShift(k.y, radius, tile);
  }

  // ---------------------------------------------------------------------------
  // Random wander of the enemies
  // ---------------------------------------------------------------------------

  /** Turning toward d would reverse the current velocity on d's axis. */
  predicate Reverses(k: Body, d: Dir)
  {
    match d
    case Left => k.xVel == 1
    case Right => k.xVel == -1
    case Up => k.yVel == 1
    case Down => k.yVel == -1
  }

  /** Position of a direction in the order the candidates are collected. */
  function Rank(d: Dir): nat
  {
    match d
    case Left => 0
    case Right => 1
    case Up => 2
    case Down => 3
  }

  /** The directions an enemy may take: those that do not reverse it and whose
      lookahead box is clear, in the order left, right, up, down. */
  function Candidates(walls: Box -> bool, tile: real, radius: real, speed: real, dt: real, k: Body): seq<Dir>
    requires tile > 0.0
  {
    Consider(walls, tile, radius, speed, dt, k, Left) + Consider(walls, tile, radius, speed, dt, k, Right)
    + Consider(walls, tile, radius, speed, dt, k, Up) + Consider(walls, tile, radius, speed, dt, k, Down)
  }

  /** The candidates are exactly the clear directions that do not reverse the
      body, each once, in the order left, right, up, down. */
  lemma CandidatesAreClearTurns(walls: Box -> bool, tile: real, radius: real, speed: real, dt: real, k: Body)
    requires tile > 0.0
    ensures var ds := Candidates(walls, tile, radius, speed, dt, k);
      && (forall d :: d in ds <==> !Reverses(k, d) && !walls(Lookahead(k, radius, speed, dt, d)))
      && (forall i, j :: 0 <= i < j < |ds| ==> Rank(ds[i]) < Rank(ds[j]))
  {
  }

  /** [d] when d is a candidate, [] otherwise. */
  function Consider(walls: Box -> bool, tile: real, radius: real, speed: real, dt: real, k: Body, d: Dir): (ds: seq<Dir>)
    requires tile > 0.0
    ensures ds == [] || ds == [d]
    ensures ds == [d] <==> !Reverses(k, d) && !walls(Lookahead(k, radius, speed, dt, d))
  {
    if !Reverses(k, d) && !walls(Lookahead(k, radius, speed, dt, d)) then [d] else []
  }

  /** ds[floor(random * |ds|)], or nothing when ds is empty. */
  function Pick(ds: seq<Dir>, random: real): (d: Option<Dir>)
    requires 0.0 <= random < 1.0
    ensures d.Some? <==> |ds| > 0
    ensures d.Some? ==> d.value in ds
  {
    if |ds| == 0 then None
    else
      var n := |ds| as real;
      assert (1.0 - random) * n > 0.0;
      Some(ds[(random * n).Floor])
  }

  /** Every candidate is picked for some value of the random number. */
  lemma EveryCandidateCanBePicked(ds: seq<Dir>, i: nat)
    requires i < |ds|
    ensures var random := i as real / |ds| as real;
      0.0 <= random < 1.0 && Pick(ds, random) == Some(ds[i])
  {
    var n := |ds| as real;
    assert (i as real / n) * n == i as real;
  }

  /** The wander step: turn toward a randomly picked candidate, or keep going when
      there is none. */
  function Wander(walls: Box -> bool, tile: real, radius: real, speed: real, dt: real, k: Body, random: real): Body
    requires tile > 0.0 && 0.0 <= random < 1.0
  {
    match Pick(Candidates(walls, tile, radius, speed, dt, k), random)
    case None => k
    case Some(d) => Steer(k, d)
  }

  /** Without candidates the body keeps going; otherwise it turns toward one of
      them. */
  lemma WanderTakesACandidate(walls: Box -> bool, tile: real, radius: real, speed: real, dt: real, k: Body, random: real)
    requires tile > 0.0 && 0.0 <= random < 1.0
    ensures var ds := Candidates(walls, tile, radius, speed, dt, k);
      var r := Wander(walls, tile, radius, speed, dt, k, random);
      && (|ds| == 0 ==> r == k)
      && (|ds| > 0 ==> exists d :: d in ds && r == Steer(k, d))
  {
  }

  /** Wandering never turns an enemy back the way it came, never stops it, and
      turns it only toward a direction whose lookahead box is clear. */
  lemma WanderNeverReverses(walls: Box -> bool, tile: real, radius: real, speed: real, dt: real, k: Body, random: real)
    requires tile > 0.0 && 0.0 <= random < 1.0 && UnitVelocity(k)
    ensures var r := Wander(walls, tile, radius, speed, dt, k, random);
      && r.x == k.x && r.y == k.y && UnitVelocity(r)
      && (k.xVel != 0 ==> r.xVel != -k.xVel)
      && (k.yVel != 0 ==> r.yVel != -k.yVel)
      && (k.xVel != 0 ==> r.xVel != 0)
      && (k.yVel != 0 ==> r.yVel != 0)
      && (r != k ==> exists d :: r == Steer(k, d) && !walls(Lookahead(k, radius, speed, dt, d)))
  {
    var ds := Candidates(walls, tile, radius, speed, dt, k);
    CandidatesAreClearTurns(walls, tile, radius, speed, dt, k);
    match Pick(ds, random)
    case None =>
    case Some(d) =>
      assert !Reverses(k, d) && !walls(Lookahead(k, radius, speed, dt, d));
  }

  // ---------------------------------------------------------------------------
  // Key steering without queued input (pacman and main.js)
  // ---------------------------------------------------------------------------

  /** Left wins over right and up over down; a key turns the body only when the
      lookahead box in its direction is clear. */
  function SteerByKeys(walls: Box -> bool, tile: real, radius: real, speed: real, dt: real, k: Body, keys: Keys): Body
    requires tile > 0.0
  {
    var kx :=
      if keys.left && !walls(Lookahead(k, radius, speed, dt, Left)) then Steer(k, Left)
      else if keys.right && !walls(Lookahead(k, radius, speed, dt, Right)) then Steer(k, Right)
      else k;
    if keys.up && !walls(Lookahead(kx, radius, speed, dt, Up)) then Steer(kx, Up)
    else if keys.down && !walls(Lookahead(kx, radius, speed, dt, Down)) then Steer(kx, Down)
    else kx
  }

  /** Steering never moves the body, releasing every arrow key keeps the current
      velocity, and a velocity changes only toward a held key whose direction is
      clear. */
  lemma SteerByKeysOnlyIntoClear(walls: Box -> bool, tile: real, radius: real, speed: real, dt: real, k: Body, keys: Keys)
    requires tile > 0.0
    ensures var r := SteerByKeys(walls, tile, radius, speed, dt, k, keys);
      && r.x == k.x && r.y == k.y
      && (!keys.left && !keys.right && !keys.up && !keys.down ==> r == k)
      && (r.xVel != k.xVel ==>
            || (r.xVel == -1 && keys.left && !walls(Lookahead(k, radius, speed, dt, Left)))
            || (r.xVel == 1 && keys.right && !walls(Lookahead(k, radius, speed, dt, Right))))
      && (r.yVel != k.yVel ==>
            || (r.yVel == -1 && keys.up && !walls(Lookahead(k, radius, speed, dt, Up)))
            || (r.yVel == 1 && keys.down && !walls(Lookahead(k, radius, speed, dt, Down))))
  {
  }

  /** On each axis, a held key whose direction is clear sets that axis's velocity,
      left winning over right and up over down, whatever happens on the other
      axis. */
  lemma SteerByKeysTakesClearKey(walls: Box -> bool, tile: real, radius: real, speed: real, dt: real, k: Body, keys: Keys)
    requires tile > 0.0
    ensures var r := SteerByKeys(walls, tile, radius, speed, dt, k, keys);
      var leftWins := keys.left && !walls(Lookahead(k, radius, speed, dt, Left));
      var upWins := keys.up && !walls(Lookahead(k, radius, speed, dt, Up));
      && (leftWins ==> r.xVel == -1)
      && (!leftWins && keys.right && !walls(Lookahead(k, radius, speed, dt, Right)) ==> r.xVel == 1)
      && (upWins ==> r.yVel == -1)
      && (!upWins && keys.down && !walls(Lookahead(k, radius, speed, dt, Down)) ==> r.yVel == 1)
  {
  }

  /** With both keys of an axis held and both directions clear, left and up win. */
  lemma SteerByKeysPrefersLeftAndUp(walls: Box -> bool, tile: real, radius: real, speed: real, dt: real, k: Body, keys: Keys)
    requires tile > 0.0 && keys.left && keys.up
    requires !walls(Lookahead(k, radius, speed, dt, Left))
    requires !walls(Lookahead(k, radius, speed, dt, Up))
    ensures SteerByKeys(walls, tile, radius, speed, dt, k, keys).xVel == -1
    ensures SteerByKeys(walls, tile, radius, speed, dt, k, keys).yVel == -1
  {
  }
}
