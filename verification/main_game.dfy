/**
  The first revision of the chase game (main.js): a player steered by the arrow
  keys with left-over-right and up-over-down priority and no queued input,
  enemies that only wander, a fixed view and no lives. Its map is the pattern
  text split at line breaks, whose line 0 is blank, so that line l holds world
  row l - 1; its wall query scans a window of that pattern without clamping.

  As for the later revisions, each per-frame step is a pure function over plain
  bodies, about which the lemmas speak, and a class method that updates the fields
  as the source does and promises to agree with that function.
*/
module MainGame {
  import opened Arith
  import opened TileMap
  import opened Motion

  const TILE_SIZE: real := 20.0
  /** Player and enemies are circles of half a tile. */
  const RADIUS: real := TILE_SIZE / 2.0
  /** Player and enemies move 150 pixels per second. */
  const SPEED: real := 150.0
  const PLAYER_MARK: char := 'P'
  const ENEMY_MARK: char := 'E'

  /** A playable map pattern: a blank line, then a rectangular grid of at least
      3 x 3, with a player cell. */
  predicate IsLevel(lines: seq<seq<char>>)
  {
    IsPattern(lines) && HasMarker(lines, PLAYER_MARK, 1)
  }

  /** collisionWithMap is exact for the boxes the game asks about while a body
      keeps right of column 0 and below the top edge: a box at most two tiles wide
      and one tile high hits a wall exactly when some wall cell of the map
      overlaps it. */
  lemma CollisionWithMapIsExact(lines: seq<seq<char>>, b: Box)
    requires IsPattern(lines) && b.x > 0.0 && b.y >= 0.0
    requires b.w <= 2.0 * TILE_SIZE && b.h <= TILE_SIZE
    ensures Shifted(lines, TILE_SIZE).Collides(b) <==> exists r, c :: WallOverlaps(lines[1..], TILE_SIZE, b, r, c)
  {
    CollisionWithLinesIsExact(lines, TILE_SIZE, b);
  }

  // ---------------------------------------------------------------------------
  // One frame on plain values
  // ---------------------------------------------------------------------------

  /** player.update(): the arrow keys, the re-check of both axes, the guarded move. */
  function PlayerFrame(walls: Box -> bool, k: Body, keys: Keys, dt: real): Body
  {
    Move(walls, TILE_SIZE, RADIUS, SPEED, dt, SteerByKeys(walls, TILE_SIZE, RADIUS, SPEED, dt, k, keys))
  }

  /** A frame keeps the velocity a unit direction and moves the player less than
      two tiles per axis; a velocity that changes to a direction that is not
      zero does so only toward a held key whose lookahead box is clear; with no
      arrow key held, the player keeps its velocity or stops at a wall. */
  lemma PlayerFrameTurnsOnlyIntoClear(walls: Box -> bool, k: Body, keys: Keys, dt: real)
    requires UnitVelocity(k)
    ensures var r := PlayerFrame(walls, k, keys, dt);
      && UnitVelocity(r)
      && Abs(r.x - k.x) < 2.0 * TILE_SIZE && Abs(r.y - k.y) < 2.0 * TILE_SIZE
      && (r.xVel != 0 && r.xVel != k.xVel ==>
            || (r.xVel == -1 && keys.left && !walls(Lookahead(k, RADIUS, SPEED, dt, Left)))
            || (r.xVel == 1 && keys.right && !walls(Lookahead(k, RADIUS, SPEED, dt, Right))))
      && (r.yVel != 0 && r.yVel != k.yVel ==>
            || (r.yVel == -1 && keys.up && !walls(Lookahead(k, RADIUS, SPEED, dt, Up)))
            || (r.yVel == 1 && keys.down && !walls(Lookahead(k, RADIUS, SPEED, dt, Down))))
      && (!keys.left && !keys.right && !keys.up && !keys.down ==>
            (r.xVel == 0 || r.xVel == k.xVel) && (r.yVel == 0 || r.yVel == k.yVel))
  {
    var s := SteerByKeys(walls, TILE_SIZE, RADIUS, SPEED, dt, k, keys);
    SteerByKeysOnlyIntoClear(walls, TILE_SIZE, RADIUS, SPEED, dt, k, keys);
    assert UnitVelocity(s);
    MoveKeepsOnlyClearVelocities(walls, TILE_SIZE, RADIUS, SPEED, dt, s);
    MoveIsBounded(walls, TILE_SIZE, RADIUS, SPEED, dt, s);
  }

  /** Enemy.update(): wander, then the re-check of both axes and the guarded move. */
  function EnemyFrame(walls: Box -> bool, k: Body, dt: real, random: real): Body
    requires 0.0 <= random < 1.0
  {
    Move(walls, TILE_SIZE, RADIUS, SPEED, dt, Wander(walls, TILE_SIZE, RADIUS, SPEED, dt, k, random))
  }

  /** A frame keeps an enemy's velocity a unit direction, never turns it back the
      way it came, and moves it less than two tiles per axis. */
  lemma EnemyFrameNeverTurnsBack(walls: Box -> bool, k: Body, dt: real, random: real)
    requires UnitVelocity(k) && 0.0 <= random < 1.0
    ensures var r := EnemyFrame(walls, k, dt, random);
      && UnitVelocity(r)
      && (k.xVel != 0 ==> r.xVel != -k.xVel)
      && (k.yVel != 0 ==> r.yVel != -k.yVel)
      && Abs(r.x - k.x) < 2.0 * TILE_SIZE && Abs(r.y - k.y) < 2.0 * TILE_SIZE
  {
    var w := Wander(walls, TILE_SIZE, RADIUS, SPEED, dt, k, random);
    WanderNeverReverses(walls, TILE_SIZE, RADIUS, SPEED, dt, k, random);
    MoveKeepsOnlyClearVelocities(walls, TILE_SIZE, RADIUS, SPEED, dt, w);
    MoveIsBounded(walls, TILE_SIZE, RADIUS, SPEED, dt, w);
  }

  /** Every enemy of the list takes its frame, each with its own random number. */
  function EnemiesFrame(walls: Box -> bool, es: seq<Body>, dt: real, randoms: seq<real>): (r: seq<Body>)
    requires |randoms| == |es| && forall i :: 0 <= i < |randoms| ==> 0.0 <= randoms[i] < 1.0
    ensures |r| == |es|
  {
    seq(|es|, i requires 0 <= i < |es| => EnemyFrame(walls, es[i], dt, randoms[i]))
  }

  // ---------------------------------------------------------------------------
  // The world of a frame
  // ---------------------------------------------------------------------------

  datatype Round = Round(player: Body, enemies: seq<Body>)

  /** Every body moves in a unit direction. */
  predicate WorldInv(w: Round)
  {
    UnitVelocity(w.player) && forall i :: 0 <= i < |w.enemies| ==> UnitVelocity(w.enemies[i])
  }

  /** Where the player starts: the centre of the first 'P' cell in row-major order. */
  function PlayerStart(lines: seq<seq<char>>): Body
    requires HasMarker(lines, PLAYER_MARK, 1)
  {
    AtCentre(FirstMarker(lines, PLAYER_MARK, 1), TILE_SIZE)
  }

  /** The enemies at the start: one per 'E' cell, in row-major order. */
  function InitialEnemies(lines: seq<seq<char>>): (es: seq<Body>)
    ensures |es| == |Coordinates(lines, ENEMY_MARK, 1)|
  {
    var cs := Coordinates(lines, ENEMY_MARK, 1);
    seq(|cs|, i requires 0 <= i < |cs| => AtCentre(cs[i], TILE_SIZE))
  }

  /** There is exactly one enemy per 'E' cell, at the centre of that cell and at
      rest, and the enemies are listed in row-major order of their cells. */
  lemma InitialEnemiesOnMarkers(lines: seq<seq<char>>)
    ensures var es := InitialEnemies(lines);
      && (forall c :: Marked(lines, ENEMY_MARK, 1, c) <==> AtCentre(c, TILE_SIZE) in es)
      && (forall i :: 0 <= i < |es| ==> es[i].xVel == 0 && es[i].yVel == 0)
      && (forall i, j :: 0 <= i < j < |es| ==> es[i].y < es[j].y || (es[i].y == es[j].y && es[i].x < es[j].x))
  {
    var cs := Coordinates(lines, ENEMY_MARK, 1);
    var es := InitialEnemies(lines);
    CoordinatesSpec(lines, ENEMY_MARK, 1);
    forall c
      ensures Marked(lines, ENEMY_MARK, 1, c) <==> AtCentre(c, TILE_SIZE) in es
    {
      if Marked(lines, ENEMY_MARK, 1, c) {
        var i :| 0 <= i < |cs| && cs[i] == c;
        assert es[i] == AtCentre(c, TILE_SIZE);
      }
      if AtCentre(c, TILE_SIZE) in es {
        var i :| 0 <= i < |es| && es[i] == AtCentre(c, TILE_SIZE);
        assert cs[i] in cs;
        assert cs[i] == c;
      }
    }
  }

  /** The start of the game. */
  function InitialWorld(lines: seq<seq<char>>): (w: Round)
    requires HasMarker(lines, PLAYER_MARK, 1)
    ensures WorldInv(w)
  {
    Round(PlayerStart(lines), InitialEnemies(lines))
  }

  /** One frame of the game loop: player.update(), then every enemy's update(). */
  function Tick(lines: seq<seq<char>>, w: Round, keys: Keys, dt: real, randoms: seq<real>): Round
    requires IsLevel(lines) && |randoms| == |w.enemies|
    requires forall i :: 0 <= i < |randoms| ==> 0.0 <= randoms[i] < 1.0
  {
    var walls := Shifted(lines, TILE_SIZE).Walls();
    Round(PlayerFrame(walls, w.player, keys, dt), EnemiesFrame(walls, w.enemies, dt, randoms))
  }

  /** A frame keeps every velocity a unit direction and the number of enemies,
      turns no enemy back the way it came, and moves no body two tiles or more
      along an axis. */
  lemma TickKeepsInv(lines: seq<seq<char>>, w: Round, keys: Keys, dt: real, randoms: seq<real>)
    requires IsLevel(lines) && |randoms| == |w.enemies|
    requires forall i :: 0 <= i < |randoms| ==> 0.0 <= randoms[i] < 1.0
    requires WorldInv(w)
    ensures var t := Tick(lines, w, keys, dt, randoms);
      && WorldInv(t) && |t.enemies| == |w.enemies|
      && Abs(t.player.x - w.player.x) < 2.0 * TILE_SIZE && Abs(t.player.y - w.player.y) < 2.0 * TILE_SIZE
      && forall i :: 0 <= i < |w.enemies| ==>
           && (w.enemies[i].xVel != 0 ==> t.enemies[i].xVel != -w.enemies[i].xVel)
           && (w.enemies[i].yVel != 0 ==> t.enemies[i].yVel != -w.enemies[i].yVel)
  {
    var walls := Shifted(lines, TILE_SIZE).Walls();
    PlayerFrameTurnsOnlyIntoClear(walls, w.player, keys, dt);
    forall i | 0 <= i < |w.enemies|
      ensures var r := EnemyFrame(walls, w.enemies[i], dt, randoms[i]);
        && UnitVelocity(r)
        && (w.enemies[i].xVel != 0 ==> r.xVel != -w.enemies[i].xVel)
        && (w.enemies[i].yVel != 0 ==> r.yVel != -w.enemies[i].yVel)
    {
      EnemyFrameNeverTurnsBack(walls, w.enemies[i], dt, randoms[i]);
    }
  }

  // ---------------------------------------------------------------------------
  // The objects of the game
  // ---------------------------------------------------------------------------

  class Player {
    const lines: seq<seq<char>>
    const level: Arena
    const radius: real
    const speed: real
    var x: real
    var y: real
    var xVel: int
    var yVel: int

    function Body(): Motion.Body
      reads this
    {
      Motion.Body(x, y, xVel, yVel)
    }

    ghost predicate Valid()
      reads this
    {
      && IsLevel(lines) && level == Shifted(lines, TILE_SIZE)
      && radius == RADIUS && speed == SPEED
      && UnitVelocity(Body())
    }

    /** The player object: at the centre of the first 'P' cell, at rest. */
    constructor (lines: seq<seq<char>>)
      requires IsLevel(lines)
      ensures Valid() && this.lines == lines
      ensures Body() == PlayerStart(lines)
    {
      this.lines := lines;
      level := Shifted(lines, TILE_SIZE);
      radius := RADIUS;
      speed := SPEED;
      var c := FirstMarker(lines, PLAYER_MARK, 1);
      x := c.x as real * TILE_SIZE + TILE_SIZE / 2.0;
      y := c.y as real * TILE_SIZE + TILE_SIZE / 2.0;
      xVel := 0;
      yVel := 0;
    }

    /** The arrow keys of update(): left before right, up before down, each only
        when its lookahead box is clear. */
    method SteerStep(walls: Box -> bool, keys: Keys, dt: real)
      requires radius == RADIUS && speed == SPEED
      modifies this
      ensures Body() == SteerByKeys(walls, TILE_SIZE, RADIUS, SPEED, dt, old(Body()), keys)
    {
      if keys.left && !walls(Rect(x, y, radius, -speed * dt, 0.0)) {
        xVel := -1;
      } else if keys.right && !walls(Rect(x, y, radius, speed * dt, 0.0)) {
        xVel := 1;
      }
      if keys.up && !walls(Rect(x, y, radius, 0.0, -speed * dt)) {
        yVel := -1;
      } else if keys.down && !walls(Rect(x, y, radius, 0.0, speed * dt)) {
        yVel := 1;
      }
    }

    /** The re-check of update(): an axis whose one-step box hits a wall is
        snapped and stopped, first x, then y. */
    method RecheckAxes(walls: Box -> bool, dt: real)
      requires radius == RADIUS && speed == SPEED
      modifies this
      ensures Body() == Recheck(walls, TILE_SIZE, RADIUS, SPEED, dt, old(Body()))
    {
      if walls(Rect(x, y, radius, Displacement(xVel, speed, dt), 0.0)) {
        x := Snap(x, radius, TILE_SIZE);
        xVel := 0;
      }
      if walls(Rect(x, y, radius, 0.0, Displacement(yVel, speed, dt))) {
        y := Snap(y, radius, TILE_SIZE);
        yVel := 0;
      }
    }

    /** The guarded move of update(). */
    method ApplyMove(dt: real)
      requires speed == SPEED
      modifies this
      ensures Body() == Advance(TILE_SIZE, SPEED, dt, old(Body()))
    {
      var moveX := Displacement(xVel, speed, dt);
      var moveY := Displacement(yVel, speed, dt);
      if Abs(moveX) < TILE_SIZE && Abs(moveY) < TILE_SIZE {
        x := x + moveX;
        y := y + moveY;
      }
    }

    /** update(). */
    method Update(keys: Keys, dt: real)
      requires Valid()
      modifies this
      ensures Valid()
      ensures Body() == PlayerFrame(level.Walls(), old(Body()), keys, dt)
    {
      PlayerFrameTurnsOnlyIntoClear(level.Walls(), Body(), keys, dt);
      var walls := level.Walls();
      SteerStep(walls, keys, dt);
      RecheckAxes(walls, dt);
      ApplyMove(dt);
    }
  }

  class Enemy {
    const level: Arena
    const radius: real
    const speed: real
    var x: real
    var y: real
    var xVel: int
    var yVel: int

    function Body(): Motion.Body
      reads this
    {
      Motion.Body(x, y, xVel, yVel)
    }

    ghost predicate Valid()
      reads this
    {
      && level.Shifted? && level.Valid() && level.tile == TILE_SIZE
      && radius == RADIUS && speed == SPEED
      && UnitVelocity(Body())
    }

    /** new Enemy(x, y): at the centre of the tile whose top-left corner is
        (x, y), at rest. */
    constructor (level: Arena, x: real, y: real)
      requires level.Shifted? && level.Valid() && level.tile == TILE_SIZE
      ensures Valid() && this.level == level
      ensures Body() == Motion.Body(x + TILE_SIZE / 2.0, y + TILE_SIZE / 2.0, 0, 0)
    {
      this.level := level;
      radius := RADIUS;
      speed := SPEED;
      this.x := x + TILE_SIZE / 2.0;
      this.y := y + TILE_SIZE / 2.0;
      xVel := 0;
      yVel := 0;
    }

    /** The candidate list of update(), filled in the order left, right, up, down. */
    method CollectNextDirs(walls: Box -> bool, dt: real) returns (nextDir: seq<Dir>)
      requires radius == RADIUS && speed == SPEED
      ensures nextDir == Candidates(walls, TILE_SIZE, RADIUS, SPEED, dt, Body())
    {
      ghost var k := Body();
      nextDir := [];
      if xVel != 1 && !walls(Rect(x, y, radius, -speed * dt, 0.0)) {
        nextDir := nextDir + [Left];
      }
      assert nextDir == Consider(walls, TILE_SIZE, RADIUS, SPEED, dt, k, Left);
      if xVel != -1 && !walls(Rect(x, y, radius, speed * dt, 0.0)) {
        nextDir := nextDir + [Right];
      }
      assert nextDir == Consider(walls, TILE_SIZE, RADIUS, SPEED, dt, k, Left)
        + Consider(walls, TILE_SIZE, RADIUS, SPEED, dt, k, Right);
      if yVel != 1 && !walls(Rect(x, y, radius, 0.0, -speed * dt)) {
        nextDir := nextDir + [Up];
      }
      assert nextDir == Consider(walls, TILE_SIZE, RADIUS, SPEED, dt, k, Left)
        + Consider(walls, TILE_SIZE, RADIUS, SPEED, dt, k, Right)
        + Consider(walls, TILE_SIZE, RADIUS, SPEED, dt, k, Up);
      if yVel != -1 && !walls(Rect(x, y, radius, 0.0, speed * dt)) {
        nextDir := nextDir + [Down];
      }
    }

    /** The random turn of update(): toward the candidate at
        floor(random * count), when there is one. */
    method WanderStep(walls: Box -> bool, dt: real, random: real)
      requires radius == RADIUS && speed == SPEED && 0.0 <= random < 1.0
      modifies this
      ensures Body() == Wander(walls, TILE_SIZE, RADIUS, SPEED, dt, old(Body()), random)
    {
      var nextDir := CollectNextDirs(walls, dt);
      match Pick(nextDir, random) {
        case None =>
        case Some(Left) => xVel := -1;
        case Some(Right) => xVel := 1;
        case Some(Up) => yVel := -1;
        case Some(Down) => yVel := 1;
      }
    }

    /** The re-check of update(). */
    method RecheckAxes(walls: Box -> bool, dt: real)
      requires radius == RADIUS && speed == SPEED
      modifies this
      ensures Body() == Recheck(walls, TILE_SIZE, RADIUS, SPEED, dt, old(Body()))
    {
      if walls(Rect(x, y, radius, Displacement(xVel, speed, dt), 0.0)) {
        x := Snap(x, radius, TILE_SIZE);
        xVel := 0;
      }
      if walls(Rect(x, y, radius, 0.0, Displacement(yVel, speed, dt))) {
        y := Snap(y, radius, TILE_SIZE);
        yVel := 0;
      }
    }

    /** The guarded move of update(). */
    method ApplyMove(dt: real)
      requires speed == SPEED
      modifies this
      ensures Body() == Advance(TILE_SIZE, SPEED, dt, old(Body()))
    {
      var moveX := Displacement(xVel, speed, dt);
      var moveY := Displacement(yVel, speed, dt);
      if Abs(moveX) < TILE_SIZE && Abs(moveY) < TILE_SIZE {
        x := x + moveX;
        y := y + moveY;
      }
    }

    /** update(). */
    method Update(dt: real, random: real)
      requires Valid() && 0.0 <= random < 1.0
      modifies this
      ensures Valid()
      ensures Body() == EnemyFrame(level.Walls(), old(Body()), dt, random)
    {
      EnemyFrameNeverTurnsBack(level.Walls(), Body(), dt, random);
      var walls := level.Walls();
      WanderStep(walls, dt, random);
      RecheckAxes(walls, dt);
      ApplyMove(dt);
    }
  }

  class Game {
    const lines: seq<seq<char>>
    const player: Player
    const enemies: seq<Enemy>

    function Bodies(): (bs: seq<Motion.Body>)
      reads enemies
      ensures |bs| == |enemies| && forall i :: 0 <= i < |enemies| ==> bs[i] == enemies[i].Body()
    {
      seq(|enemies|, i reads enemies requires 0 <= i < |enemies| => enemies[i].Body())
    }

    function World(): Round
      reads player, enemies
    {
      Round(player.Body(), Bodies())
    }

    ghost predicate Valid()
      reads player, enemies
    {
      && IsLevel(lines)
      && player.Valid() && player.lines == lines
      && (forall i, j :: 0 <= i < j < |enemies| ==> enemies[i] != enemies[j])
      && (forall i :: 0 <= i < |enemies| ==> enemies[i].level == Shifted(lines, TILE_SIZE) && enemies[i].Valid())
    }

    /** The start of the game: the player, one enemy per 'E' cell (filled in a
        loop over coordinatesOnMap("E")). */
    constructor (lines: seq<seq<char>>)
      requires IsLevel(lines)
      ensures Valid() && this.lines == lines
      ensures World() == InitialWorld(lines)
    {
      this.lines := lines;
      player := new Player(lines);
      var list := NewEnemies(lines);
      enemies := list;
      new;
      assert Bodies() == InitialEnemies(lines);
    }

    /** The loop of the start of the game: a new enemy at the top-left corner of
        each 'E' cell, in row-major order. */
    static method NewEnemies(lines: seq<seq<char>>) returns (list: seq<Enemy>)
      requires IsPattern(lines)
      ensures |list| == |Coordinates(lines, ENEMY_MARK, 1)|
      ensures forall j, k :: 0 <= j < k < |list| ==> list[j] != list[k]
      ensures forall j :: 0 <= j < |list| ==> fresh(list[j])
      ensures forall j :: 0 <= j < |list| ==>
        list[j].level == Shifted(lines, TILE_SIZE) && list[j].Valid()
        && list[j].Body() == InitialEnemies(lines)[j]
    {
      var level := Shifted(lines, TILE_SIZE);
      var cs := Coordinates(lines, ENEMY_MARK, 1);
      list := [];
      var i := 0;
      while i < |cs|
        invariant 0 <= i <= |cs| && |list| == i
        invariant forall j, k :: 0 <= j < k < i ==> list[j] != list[k]
        invariant forall j :: 0 <= j < i ==> fresh(list[j])
        invariant forall j :: 0 <= j < i ==>
          list[j].level == level && list[j].Valid() && list[j].Body() == AtCentre(cs[j], TILE_SIZE)
      {
        var e := new Enemy(level, cs[i].x as real * TILE_SIZE, cs[i].y as real * TILE_SIZE);
        list := list + [e];
        i := i + 1;
      }
    }

    /** After the first n enemies' update(): those took their frame, the others
        are as they were, and all are still valid. */
    ghost predicate UpdatedFirst(walls: Box -> bool, es: seq<Motion.Body>, dt: real, randoms: seq<real>, n: nat)
      reads enemies
    {
      && IsLevel(lines)
      && walls == Shifted(lines, TILE_SIZE).Walls()
      && n <= |es| == |randoms| == |enemies|
      && (forall i :: 0 <= i < |randoms| ==> 0.0 <= randoms[i] < 1.0)
      && (forall i, j :: 0 <= i < j < |enemies| ==> enemies[i] != enemies[j])
      && (forall i :: 0 <= i < |enemies| ==> enemies[i].level == Shifted(lines, TILE_SIZE) && enemies[i].Valid())
      && (forall i :: 0 <= i < n ==> enemies[i].Body() == EnemyFrame(walls, es[i], dt, randoms[i]))
      && (forall i :: n <= i < |enemies| ==> enemies[i].Body() == es[i])
    }

    /** for (const enemy of enemies) enemy.update(). */
    method UpdateEnemies(dt: real, randoms: seq<real>)
      requires Valid() && |randoms| == |enemies| && forall i :: 0 <= i < |randoms| ==> 0.0 <= randoms[i] < 1.0
      modifies enemies
      ensures Valid()
      ensures Bodies() == EnemiesFrame(Shifted(lines, TILE_SIZE).Walls(), old(Bodies()), dt, randoms)
    {
      ghost var walls := Shifted(lines, TILE_SIZE).Walls();
      ghost var es := Bodies();
      var i := 0;
      while i < |enemies|
        invariant i <= |enemies| && UpdatedFirst(walls, es, dt, randoms, i)
      {
        UpdateNext(dt, randoms, i, walls, es);
        i := i + 1;
      }
    }

    /** One turn of the loop over the enemies. */
    method UpdateNext(dt: real, randoms: seq<real>, n: nat, ghost walls: Box -> bool, ghost es: seq<Motion.Body>)
      requires n < |enemies| && UpdatedFirst(walls, es, dt, randoms, n)
      modifies enemies
      ensures UpdatedFirst(walls, es, dt, randoms, n + 1)
    {
      var e := enemies[n];
      e.Update(dt, randoms[n]);
      forall i | 0 <= i < |enemies| && i != n
        ensures enemies[i].Body() == old(enemies[i].Body()) && enemies[i].Valid()
      {
        assert enemies[i] != e;
      }
    }

    /** main(): player.update(), then every enemy's update(). */
    method Frame(keys: Keys, dt: real, randoms: seq<real>)
      requires Valid() && |randoms| == |enemies| && forall i :: 0 <= i < |randoms| ==> 0.0 <= randoms[i] < 1.0
      modifies player, enemies
      ensures Valid()
      ensures World() == Tick(lines, old(World()), keys, dt, randoms)
    {
      player.Update(keys, dt);
      UpdateEnemies(dt, randoms);
    }
  }
}
