/**
  The second revision of the chase game (pacman/main.js): a player steered by the
  arrow keys with left-over-right and up-over-down priority and no queued input,
  enemies that only wander, and a camera that is snapped onto the player and kept
  inside the map. There are no lives: enemies and player do not interact.

  As for the latest revision, each per-frame step is a pure function over plain
  bodies, about which the lemmas speak, and a class method that updates the fields
  as the source does and promises to agree with that function.
*/
module PacmanGame {
  import opened Arith
  import opened TileMap
  import opened Motion
  import opened Viewport

  const SCREEN_WIDTH: real := 800.0
  const SCREEN_HEIGHT: real := 600.0
  const TILE_SIZE: real := 30.0
  /** Player and enemies are circles of half a tile. */
  const RADIUS: real := TILE_SIZE / 2.0
  /** Player and enemies move 200 pixels per second. */
  const SPEED: real := 200.0
  const PLAYER_MARK: char := 'P'
  const ENEMY_MARK: char := 'E'

  /** A playable map: rectangular, at least 3 x 3, with a player cell. */
  predicate IsLevel(rows: seq<seq<char>>)
  {
    IsGrid(rows) && HasMarker(rows, PLAYER_MARK, 0)
  }

  /** collisionWithMap is exact for every box the game asks about: a box at most
      two tiles wide and high hits a wall exactly when some wall cell of the map
      overlaps it. */
  lemma CollisionWithMapIsExact(rows: seq<seq<char>>, b: Box)
    requires IsGrid(rows) && b.w <= 2.0 * TILE_SIZE && b.h <= 2.0 * TILE_SIZE
    ensures Clamped(rows, TILE_SIZE).Collides(b) <==> exists r, c :: WallOverlaps(rows, TILE_SIZE, b, r, c)
  {
    CollisionWithIsExact(rows, TILE_SIZE, b);
  }

  // ---------------------------------------------------------------------------
  // One frame on plain values
  // ---------------------------------------------------------------------------

  /** player.update(): the arrow keys, the re-check of both axes, the guarded move. */
  function PlayerFrame(walls: Box -> bool, k: Body, keys: Keys, dt: real): Body
  {
    Move(walls, TILE_SIZE, RADIUS, SPEED, dt, SteerByKeys(walls, TILE_SIZE, RADIUS, SPEED, dt, k, keys))
  }

  /** A frame keeps the velocity a unit direction and moves the player less than
      two tiles per axis; a velocity that changes to a direction that is not
      zero does so only toward a held key whose lookahead box is clear; with no
      arrow key held, the player keeps its velocity or stops at a wall. */
  lemma PlayerFrameTurnsOnlyIntoClear(walls: Box -> bool, k: Body, keys: Keys, dt: real)
    requires UnitVelocity(k)
    ensures var r := PlayerFrame(walls, k, keys, dt);
      && UnitVelocity(r)
      && Abs(r.x - k.x) < 2.0 * TILE_SIZE && Abs(r.y - k.y) < 2.0 * TILE_SIZE
      && (r.xVel != 0 && r.xVel != k.xVel ==>
            || (r.xVel == -1 && keys.left && !walls(Lookahead(k, RADIUS, SPEED, dt, Left)))
            || (r.xVel == 1 && keys.right && !walls(Lookahead(k, RADIUS, SPEED, dt, Right))))
      && (r.yVel != 0 && r.yVel != k.yVel ==>
            || (r.yVel == -1 && keys.up && !walls(Lookahead(k, RADIUS, SPEED, dt, Up)))
            || (r.yVel == 1 && keys.down && !walls(Lookahead(k, RADIUS, SPEED, dt, Down))))
      && (!keys.left && !keys.right && !keys.up && !keys.down ==>
            (r.xVel == 0 || r.xVel == k.xVel) && (r.yVel == 0 || r.yVel == k.yVel))
  {
    var s := SteerByKeys(walls, TILE_SIZE, RADIUS, SPEED, dt, k, keys);
    SteerByKeysOnlyIntoClear(walls, TILE_SIZE, RADIUS, SPEED, dt, k, keys);
    assert UnitVelocity(s);
    MoveKeepsOnlyClearVelocities(walls, TILE_SIZE, RADIUS, SPEED, dt, s);
    MoveIsBounded(walls, TILE_SIZE, RADIUS, SPEED, dt, s);
  }

  /** Enemy.update(): wander, then the re-check of both axes and the guarded move. */
  function EnemyFrame(walls: Box -> bool, k: Body, dt: real, random: real): Body
    requires 0.0 <= random < 1.0
  {
    Move(walls, TILE_SIZE, RADIUS, SPEED, dt, Wander(walls, TILE_SIZE, RADIUS, SPEED, dt, k, random))
  }

  /** A frame keeps an enemy's velocity a unit direction, never turns it back the
      way it came, and moves it less than two tiles per axis. */
  lemma EnemyFrameNeverTurnsBack(walls: Box -> bool, k: Body, dt: real, random: real)
    requires UnitVelocity(k) && 0.0 <= random < 1.0
    ensures var r := EnemyFrame(walls, k, dt, random);
      && UnitVelocity(r)
      && (k.xVel != 0 ==> r.xVel != -k.xVel)
      && (k.yVel != 0 ==> r.yVel != -k.yVel)
      && Abs(r.x - k.x) < 2.0 * TILE_SIZE && Abs(r.y - k.y) < 2.0 * TILE_SIZE
  {
    var w := Wander(walls, TILE_SIZE, RADIUS, SPEED, dt, k, random);
    WanderNeverReverses(walls, TILE_SIZE, RADIUS, SPEED, dt, k, random);
    MoveKeepsOnlyClearVelocities(walls, TILE_SIZE, RADIUS, SPEED, dt, w);
    MoveIsBounded(walls, TILE_SIZE, RADIUS, SPEED, dt, w);
  }

  /** Every enemy of the list takes its frame, each with its own random number. */
  function EnemiesFrame(walls: Box -> bool, es: seq<Body>, dt: real, randoms: seq<real>): (r: seq<Body>)
    requires |randoms| == |es| && forall i :: 0 <= i < |randoms| ==> 0.0 <= randoms[i] < 1.0
    ensures |r| == |es|
  {
    seq(|es|, i requires 0 <= i < |es| => EnemyFrame(walls, es[i], dt, randoms[i]))
  }

  /** The camera coordinate along one axis: the target minus half the screen,
      kept inside a map of `cells` tiles. */
  function CameraView(target: real, screen: real, cells: int): real
  {
    ClampView(target - screen / 2.0, cells as real * TILE_SIZE - screen)
  }

  /** On a map at least as large as the screen, the view stays inside the map,
      centres a target that is far enough from the edges, and always shows a
      target that lies inside the map. */
  lemma CameraShowsTarget(target: real, screen: real, cells: int)
    requires screen >= 0.0 && cells as real * TILE_SIZE >= screen
    ensures var v := CameraView(target, screen, cells);
      && 0.0 <= v <= cells as real * TILE_SIZE - screen
      && (screen / 2.0 <= target <= cells as real * TILE_SIZE - screen / 2.0 ==> v == target - screen / 2.0)
      && (0.0 <= target <= cells as real * TILE_SIZE ==> v <= target <= v + screen)
  {
    var v := CameraView(target, screen, cells);
    var hi := cells as real * TILE_SIZE - screen;
    if target - screen / 2.0 < 0.0 {
      assert v == 0.0;
    } else if target - screen / 2.0 > hi {
      assert v == hi;
    } else {
      assert v == target - screen / 2.0;
    }
  }

  // ---------------------------------------------------------------------------
  // The world of a frame
  // ---------------------------------------------------------------------------

  datatype Round = Round(player: Body, enemies: seq<Body>)

  /** Every body moves in a unit direction. */
  predicate WorldInv(w: Round)
  {
    UnitVelocity(w.player) && forall i :: 0 <= i < |w.enemies| ==> UnitVelocity(w.enemies[i])
  }

  /** Where the player starts: the centre of the first 'P' cell in row-major order. */
  function PlayerStart(rows: seq<seq<char>>): Body
    requires HasMarker(rows, PLAYER_MARK, 0)
  {
    AtCentre(FirstMarker(rows, PLAYER_MARK, 0), TILE_SIZE)
  }

  /** The enemies at the start: one per 'E' cell, in row-major order. */
  function InitialEnemies(rows: seq<seq<char>>): (es: seq<Body>)
    ensures |es| == |Coordinates(rows, ENEMY_MARK, 0)|
  {
    var cs := Coordinates(rows, ENEMY_MARK, 0);
    seq(|cs|, i requires 0 <= i < |cs| => AtCentre(cs[i], TILE_SIZE))
  }

  /** There is exactly one enemy per 'E' cell, at the centre of that cell and at
      rest, and the enemies are listed in row-major order of their cells. */
  lemma InitialEnemiesOnMarkers(rows: seq<seq<char>>)
    ensures var es := InitialEnemies(rows);
      && (forall c :: Marked(rows, ENEMY_MARK, 0, c) <==> AtCentre(c, TILE_SIZE) in es)
      && (forall i :: 0 <= i < |es| ==> es[i].xVel == 0 && es[i].yVel == 0)
      && (forall i, j :: 0 <= i < j < |es| ==> es[i].y < es[j].y || (es[i].y == es[j].y && es[i].x < es[j].x))
  {
    var cs := Coordinates(rows, ENEMY_MARK, 0);
    var es := InitialEnemies(rows);
    CoordinatesSpec(rows, ENEMY_MARK, 0);
    forall c
      ensures Marked(rows, ENEMY_MARK, 0, c) <==> AtCentre(c, TILE_SIZE) in es
    {
      if Marked(rows, ENEMY_MARK, 0, c) {
        var i :| 0 <= i < |cs| && cs[i] == c;
        assert es[i] == AtCentre(c, TILE_SIZE);
      }
      if AtCentre(c, TILE_SIZE) in es {
        var i :| 0 <= i < |es| && es[i] == AtCentre(c, TILE_SIZE);
        assert cs[i] in cs;
        assert cs[i] == c;
      }
    }
  }

  /** The start of the game. */
  function InitialWorld(rows: seq<seq<char>>): (w: Round)
    requires HasMarker(rows, PLAYER_MARK, 0)
    ensures WorldInv(w)
  {
    Round(PlayerStart(rows), InitialEnemies(rows))
  }

  /** One frame of the game loop: player.update(), then every enemy's update(). */
  function Tick(rows: seq<seq<char>>, w: Round, keys: Keys, dt: real, randoms: seq<real>): Round
    requires IsLevel(rows) && |randoms| == |w.enemies|
    requires forall i :: 0 <= i < |randoms| ==> 0.0 <= randoms[i] < 1.0
  {
    var walls := Clamped(rows, TILE_SIZE).Walls();
    Round(PlayerFrame(walls, w.player, keys, dt), EnemiesFrame(walls, w.enemies, dt, randoms))
  }

  /** A frame keeps every velocity a unit direction and the number of enemies,
      turns no enemy back the way it came, and moves no body two tiles or more
      along an axis. */
  lemma TickKeepsInv(rows: seq<seq<char>>, w: Round, keys: Keys, dt: real, randoms: seq<real>)
    requires IsLevel(rows) && |randoms| == |w.enemies|
    requires forall i :: 0 <= i < |randoms| ==> 0.0 <= randoms[i] < 1.0
    requires WorldInv(w)
    ensures var t := Tick(rows, w, keys, dt, randoms);
      && WorldInv(t) && |t.enemies| == |w.enemies|
      && Abs(t.player.x - w.player.x) < 2.0 * TILE_SIZE && Abs(t.player.y - w.player.y) < 2.0 * TILE_SIZE
      && forall i :: 0 <= i < |w.enemies| ==>
           && (w.enemies[i].xVel != 0 ==> t.enemies[i].xVel != -w.enemies[i].xVel)
           && (w.enemies[i].yVel != 0 ==> t.enemies[i].yVel != -w.enemies[i].yVel)
  {
    var walls := Clamped(rows, TILE_SIZE).Walls();
    PlayerFrameTurnsOnlyIntoClear(walls, w.player, keys, dt);
    forall i | 0 <= i < |w.enemies|
      ensures var r := EnemyFrame(walls, w.enemies[i], dt, randoms[i]);
        && UnitVelocity(r)
        && (w.enemies[i].xVel != 0 ==> r.xVel != -w.enemies[i].xVel)
        && (w.enemies[i].yVel != 0 ==> r.yVel != -w.enemies[i].yVel)
    {
      EnemyFrameNeverTurnsBack(walls, w.enemies[i], dt, randoms[i]);
    }
  }

  // ---------------------------------------------------------------------------
  // The objects of the game
  // ---------------------------------------------------------------------------

  class Player {
    const rows: seq<seq<char>>
    const level: Arena
    const radius: real
    const speed: real
    var x: real
    var y: real
    var xVel: int
    var yVel: int

    function Body(): Motion.Body
      reads this
    {
      Motion.Body(x, y, xVel, yVel)
    }

    ghost predicate Valid()
      reads this
    {
      && IsLevel(rows) && level == Clamped(rows, TILE_SIZE)
      && radius == RADIUS && speed == SPEED
      && UnitVelocity(Body())
    }

    /** The player object: at the centre of the first 'P' cell, at rest. */
    constructor (rows: seq<seq<char>>)
      requires IsLevel(rows)
      ensures Valid() && this.rows == rows
      ensures Body() == PlayerStart(rows)
    {
      this.rows := rows;
      level := Clamped(rows, TILE_SIZE);
      radius := RADIUS;
      speed := SPEED;
      var c := FirstMarker(rows, PLAYER_MARK, 0);
      x := c.x as real * TILE_SIZE + TILE_SIZE / 2.0;
      y := c.y as real * TILE_SIZE + TILE_SIZE / 2.0;
      xVel := 0;
      yVel := 0;
    }

    /** The arrow keys of update(): left before right, up before down, each only
        when its lookahead box is clear. */
    method SteerStep(walls: Box -> bool, keys: Keys, dt: real)
      requires radius == RADIUS && speed == SPEED
      modifies this
      ensures Body() == SteerByKeys(walls, TILE_SIZE, RADIUS, SPEED, dt, old(Body()), keys)
    {
      if keys.left && !walls(Rect(x, y, radius, -speed * dt, 0.0)) {
        xVel := -1;
      } else if keys.right && !walls(Rect(x, y, radius, speed * dt, 0.0)) {
        xVel := 1;
      }
      if keys.up && !walls(Rect(x, y, radius, 0.0, -speed * dt)) {
        yVel := -1;
      } else if keys.down && !walls(Rect(x, y, radius, 0.0, speed * dt)) {
        yVel := 1;
      }
    }

    /** The re-check of update(): an axis whose one-step box hits a wall is
        snapped and stopped, first x, then y. */
    method RecheckAxes(walls: Box -> bool, dt: real)
      requires radius == RADIUS && speed == SPEED
      modifies this
      ensures Body() == Recheck(walls, TILE_SIZE, RADIUS, SPEED, dt, old(Body()))
    {
      if walls(Rect(x, y, radius, Displacement(xVel, speed, dt), 0.0)) {
        x := Snap(x, radius, TILE_SIZE);
        xVel := 0;
      }
      if walls(Rect(x, y, radius, 0.0, Displacement(yVel, speed, dt))) {
        y := Snap(y, radius, TILE_SIZE);
        yVel := 0;
      }
    }

    /** The guarded move of update(). */
    method ApplyMove(dt: real)
      requires speed == SPEED
      modifies this
      ensures Body() == Advance(TILE_SIZE, SPEED, dt, old(Body()))
    {
      var moveX := Displacement(xVel, speed, dt);
      var moveY := Displacement(yVel, speed, dt);
      if Abs(moveX) < TILE_SIZE && Abs(moveY) < TILE_SIZE {
        x := x + moveX;
        y := y + moveY;
      }
    }

    /** update(). */
    method Update(keys: Keys, dt: real)
      requires Valid()
      modifies this
      ensures Valid()
      ensures Body() == PlayerFrame(level.Walls(), old(Body()), keys, dt)
    {
      PlayerFrameTurnsOnlyIntoClear(level.Walls(), Body(), keys, dt);
      var walls := level.Walls();
      SteerStep(walls, keys, dt);
      RecheckAxes(walls, dt);
      ApplyMove(dt);
    }
  }

  class Enemy {
    const level: Arena
    const radius: real
    const speed: real
    var x: real
    var y: real
    var xVel: int
    var yVel: int

    function Body(): Motion.Body
      reads this
    {
      Motion.Body(x, y, xVel, yVel)
    }

    ghost predicate Valid()
      reads this
    {
      && level.Clamped? && level.Valid() && level.tile == TILE_SIZE
      && radius == RADIUS && speed == SPEED
      && UnitVelocity(Body())
    }

    /** new Enemy(x, y): at the centre of the tile whose top-left corner is
        (x, y), at rest. */
    constructor (level: Arena, x: real, y: real)
      requires level.Clamped? && level.Valid() && level.tile == TILE_SIZE
      ensures Valid() && this.level == level
      ensures Body() == Motion.Body(x + TILE_SIZE / 2.0, y + TILE_SIZE / 2.0, 0, 0)
    {
      this.level := level;
      radius := RADIUS;
      speed := SPEED;
      this.x := x + TILE_SIZE / 2.0;
      this.y := y + TILE_SIZE / 2.0;
      xVel := 0;
      yVel := 0;
    }

    /** The candidate list of update(), filled in the order left, right, up, down. */
    method CollectNextDirs(walls: Box -> bool, dt: real) returns (nextDir: seq<Dir>)
      requires radius == RADIUS && speed == SPEED
      ensures nextDir == Candidates(walls, TILE_SIZE, RADIUS, SPEED, dt, Body())
    {
      ghost var k := Body();
      nextDir := [];
      if xVel != 1 && !walls(Rect(x, y, radius, -speed * dt, 0.0)) {
        nextDir := nextDir + [Left];
      }
      assert nextDir == Consider(walls, TILE_SIZE, RADIUS, SPEED, dt, k, Left);
      if xVel != -1 && !walls(Rect(x, y, radius, speed * dt, 0.0)) {
        nextDir := nextDir + [Right];
      }
      assert nextDir == Consider(walls, TILE_SIZE, RADIUS, SPEED, dt, k, Left)
        + Consider(walls, TILE_SIZE, RADIUS, SPEED, dt, k, Right);
      if yVel != 1 && !walls(Rect(x, y, radius, 0.0, -speed * dt)) {
        nextDir := nextDir + [Up];
      }
      assert nextDir == Consider(walls, TILE_SIZE, RADIUS, SPEED, dt, k, Left)
        + Consider(walls, TILE_SIZE, RADIUS, SPEED, dt, k, Right)
        + Consider(walls, TILE_SIZE, RADIUS, SPEED, dt, k, Up);
      if yVel != -1 && !walls(Rect(x, y, radius, 0.0, speed * dt)) {
        nextDir := nextDir + [Down];
      }
    }

    /** The random turn of update(): toward the candidate at
        floor(random * count), when there is one. */
    method WanderStep(walls: Box -> bool, dt: real, random: real)
      requires radius == RADIUS && speed == SPEED && 0.0 <= random < 1.0
      modifies this
      ensures Body() == Wander(walls, TILE_SIZE, RADIUS, SPEED, dt, old(Body()), random)
    {
      var nextDir := CollectNextDirs(walls, dt);
      match Pick(nextDir, random) {
        case None =>
        case Some(Left) => xVel := -1;
        case Some(Right) => xVel := 1;
        case Some(Up) => yVel := -1;
        case Some(Down) => yVel := 1;
      }
    }

    /** The re-check of update(). */
    method RecheckAxes(walls: Box -> bool, dt: real)
      requires radius == RADIUS && speed == SPEED
      modifies this
      ensures Body() == Recheck(walls, TILE_SIZE, RADIUS, SPEED, dt, old(Body()))
    {
      if walls(Rect(x, y, radius, Displacement(xVel, speed, dt), 0.0)) {
        x := Snap(x, radius, TILE_SIZE);
        xVel := 0;
      }
      if walls(Rect(x, y, radius, 0.0, Displacement(yVel, speed, dt))) {
        y := Snap(y, radius, TILE_SIZE);
        yVel := 0;
      }
    }

    /** The guarded move of update(). */
    method ApplyMove(dt: real)
      requires speed == SPEED
      modifies this
      ensures Body() == Advance(TILE_SIZE, SPEED, dt, old(Body()))
    {
      var moveX := Displacement(xVel, speed, dt);
      var moveY := Displacement(yVel, speed, dt);
      if Abs(moveX) < TILE_SIZE && Abs(moveY) < TILE_SIZE {
        x := x + moveX;
        y := y + moveY;
      }
    }

    /** update(). */
    method Update(dt: real, random: real)
      requires Valid() && 0.0 <= random < 1.0
      modifies this
      ensures Valid()
      ensures Body() == EnemyFrame(level.Walls(), old(Body()), dt, random)
    {
      EnemyFrameNeverTurnsBack(level.Walls(), Body(), dt, random);
      var walls := level.Walls();
      WanderStep(walls, dt, random);
      RecheckAxes(walls, dt);
      ApplyMove(dt);
    }
  }

  class Camera {
    var x: real
    var y: real

    constructor ()
      ensures x == 0.0 && y == 0.0
    {
      x := 0.0;
      y := 0.0;
    }

    /** update(targetX, targetY): the target centred, then kept inside a map of
        the given width and height (in tiles). */
    method Update(targetX: real, targetY: real, width: int, height: int)
      modifies this
      ensures x == CameraView(targetX, SCREEN_WIDTH, width) && y == CameraView(targetY, SCREEN_HEIGHT, height)
    {
      x := targetX - SCREEN_WIDTH / 2.0;
      y := targetY - SCREEN_HEIGHT / 2.0;
      if x < 0.0 {
        x := 0.0;
      }
      if x > width as real * TILE_SIZE - SCREEN_WIDTH {
        x := width as real * TILE_SIZE - SCREEN_WIDTH;
      }
      if y < 0.0 {
        y := 0.0;
      }
      if y > height as real * TILE_SIZE - SCREEN_HEIGHT {
        y := height as real * TILE_SIZE - SCREEN_HEIGHT;
      }
    }
  }

  class Game {
    const rows: seq<seq<char>>
    const player: Player
    const enemies: seq<Enemy>
    const camera: Camera

    function Bodies(): (bs: seq<Motion.Body>)
      reads enemies
      ensures |bs| == |enemies| && forall i :: 0 <= i < |enemies| ==> bs[i] == enemies[i].Body()
    {
      seq(|enemies|, i reads enemies requires 0 <= i < |enemies| => enemies[i].Body())
    }

    function World(): Round
      reads player, enemies
    {
      Round(player.Body(), Bodies())
    }

    ghost predicate Valid()
      reads player, enemies
    {
      && IsLevel(rows)
      && player.Valid() && player.rows == rows
      && (forall i, j :: 0 <= i < j < |enemies| ==> enemies[i] != enemies[j])
      && (forall i :: 0 <= i < |enemies| ==> enemies[i].level == Clamped(rows, TILE_SIZE) && enemies[i].Valid())
    }

    /** The start of the game: the player, one enemy per 'E' cell (filled in a
        loop over coordinatesOnMap("E")), and the camera at the origin. */
    constructor (rows: seq<seq<char>>)
      requires IsLevel(rows)
      ensures Valid() && this.rows == rows
      ensures World() == InitialWorld(rows)
      ensures camera.x == 0.0 && camera.y == 0.0
    {
      this.rows := rows;
      player := new Player(rows);
      camera := new Camera();
      var list := NewEnemies(rows);
      enemies := list;
      new;
      assert Bodies() == InitialEnemies(rows);
    }

    /** The loop of the start of the game: a new enemy at the top-left corner of
        each 'E' cell, in row-major order. */
    static method NewEnemies(rows: seq<seq<char>>) returns (list: seq<Enemy>)
      requires IsGrid(rows)
      ensures |list| == |Coordinates(rows, ENEMY_MARK, 0)|
      ensures forall j, k :: 0 <= j < k < |list| ==> list[j] != list[k]
      ensures forall j :: 0 <= j < |list| ==> fresh(list[j])
      ensures forall j :: 0 <= j < |list| ==>
        list[j].level == Clamped(rows, TILE_SIZE) && list[j].Valid()
        && list[j].Body() == InitialEnemies(rows)[j]
    {
      var level := Clamped(rows, TILE_SIZE);
      var cs := Coordinates(rows, ENEMY_MARK, 0);
      list := [];
      var i := 0;
      while i < |cs|
        invariant 0 <= i <= |cs| && |list| == i
        invariant forall j, k :: 0 <= j < k < i ==> list[j] != list[k]
        invariant forall j :: 0 <= j < i ==> fresh(list[j])
        invariant forall j :: 0 <= j < i ==>
          list[j].level == level && list[j].Valid() && list[j].Body() == AtCentre(cs[j], TILE_SIZE)
      {
        var e := new Enemy(level, cs[i].x as real * TILE_SIZE, cs[i].y as real * TILE_SIZE);
        list := list + [e];
        i := i + 1;
      }
    }

    /** After the first n enemies' update(): those took their frame, the others
        are as they were, and all are still valid. */
    ghost predicate UpdatedFirst(walls: Box -> bool, es: seq<Motion.Body>, dt: real, randoms: seq<real>, n: nat)
      reads enemies
    {
      && IsLevel(rows)
      && walls == Clamped(rows, TILE_SIZE).Walls()
      && n <= |es| == |randoms| == |enemies|
      && (forall i :: 0 <= i < |randoms| ==> 0.0 <= randoms[i] < 1.0)
      && (forall i, j :: 0 <= i < j < |enemies| ==> enemies[i] != enemies[j])
      && (forall i :: 0 <= i < |enemies| ==> enemies[i].level == Clamped(rows, TILE_SIZE) && enemies[i].Valid())
      && (forall i :: 0 <= i < n ==> enemies[i].Body() == EnemyFrame(walls, es[i], dt, randoms[i]))
      && (forall i :: n <= i < |enemies| ==> enemies[i].Body() == es[i])
    }

    /** for (const enemy of enemies) enemy.update(). */
    method UpdateEnemies(dt: real, randoms: seq<real>)
      requires Valid() && |randoms| == |enemies| && forall i :: 0 <= i < |randoms| ==> 0.0 <= randoms[i] < 1.0
      modifies enemies
      ensures Valid()
      ensures Bodies() == EnemiesFrame(Clamped(rows, TILE_SIZE).Walls(), old(Bodies()), dt, randoms)
    {
      ghost var walls := Clamped(rows, TILE_SIZE).Walls();
      ghost var es := Bodies();
      var i := 0;
      while i < |enemies|
        invariant i <= |enemies| && UpdatedFirst(walls, es, dt, randoms, i)
      {
        UpdateNext(dt, randoms, i, walls, es);
        i := i + 1;
      }
    }

    /** One turn of the loop over the enemies. */
    method UpdateNext(dt: real, randoms: seq<real>, n: nat, ghost walls: Box -> bool, ghost es: seq<Motion.Body>)
      requires n < |enemies| && UpdatedFirst(walls, es, dt, randoms, n)
      modifies enemies
      ensures UpdatedFirst(walls, es, dt, randoms, n + 1)
    {
      var e := enemies[n];
      e.Update(dt, randoms[n]);
      forall i | 0 <= i < |enemies| && i != n
        ensures enemies[i].Body() == old(enemies[i].Body()) && enemies[i].Valid()
      {
        assert enemies[i] != e;
      }
    }

    /** main(): player.update(), every enemy's update(), then
        camera.update(player.x, player.y). */
    method Frame(keys: Keys, dt: real, randoms: seq<real>)
      requires Valid() && |randoms| == |enemies| && forall i :: 0 <= i < |randoms| ==> 0.0 <= randoms[i] < 1.0
      modifies player, enemies, camera
      ensures Valid()
      ensures World() == Tick(rows, old(World()), keys, dt, randoms)
      ensures camera.x == CameraView(player.x, SCREEN_WIDTH, |rows[0]|)
      ensures camera.y == CameraView(player.y, SCREEN_HEIGHT, |rows|)
    {
      player.Update(keys, dt);
      UpdateEnemies(dt, randoms);
      camera.Update(player.x, player.y, |rows[0]|, |rows|);
    }
  }
}
