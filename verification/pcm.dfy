/**
  The latest revision of the chase game (pcm/index.js): a player steered with queued
  arrow-key input, enemies that wander at random and pursue the player when they
  see it along a row or a column, three lives with three seconds of immortality
  after each lost life, a smoothed follow camera, and a game-over screen that
  restarts the round on Space or Enter.

  The per-frame behaviour is stated twice: as pure functions over plain states
  (PlayerState, EnemyState, Round), about which the lemmas speak, and as the
  classes of the game, whose methods update their fields as the source does and
  promise to agree with those functions.
*/
module PcmGame {
  import opened Wrappers
  import opened Arith
  import opened TileMap
  import opened Motion
  import opened Viewport

  const SCREEN_WIDTH: real := 800.0
  const SCREEN_HEIGHT: real := 600.0
  const TILE_SIZE: real := 30.0
  /** Player and enemies are circles of half a tile. */
  const RADIUS: real := TILE_SIZE / 2.0
  const PLAYERS_LIFE_COUNT: int := 3
  const PLAYER_SPEED: real := 200.0
  const ENEMY_SPEED: real := 210.0
  /** Seconds of immortality after a lost life. */
  const IMMORTALITY_SECONDS: real := 3.0
  /** Seconds an enemy keeps the direction in which it last saw the player. */
  const PURSUIT_SECONDS: real := 1.0
  /** How many tiles far an enemy sees. */
  const SIGHT_LENGTH: int := 10
  /** The camera closes this fraction of its distance to the target per second. */
  const CAMERA_RATE: real := 7.0
  const PLAYER_MARK: char := 'P'
  const ENEMY_MARK: char := 'E'

  /** A playable map: rectangular, at least 3 x 3, with a player spawn cell. */
  predicate IsLevel(rows: seq<seq<char>>)
  {
    IsGrid(rows) && HasMarker(rows, PLAYER_MARK, 0)
  }

  /** The world coordinate of the centre of tile i. */
  function TileCentre(i: int): real
  {
    i as real * TILE_SIZE + TILE_SIZE / 2.0
  }

  /** Where the player starts and is put back after a lost life: the centre of the
      first 'P' cell in row-major order, at rest. */
  function Spawn(rows: seq<seq<char>>): (k: Body)
    requires HasMarker(rows, PLAYER_MARK, 0)
    ensures k.xVel == 0 && k.yVel == 0
    ensures exists c :: c == FirstMarker(rows, PLAYER_MARK, 0) && k.x == TileCentre(c.x) && k.y == TileCentre(c.y)
  {
    var c := FirstMarker(rows, PLAYER_MARK, 0);
    Body(TileCentre(c.x), TileCentre(c.y), 0, 0)
  }

  // ---------------------------------------------------------------------------
  // The player
  // ---------------------------------------------------------------------------

  datatype PlayerState = PlayerState(body: Body, nextDir: Option<Dir>, lives: int,
                                     immortality: bool, immortalityTimer: real, isGameOver: bool)

  /** What every player state the game reaches satisfies. */
  predicate PlayerInv(s: PlayerState)
  {
    && UnitVelocity(s.body)
    && 0.0 <= s.immortalityTimer <= IMMORTALITY_SECONDS
    && (!s.immortality ==> s.immortalityTimer == 0.0)
    && s.lives <= PLAYERS_LIFE_COUNT
    && (s.isGameOver <==> s.lives <= 0)
  }

  /** A new Player: at the spawn cell, at rest, three lives, mortal. */
  function InitialPlayer(rows: seq<seq<char>>): (s: PlayerState)
    requires HasMarker(rows, PLAYER_MARK, 0)
    ensures PlayerInv(s) && s.lives == PLAYERS_LIFE_COUNT && !s.isGameOver
  {
    PlayerState(Spawn(rows), None, PLAYERS_LIFE_COUNT, false, 0.0, false)
  }

  /** One of the four input blocks of Player.update: when the key of d is held or
      d is the queued direction, d becomes the queued direction, and the player
      turns toward d when its lookahead box is clear. */
  function QueueTurn(walls: Box -> bool, k: Body, next: Option<Dir>, held: bool, d: Dir, dt: real): (Body, Option<Dir>)
  {
    if held || next == Some(d) then
      (if !walls(Lookahead(k, RADIUS, PLAYER_SPEED, dt, d)) then Steer(k, d) else k, Some(d))
    else (k, next)
  }

  /** The four input blocks, in the order left, right, up, down. */
  function QueueInput(walls: Box -> bool, k: Body, next: Option<Dir>, keys: Keys, dt: real): (Body, Option<Dir>)
  {
    var (k1, n1) := QueueTurn(walls, k, next, keys.left, Left, dt);
    var (k2, n2) := QueueTurn(walls, k1, n1, keys.right, Right, dt);
    var (k3, n3) := QueueTurn(walls, k2, n2, keys.up, Up, dt);
    QueueTurn(walls, k3, n3, keys.down, Down, dt)
  }

  /** The last arrow key held, in the order left, right, up, down. */
  function LastHeld(keys: Keys): Option<Dir>
  {
    if keys.down then Some(Down)
    else if keys.up then Some(Up)
    else if keys.right then Some(Right)
    else if keys.left then Some(Left)
    else None
  }

  /** The queued direction is the last arrow key held, and stays as it was when no
      arrow key is held: a turn pressed before a corridor opens is remembered. */
  lemma QueueInputRemembers(walls: Box -> bool, k: Body, next: Option<Dir>, keys: Keys, dt: real)
    ensures QueueInput(walls, k, next, keys, dt).1 == if LastHeld(keys).Some? then LastHeld(keys) else next
  {
  }

  /** Input never moves the player, and it turns the player only toward a direction
      whose lookahead box is clear. */
  lemma QueueInputOnlyIntoClear(walls: Box -> bool, k: Body, next: Option<Dir>, keys: Keys, dt: real)
    ensures var r := QueueInput(walls, k, next, keys, dt).0;
      && r.x == k.x && r.y == k.y
      && (r.xVel != k.xVel ==>
            || (r.xVel == -1 && !walls(Lookahead(k, RADIUS, PLAYER_SPEED, dt, Left)))
            || (r.xVel == 1 && !walls(Lookahead(k, RADIUS, PLAYER_SPEED, dt, Right))))
      && (r.yVel != k.yVel ==>
            || (r.yVel == -1 && !walls(Lookahead(k, RADIUS, PLAYER_SPEED, dt, Up)))
            || (r.yVel == 1 && !walls(Lookahead(k, RADIUS, PLAYER_SPEED, dt, Down))))
  {
  }

  /** With no arrow key held, a queued turn is taken as soon as its lookahead box
      is clear, and nothing else changes. */
  lemma QueuedTurnTaken(walls: Box -> bool, k: Body, d: Dir, keys: Keys, dt: real)
    requires !keys.left && !keys.right && !keys.up && !keys.down
    requires !walls(Lookahead(k, RADIUS, PLAYER_SPEED, dt, d))
    ensures QueueInput(walls, k, Some(d), keys, dt) == (Steer(k, d), Some(d))
  {
  }

  /** The immortality countdown: while immortal the timer grows by dt, and
      immortality ends (and the timer restarts at 0) once it exceeds 3 seconds. */
  function ImmortalityTick(s: PlayerState, dt: real): PlayerState
  {
    if s.immortality then
      var t := s.immortalityTimer + dt;
      if t > IMMORTALITY_SECONDS then s.(immortality := false, immortalityTimer := 0.0)
      else s.(immortalityTimer := t)
    else s
  }

  /** Player.update when the game is not paused. */
  function PlayerFrame(walls: Box -> bool, s: PlayerState, keys: Keys, dt: real): PlayerState
  {
    var (k, next) := QueueInput(walls, s.body, s.nextDir, keys, dt);
    ImmortalityTick(s.(body := Move(walls, TILE_SIZE, RADIUS, PLAYER_SPEED, dt, k), nextDir := next), dt)
  }

  /** A player frame keeps the invariant, never changes lives or the game-over
      flag, and ends immortality exactly when its timer passes 3 seconds. */
  lemma {:induction false} PlayerFrameKeepsInv(walls: Box -> bool, s: PlayerState, keys: Keys, dt: real)
    requires PlayerInv(s) && dt >= 0.0
    ensures var r := PlayerFrame(walls, s, keys, dt);
      && PlayerInv(r)
      && r.lives == s.lives && r.isGameOver == s.isGameOver
      && r.immortality == (s.immortality && s.immortalityTimer + dt <= IMMORTALITY_SECONDS)
  {
    var (k, next) := QueueInput(walls, s.body, s.nextDir, keys, dt);
    MoveKeepsOnlyClearVelocities(walls, TILE_SIZE, RADIUS, PLAYER_SPEED, dt, k);
  }

  /** Player.collisionWith on plain values: the point lies closer than radius to
      the player's centre, and the player is not immortal. */
  predicate Touches(p: PlayerState, x: real, y: real, radius: real)
  {
    !p.immortality && Sq(x - p.body.x) + Sq(y - p.body.y) < Sq(radius)
  }

  /** A touching point lies within radius of the centre on both axes, and the
      centre itself touches a mortal player. */
  lemma TouchesNear(p: PlayerState, x: real, y: real, radius: real)
    ensures Touches(p, x, y, radius) ==> !p.immortality
    ensures Touches(p, x, y, radius) && radius >= 0.0 ==> Abs(x - p.body.x) < radius && Abs(y - p.body.y) < radius
    ensures !p.immortality && x == p.body.x && y == p.body.y && radius > 0.0 ==> Touches(p, x, y, radius)
  {
    var a := x - p.body.x;
    var b := y - p.body.y;
    SqNonneg(a);
    SqNonneg(b);
    if Touches(p, x, y, radius) && radius >= 0.0 {
      SqBelow(a, radius);
      SqBelow(b, radius);
    }
    if !p.immortality && x == p.body.x && y == p.body.y && radius > 0.0 {
      assert Sq(a) == 0.0 && Sq(b) == 0.0;
      SqPos(radius);
    }
  }

  /** Player.takeLife: one life less; with lives left the player goes back to the
      spawn cell, at rest and immortal; otherwise the game is over. The second
      component says whether the game is paused by it. */
  function LoseLife(spawn: Body, s: PlayerState): (PlayerState, bool)
  {
    var lives := s.lives - 1;
    if lives > 0 then (s.(lives := lives, body := spawn, immortality := true), false)
    else (s.(lives := lives, isGameOver := true), true)
  }

  /** Losing a life keeps the invariant: exactly one life less, and the game is
      paused exactly when the last life is lost. */
  lemma TakeLifeKeepsInv(spawn: Body, s: PlayerState)
    requires PlayerInv(s) && UnitVelocity(spawn)
    ensures var (r, paused) := LoseLife(spawn, s);
      && PlayerInv(r)
      && r.lives == s.lives - 1
      && (paused <==> r.lives <= 0)
      && (paused <==> r.isGameOver)
      && (!paused ==> r.immortality && r.body == spawn)
  {
  }

  // ---------------------------------------------------------------------------
  // The enemies
  // ---------------------------------------------------------------------------

  datatype EnemyState = EnemyState(body: Body, lock: Option<Dir>, lockTimer: real)

  /** What every enemy state the game reaches satisfies: the pursuit timer runs
      only while a direction is locked, and never past one second. */
  predicate EnemyInv(e: EnemyState)
  {
    && UnitVelocity(e.body)
    && 0.0 <= e.lockTimer <= PURSUIT_SECONDS
    && (e.lock.None? ==> e.lockTimer == 0.0)
  }

  /** A new Enemy at cell c: at the centre of the cell, at rest, nothing locked. */
  function EnemyAt(c: Cell): (e: EnemyState)
    ensures EnemyInv(e)
  {
    EnemyState(Body(TileCentre(c.x), TileCentre(c.y), 0, 0), None, 0.0)
  }

  /** The enemies of a new round: one per 'E' cell, in row-major order. */
  function InitialEnemies(rows: seq<seq<char>>): (es: seq<EnemyState>)
    ensures |es| == |Coordinates(rows, ENEMY_MARK, 0)|
    ensures forall i :: 0 <= i < |es| ==> es[i] == EnemyAt(Coordinates(rows, ENEMY_MARK, 0)[i])
  {
    var cs := Coordinates(rows, ENEMY_MARK, 0);
    seq(|cs|, i requires 0 <= i < |cs| => EnemyAt(cs[i]))
  }

  /** The i-th point an enemy samples when it looks in direction d: i tiles away
      from its centre. */
  function SightX(k: Body, d: Dir, i: int): real
  {
    match d
    case Left => k.x - i as real * TILE_SIZE
    case Right => k.x + i as real * TILE_SIZE
    case Up => k.x
    case Down => k.x
  }

  function SightY(k: Body, d: Dir, i: int): real
  {
    match d
    case Left => k.y
    case Right => k.y
    case Up => k.y - i as real * TILE_SIZE
    case Down => k.y + i as real * TILE_SIZE
  }

  /** canSeePlayer(d): one of the ten sample points toward d touches the player
      (walls do not block the view). */
  predicate Sees(p: PlayerState, k: Body, d: Dir)
  {
    exists i :: 0 <= i < SIGHT_LENGTH && Touches(p, SightX(k, d, i), SightY(k, d, i), RADIUS)
  }

  /** An immortal player is never seen. */
  lemma ImmortalPlayerUnseen(p: PlayerState, k: Body, d: Dir)
    requires p.immortality
    ensures !Sees(p, k, d)
  {
  }

  /** changingDirWhenSpottingPlayer: for each direction, in the order left, right,
      up, down, in which the player is seen, the enemy turns that way and locks it;
      while a direction is locked the timer runs, and the lock is dropped once the
      timer passes one second. */
  function Pursue(e: EnemyState, p: PlayerState, dt: real): EnemyState
  {
    var k := e.body;
    var (k1, l1) := if Sees(p, k, Left) then (k.(xVel := -1), Some(Left)) else (k, e.lock);
    var (k2, l2) := if Sees(p, k, Right) then (k1.(xVel := 1), Some(Right)) else (k1, l1);
    var (k3, l3) := if Sees(p, k, Up) then (k2.(yVel := -1), Some(Up)) else (k2, l2);
    var (k4, l4) := if Sees(p, k, Down) then (k3.(yVel := 1), Some(Down)) else (k3, l3);
    if l4.Some? then
      var t := e.lockTimer + dt;
      if t > PURSUIT_SECONDS then EnemyState(k4, None, 0.0) else EnemyState(k4, l4, t)
    else EnemyState(k4, l4, e.lockTimer)
  }

  /** Only the position matters to what an enemy sees. */
  lemma SeesIgnoresVelocity(p: PlayerState, k: Body, k': Body, d: Dir)
    requires k.x == k'.x && k.y == k'.y
    ensures Sees(p, k, d) == Sees(p, k', d)
  {
    assert forall i :: SightX(k, d, i) == SightX(k', d, i) && SightY(k, d, i) == SightY(k', d, i);
  }

  /** The last direction, in the order left, right, up, down, in which the player
      is seen. */
  function LastSighting(p: PlayerState, k: Body): Option<Dir>
  {
    if Sees(p, k, Down) then Some(Down)
    else if Sees(p, k, Up) then Some(Up)
    else if Sees(p, k, Right) then Some(Right)
    else if Sees(p, k, Left) then Some(Left)
    else None
  }

  /** Pursuit keeps the enemy invariant. The lock afterwards is the last sighting
      (or the old lock when there is none), unless the timer, which a new sighting
      does not restart, has passed one second; then no direction is locked. */
  lemma {:induction false} PursueLocks(e: EnemyState, p: PlayerState, dt: real)
    requires EnemyInv(e) && dt >= 0.0
    ensures var r := Pursue(e, p, dt);
      var locked := if LastSighting(p, e.body).Some? then LastSighting(p, e.body) else e.lock;
      && EnemyInv(r)
      && r.body.x == e.body.x && r.body.y == e.body.y
      && (locked.None? ==> r.lock.None? && r.lockTimer == e.lockTimer)
      && (locked.Some? && e.lockTimer + dt > PURSUIT_SECONDS ==> r.lock.None?)
      && (locked.Some? && e.lockTimer + dt <= PURSUIT_SECONDS ==> r.lock == locked && r.lockTimer == e.lockTimer + dt)
  {
  }

  /** Seeing the player to the left turns the enemy left unless it also sees it
      to the right (the later check wins), and likewise up and down. */
  lemma PursueTurnsTowardPlayer(e: EnemyState, p: PlayerState, dt: real)
    ensures var r := Pursue(e, p, dt);
      && (Sees(p, e.body, Right) ==> r.body.xVel == 1)
      && (Sees(p, e.body, Left) && !Sees(p, e.body, Right) ==> r.body.xVel == -1)
      && (!Sees(p, e.body, Left) && !Sees(p, e.body, Right) ==> r.body.xVel == e.body.xVel)
      && (Sees(p, e.body, Down) ==> r.body.yVel == 1)
      && (Sees(p, e.body, Up) && !Sees(p, e.body, Down) ==> r.body.yVel == -1)
      && (!Sees(p, e.body, Up) && !Sees(p, e.body, Down) ==> r.body.yVel == e.body.yVel)
  {
  }

  /** The contact check of Enemy.update: a player touched at (x, y) loses a life.
      The second component says whether the game is paused by it. */
  function Contact(spawn: Body, p: PlayerState, x: real, y: real): (PlayerState, bool)
  {
    if Touches(p, x, y, RADIUS) then LoseLife(spawn, p) else (p, false)
  }

  /** A contact with a player who is still in the game keeps the player invariant,
      takes at most one life, never one from an immortal player, and pauses the
      game exactly when it ends it. */
  lemma ContactKeepsInv(spawn: Body, p: PlayerState, x: real, y: real)
    requires PlayerInv(p) && !p.isGameOver && UnitVelocity(spawn)
    ensures var (r, paused) := Contact(spawn, p, x, y);
      && PlayerInv(r)
      && (r.lives == p.lives || r.lives == p.lives - 1)
      && (p.immortality ==> r == p && !paused)
      && (r.lives == p.lives ==> r == p && !paused)
      && (paused <==> r.isGameOver)
  {
    if Touches(p, x, y, RADIUS) {
      TakeLifeKeepsInv(spawn, p);
    }
  }

  /** The outcome of one enemy's update: the enemy, the player it may have
      caught, and whether the game is paused by it. */
  datatype Turn = Turn(enemy: EnemyState, player: PlayerState, pause: bool)

  /** Enemy.update when the game is not paused: wander unless a direction is
      locked, pursue, re-check against the walls, the contact check at the
      re-checked position, then the guarded move. */
  function EnemyFrame(walls: Box -> bool, spawn: Body, e: EnemyState, p: PlayerState, dt: real, random: real): Turn
    requires 0.0 <= random < 1.0
  {
    var e3 := Approach(walls, e, p, dt, random);
    var (p1, paused) := Contact(spawn, p, e3.body.x, e3.body.y);
    Turn(e3.(body := Advance(TILE_SIZE, ENEMY_SPEED, dt, e3.body)), p1, paused)
  }

  /** The part of an enemy frame before the contact check: wander unless a
      direction is locked, pursue, then re-check against the walls. */
  function Approach(walls: Box -> bool, e: EnemyState, p: PlayerState, dt: real, random: real): EnemyState
    requires 0.0 <= random < 1.0
  {
    var k1 := if e.lock.None? then Wander(walls, TILE_SIZE, RADIUS, ENEMY_SPEED, dt, e.body, random) else e.body;
    var e2 := Pursue(e.(body := k1), p, dt);
    e2.(body := Recheck(walls, TILE_SIZE, RADIUS, ENEMY_SPEED, dt, e2.body))
  }

  /** An enemy frame keeps both invariants, takes at most one life, never one
      from an immortal player, and leaves the player untouched otherwise. */
  lemma {:induction false} EnemyFrameKeepsInv(walls: Box -> bool, spawn: Body, e: EnemyState, p: PlayerState, dt: real, random: real)
    requires 0.0 <= random < 1.0 && dt >= 0.0
    requires EnemyInv(e) && PlayerInv(p) && !p.isGameOver && UnitVelocity(spawn)
    ensures var t := EnemyFrame(walls, spawn, e, p, dt, random);
      && EnemyInv(t.enemy) && PlayerInv(t.player)
      && (t.player.lives == p.lives || t.player.lives == p.lives - 1)
      && (p.immortality ==> t.player == p && !t.pause)
      && (t.player.lives == p.lives ==> t.player == p && !t.pause)
      && (t.pause <==> t.player.isGameOver)
  {
    var k1 := if e.lock.None? then Wander(walls, TILE_SIZE, RADIUS, ENEMY_SPEED, dt, e.body, random) else e.body;
    if e.lock.None? {
      WanderNeverReverses(walls, TILE_SIZE, RADIUS, ENEMY_SPEED, dt, e.body, random);
    }
    assert UnitVelocity(k1);
    var e1 := e.(body := k1);
    assert EnemyInv(e1);
    var e2 := Pursue(e1, p, dt);
    PursueLocks(e1, p, dt);
    assert EnemyInv(e2);
    MoveKeepsOnlyClearVelocities(walls, TILE_SIZE, RADIUS, ENEMY_SPEED, dt, e2.body);
    var k3 := Recheck(walls, TILE_SIZE, RADIUS, ENEMY_SPEED, dt, e2.body);
    var e4 := e2.(body := Advance(TILE_SIZE, ENEMY_SPEED, dt, k3));
    assert e4.body == Move(walls, TILE_SIZE, RADIUS, ENEMY_SPEED, dt, e2.body);
    assert EnemyInv(e4);
    ContactKeepsInv(spawn, p, k3.x, k3.y);
  }

  /** enemies.update: every enemy in order; an enemy does nothing once the game is
      paused, possibly by an earlier enemy of the same frame. */
  datatype Round = Round(enemies: seq<EnemyState>, player: PlayerState, pause: bool)

  function EnemiesFrame(walls: Box -> bool, spawn: Body, es: seq<EnemyState>, p: PlayerState, pause: bool,
                        dt: real, randoms: seq<real>): Round
    requires |randoms| == |es|
    requires forall i :: 0 <= i < |randoms| ==> 0.0 <= randoms[i] < 1.0
  {
    FirstEnemies(walls, spawn, es, p, pause, dt, randoms, |es|)
  }

  /** The round after the first n enemies of the list have had their turn. */
  function FirstEnemies(walls: Box -> bool, spawn: Body, es: seq<EnemyState>, p: PlayerState, pause: bool,
                        dt: real, randoms: seq<real>, n: nat): (r: Round)
    requires n <= |es| == |randoms|
    requires forall i :: 0 <= i < |randoms| ==> 0.0 <= randoms[i] < 1.0
    ensures |r.enemies| == n
  {
    if n == 0 then Round([], p, pause)
    else
      var r := FirstEnemies(walls, spawn, es, p, pause, dt, randoms, n - 1);
      var t := EnemyStep(walls, spawn, r.player, r.pause, es[n - 1], dt, randoms[n - 1]);
      Round(r.enemies + [t.enemy], t.player, t.pause)
  }

  /** One enemy of enemies.update: nothing once the game is paused, otherwise
      an enemy frame. */
  function EnemyStep(walls: Box -> bool, spawn: Body, p: PlayerState, pause: bool, e: EnemyState, dt: real, random: real): Turn
    requires 0.0 <= random < 1.0
  {
    if pause then Turn(e, p, pause) else EnemyFrame(walls, spawn, e, p, dt, random)
  }

  /** The first n enemies of a frame keep the invariants and take at most one
      life: the first touch leaves the player immortal or ends the game, which
      pauses the rest of the frame. An immortal player and a paused game are
      left alone. */
  lemma {:induction false} FirstEnemiesTakeAtMostOneLife(walls: Box -> bool, spawn: Body, es: seq<EnemyState>,
                                                        p: PlayerState, pause: bool, dt: real, randoms: seq<real>, n: nat)
    requires n <= |es| == |randoms|
    requires forall i :: 0 <= i < |randoms| ==> 0.0 <= randoms[i] < 1.0
    requires dt >= 0.0 && PlayerInv(p) && UnitVelocity(spawn) && (pause <==> p.isGameOver)
    requires forall i :: 0 <= i < |es| ==> EnemyInv(es[i])
    ensures var r := FirstEnemies(walls, spawn, es, p, pause, dt, randoms, n);
      && |r.enemies| == n
      && (forall i :: 0 <= i < n ==> EnemyInv(r.enemies[i]))
      && PlayerInv(r.player)
      && (r.pause <==> r.player.isGameOver)
      && (r.player.lives == p.lives ==> r.player == p)
      && (r.player.lives == p.lives - 1 ==> r.player.immortality || r.pause)
      && (r.player.lives == p.lives || r.player.lives == p.lives - 1)
      && (p.immortality ==> r.player == p)
      && (pause ==> r.player == p && r.enemies == es[..n] && r.pause)
  {
    if n > 0 {
      FirstEnemiesTakeAtMostOneLife(walls, spawn, es, p, pause, dt, randoms, n - 1);
      var r := FirstEnemies(walls, spawn, es, p, pause, dt, randoms, n - 1);
      if !r.pause {
        EnemyFrameKeepsInv(walls, spawn, es[n - 1], r.player, dt, randoms[n - 1]);
      } else {
        assert es[..n - 1] + [es[n - 1]] == es[..n];
      }
    }
  }

  /** The whole enemies frame: the invariants kept, at most one life taken. */
  lemma EnemiesFrameTakesAtMostOneLife(walls: Box -> bool, spawn: Body, es: seq<EnemyState>,
                                       p: PlayerState, pause: bool, dt: real, randoms: seq<real>)
    requires |randoms| == |es|
    requires forall i :: 0 <= i < |randoms| ==> 0.0 <= randoms[i] < 1.0
    requires dt >= 0.0 && PlayerInv(p) && UnitVelocity(spawn) && (pause <==> p.isGameOver)
    requires forall i :: 0 <= i < |es| ==> EnemyInv(es[i])
    ensures var r := EnemiesFrame(walls, spawn, es, p, pause, dt, randoms);
      && |r.enemies| == |es|
      && (forall i :: 0 <= i < |es| ==> EnemyInv(r.enemies[i]))
      && PlayerInv(r.player)
      && (r.pause <==> r.player.isGameOver)
      && (r.player.lives == p.lives || r.player.lives == p.lives - 1)
      && (r.player.lives == p.lives - 1 ==> r.player.immortality || r.pause)
      && (p.immortality ==> r.player == p)
      && (pause ==> r.player == p && r.enemies == es && r.pause)
  {
    FirstEnemiesTakeAtMostOneLife(walls, spawn, es, p, pause, dt, randoms, |es|);
    assert es[..|es|] == es;
  }

  // ---------------------------------------------------------------------------
  // The objects of the game
  // ---------------------------------------------------------------------------

  class Player {
    const rows: seq<seq<char>>
    const level: Arena
    const radius: real
    const speed: real
    var x: real
    var y: real
    var xVel: int
    var yVel: int
    var nextDir: Option<Dir>
    var lives: int
    var immortality: bool
    var immortalityTimer: real
    var isGameOver: bool

    function Body(): Motion.Body
      reads this
    {
      Motion.Body(x, y, xVel, yVel)
    }

    function State(): PlayerState
      reads this
    {
      PlayerState(Body(), nextDir, lives, immortality, immortalityTimer, isGameOver)
    }

    /** The player plays on a level with a 'P' cell; these fields never change. */
    ghost predicate OnLevel()
    {
      && IsLevel(rows)
      && level == Clamped(rows, TILE_SIZE)
      && radius == RADIUS && speed == PLAYER_SPEED
    }

    ghost predicate Valid()
      reads this
    {
      OnLevel() && PlayerInv(State())
    }

    /** A new player at the first 'P' cell. */
    constructor (rows: seq<seq<char>>)
      requires IsLevel(rows)
      ensures Valid() && this.rows == rows
      ensures State() == InitialPlayer(rows)
    {
      this.rows := rows;
      level := Clamped(rows, TILE_SIZE);
      radius := RADIUS;
      speed := PLAYER_SPEED;
      var spawn := Spawn(rows);
      x := spawn.x;
      y := spawn.y;
      xVel := 0;
      yVel := 0;
      nextDir := None;
      lives := PLAYERS_LIFE_COUNT;
      immortality := false;
      immortalityTimer := 0.0;
      isGameOver := false;
    }

    /** collisionWith(x, y, radius): the point lies within radius of the centre of
        a mortal player. */
    function CollisionWith(x: real, y: real, radius: real): (hit: bool)
      reads this
      ensures hit ==> !immortality
      ensures hit && radius >= 0.0 ==> Abs(x - this.x) < radius && Abs(y - this.y) < radius
      ensures !immortality && x == this.x && y == this.y && radius > 0.0 ==> hit
    {
      TouchesNear(State(), x, y, radius);
      var a := x - this.x;
      var b := y - this.y;
      !immortality && Sq(a) + Sq(b) < Sq(radius)
    }

    /** Back to the first 'P' cell, at rest. */
    method ResetPosition()
      requires HasMarker(rows, PLAYER_MARK, 0)
      modifies this
      ensures State() == old(State()).(body := Spawn(rows))
    {
      var c := FirstMarker(rows, PLAYER_MARK, 0);
      x := c.x as real * TILE_SIZE + TILE_SIZE / 2.0;
      y := c.y as real * TILE_SIZE + TILE_SIZE / 2.0;
      xVel := 0;
      yVel := 0;
    }

    /** takeLife(): the module-level pause flag lives in the game object. */
    method TakeLife(g: Game)
      requires Valid()
      modifies this, g`pause
      ensures Valid()
      ensures State() == LoseLife(Spawn(rows), old(State())).0
      ensures g.pause == (old(g.pause) || LoseLife(Spawn(rows), old(State())).1)
    {
      TakeLifeKeepsInv(Spawn(rows), State());
      lives := lives - 1;
      if lives > 0 {
        ResetPosition();
        immortality := true;
      } else {
        g.pause := true;
        isGameOver := true;
      }
    }

    /** One input block of update(): d becomes the queued direction when its key
        is held or it is already queued, and the player then turns toward d when
        the lookahead box is clear. */
    method Queue(walls: Box -> bool, held: bool, d: Dir, dt: real)
      requires radius == RADIUS && speed == PLAYER_SPEED
      modifies this
      ensures var (k, next) := QueueTurn(walls, old(Body()), old(nextDir), held, d, dt);
        State() == old(State()).(body := k, nextDir := next)
    {
      if held || nextDir == Some(d) {
        nextDir := Some(d);
        if !walls(Lookahead(Body(), radius, speed, dt, d)) {
          match d
          case Left => xVel := -1;
          case Right => xVel := 1;
          case Up => yVel := -1;
          case Down => yVel := 1;
        }
      }
    }

    /** The re-check of update(): an axis whose one-step box hits a wall is
        snapped and stopped, first x, then y. */
    method RecheckAxes(walls: Box -> bool, dt: real)
      modifies this
      ensures State() == old(State()).(body := Recheck(walls, TILE_SIZE, radius, speed, dt, old(Body())))
    {
      if walls(Rect(x, y, radius, Displacement(xVel, speed, dt), 0.0)) {
        x := Snap(x, radius, TILE_SIZE);
        xVel := 0;
      }
      if walls(Rect(x, y, radius, 0.0, Displacement(yVel, speed, dt))) {
        y := Snap(y, radius, TILE_SIZE);
        yVel := 0;
      }
    }

    /** The guarded move of update(). */
    method ApplyMove(dt: real)
      modifies this
      ensures State() == old(State()).(body := Advance(TILE_SIZE, speed, dt, old(Body())))
    {
      var moveX := Displacement(xVel, speed, dt);
      var moveY := Displacement(yVel, speed, dt);
      if Abs(moveX) < TILE_SIZE && Abs(moveY) < TILE_SIZE {
        x := x + moveX;
        y := y + moveY;
      }
    }

    /** The immortality countdown of update(). */
    method TickImmortality(dt: real)
      modifies this
      ensures State() == ImmortalityTick(old(State()), dt)
    {
      if immortality {
        immortalityTimer := immortalityTimer + dt;
        if immortalityTimer > IMMORTALITY_SECONDS {
          immortality := false;
          immortalityTimer := 0.0;
        }
      }
    }

    /** update(): nothing while paused; otherwise the four input blocks, the
        re-check of both axes, the guarded move and the immortality countdown. */
    method Update(paused: bool, keys: Keys, dt: real)
      requires Valid() && dt >= 0.0
      modifies this
      ensures Valid() && isGameOver == old(isGameOver)
      ensures paused ==> State() == old(State())
      ensures !paused ==> State() == PlayerFrame(level.Walls(), old(State()), keys, dt)
    {
      if paused {
        return;
      }
      PlayerFrameKeepsInv(level.Walls(), State(), keys, dt);
      var walls := level.Walls();
      Queue(walls, keys.left, Left, dt);
      Queue(walls, keys.right, Right, dt);
      Queue(walls, keys.up, Up, dt);
      Queue(walls, keys.down, Down, dt);
      RecheckAxes(walls, dt);
      ApplyMove(dt);
      TickImmortality(dt);
    }
  }

  class Camera {
    var x: real
    var y: real

    /** Centred on the target. */
    constructor (targetX: real, targetY: real)
      ensures x == targetX - SCREEN_WIDTH / 2.0 && y == targetY - SCREEN_HEIGHT / 2.0
    {
      x := targetX - SCREEN_WIDTH / 2.0;
      y := targetY - SCREEN_HEIGHT / 2.0;
    }

    /** update(targetX, targetY): moves 7 * dt of the way toward centring the
        target, then is kept inside a map of the given width and height (in
        tiles). */
    method Update(targetX: real, targetY: real, dt: real, width: int, height: int)
      modifies this
      ensures x == ClampView(Lerp(old(x), targetX - SCREEN_WIDTH / 2.0, CAMERA_RATE * dt),
                             width as real * TILE_SIZE - SCREEN_WIDTH)
      ensures y == ClampView(Lerp(old(y), targetY - SCREEN_HEIGHT / 2.0, CAMERA_RATE * dt),
                             height as real * TILE_SIZE - SCREEN_HEIGHT)
      ensures width as real * TILE_SIZE >= SCREEN_WIDTH ==> 0.0 <= x <= width as real * TILE_SIZE - SCREEN_WIDTH
      ensures height as real * TILE_SIZE >= SCREEN_HEIGHT ==> 0.0 <= y <= height as real * TILE_SIZE - SCREEN_HEIGHT
    {
      x := Lerp(x, targetX - SCREEN_WIDTH / 2.0, CAMERA_RATE * dt);
      y := Lerp(y, targetY - SCREEN_HEIGHT / 2.0, CAMERA_RATE * dt);
      if x < 0.0 {
        x := 0.0;
      }
      if x > width as real * TILE_SIZE - SCREEN_WIDTH {
        x := width as real * TILE_SIZE - SCREEN_WIDTH;
      }
      if y < 0.0 {
        y := 0.0;
      }
      if y > height as real * TILE_SIZE - SCREEN_HEIGHT {
        y := height as real * TILE_SIZE - SCREEN_HEIGHT;
      }
    }
  }

  class Enemy {
    const level: Arena
    const radius: real
    const speed: real
    var x: real
    var y: real
    var xVel: int
    var yVel: int
    var playersLastSeenDir: Option<Dir>
    var playersLastSeenDirTimer: real

    function Body(): Motion.Body
      reads this
    {
      Motion.Body(x, y, xVel, yVel)
    }

    function State(): EnemyState
      reads this
    {
      EnemyState(Body(), playersLastSeenDir, playersLastSeenDirTimer)
    }

    /** The enemy moves on a clamped-window level of 30-pixel tiles; these fields
        never change. */
    ghost predicate OnLevel()
    {
      && level.Clamped? && level.Valid() && level.tile == TILE_SIZE
      && radius == RADIUS && speed == ENEMY_SPEED
    }

    ghost predicate Valid()
      reads this
    {
      OnLevel() && EnemyInv(State())
    }

    /** A new enemy on the tile whose top-left corner is (x, y), at rest, with no
        direction locked. */
    constructor (level: Arena, x: real, y: real)
      requires level.Clamped? && level.Valid() && level.tile == TILE_SIZE
      ensures Valid() && this.level == level
      ensures State() == EnemyState(Motion.Body(x + TILE_SIZE / 2.0, y + TILE_SIZE / 2.0, 0, 0), None, 0.0)
    {
      this.level := level;
      radius := RADIUS;
      speed := ENEMY_SPEED;
      this.x := x + TILE_SIZE / 2.0;
      this.y := y + TILE_SIZE / 2.0;
      xVel := 0;
      yVel := 0;
      playersLastSeenDir := None;
      playersLastSeenDirTimer := 0.0;
    }

    /** The candidate list of evaluatingNextDir(), filled in the order left,
        right, up, down. */
    method CollectNextDirs(walls: Box -> bool, dt: real) returns (nextDir: seq<Dir>)
      requires OnLevel()
      ensures nextDir == Candidates(walls, TILE_SIZE, RADIUS, ENEMY_SPEED, dt, Body())
    {
      nextDir := [];
      if xVel != 1 && !walls(Lookahead(Body(), radius, speed, dt, Left)) {
        nextDir := nextDir + [Left];
      }
      ghost var k := Body();
      assert nextDir == Consider(walls, TILE_SIZE, RADIUS, ENEMY_SPEED, dt, k, Left);
      if xVel != -1 && !walls(Lookahead(Body(), radius, speed, dt, Right)) {
        nextDir := nextDir + [Right];
      }
      assert nextDir == Consider(walls, TILE_SIZE, RADIUS, ENEMY_SPEED, dt, k, Left)
        + Consider(walls, TILE_SIZE, RADIUS, ENEMY_SPEED, dt, k, Right);
      if yVel != 1 && !walls(Lookahead(Body(), radius, speed, dt, Up)) {
        nextDir := nextDir + [Up];
      }
      assert nextDir == Consider(walls, TILE_SIZE, RADIUS, ENEMY_SPEED, dt, k, Left)
        + Consider(walls, TILE_SIZE, RADIUS, ENEMY_SPEED, dt, k, Right)
        + Consider(walls, TILE_SIZE, RADIUS, ENEMY_SPEED, dt, k, Up);
      if yVel != -1 && !walls(Lookahead(Body(), radius, speed, dt, Down)) {
        nextDir := nextDir + [Down];
      }
    }

    /** evaluatingNextDir(): nothing while a direction is locked; otherwise the
        candidate at floor(random * count) is taken, when there is one. */
    method EvaluatingNextDir(dt: real, random: real)
      requires Valid() && 0.0 <= random < 1.0
      modifies this
      ensures old(playersLastSeenDir).Some? ==> State() == old(State())
      ensures old(playersLastSeenDir).None? ==>
        State() == old(State()).(body := Wander(level.Walls(), TILE_SIZE, RADIUS, ENEMY_SPEED, dt, old(Body()), random))
    {
      if playersLastSeenDir.Some? {
        return;
      }
      var nextDir := CollectNextDirs(level.Walls(), dt);
      match Pick(nextDir, random) {
        case None =>
        case Some(Left) => xVel := -1;
        case Some(Right) => xVel := 1;
        case Some(Up) => yVel := -1;
        case Some(Down) => yVel := 1;
      }
    }

    /** canSeePlayer(dir): the ten points one tile apart from the enemy's centre
        toward dir are sampled in turn; true at the first one the player touches. */
    method CanSeePlayer(player: Player, d: Dir) returns (seen: bool)
      requires OnLevel()
      ensures seen <==> Sees(player.State(), Body(), d)
    {
      var length := SIGHT_LENGTH as real;
      ghost var i := 0;
      match d {
        case Left =>
          var px := x;
          while px > x - TILE_SIZE * length
            invariant 0 <= i <= SIGHT_LENGTH && px == x - i as real * TILE_SIZE
            invariant forall j :: 0 <= j < i ==> !Touches(player.State(), SightX(Body(), d, j), SightY(Body(), d, j), RADIUS)
            decreases SIGHT_LENGTH - i
          {
            if player.CollisionWith(px, y, radius) {
              assert Touches(player.State(), SightX(Body(), d, i), SightY(Body(), d, i), RADIUS);
              return true;
            }
            px := px - TILE_SIZE;
            i := i + 1;
          }
        case Right =>
          var px := x;
          while px < x + TILE_SIZE * length
            invariant 0 <= i <= SIGHT_LENGTH && px == x + i as real * TILE_SIZE
            invariant forall j :: 0 <= j < i ==> !Touches(player.State(), SightX(Body(), d, j), SightY(Body(), d, j), RADIUS)
            decreases SIGHT_LENGTH - i
          {
            if player.CollisionWith(px, y, radius) {
              assert Touches(player.State(), SightX(Body(), d, i), SightY(Body(), d, i), RADIUS);
              return true;
            }
            px := px + TILE_SIZE;
            i := i + 1;
          }
        case Up =>
          var py := y;
          while py > y - TILE_SIZE * length
            invariant 0 <= i <= SIGHT_LENGTH && py == y - i as real * TILE_SIZE
            invariant forall j :: 0 <= j < i ==> !Touches(player.State(), SightX(Body(), d, j), SightY(Body(), d, j), RADIUS)
            decreases SIGHT_LENGTH - i
          {
            if player.CollisionWith(x, py, radius) {
              assert Touches(player.State(), SightX(Body(), d, i), SightY(Body(), d, i), RADIUS);
              return true;
            }
            py := py - TILE_SIZE;
            i := i + 1;
          }
        case Down =>
          var py := y;
          while py < y + TILE_SIZE * length
            invariant 0 <= i <= SIGHT_LENGTH && py == y + i as real * TILE_SIZE
            invariant forall j :: 0 <= j < i ==> !Touches(player.State(), SightX(Body(), d, j), SightY(Body(), d, j), RADIUS)
            decreases SIGHT_LENGTH - i
          {
            if player.CollisionWith(x, py, radius) {
              assert Touches(player.State(), SightX(Body(), d, i), SightY(Body(), d, i), RADIUS);
              return true;
            }
            py := py + TILE_SIZE;
            i := i + 1;
          }
      }
      return false;
    }

    /** changingDirWhenSpottingPlayer(): the four rays in the order left, right,
        up, down, then the lock timer. */
    method ChangingDirWhenSpottingPlayer(player: Player, dt: real)
      requires OnLevel()
      modifies this
      ensures State() == Pursue(old(State()), player.State(), dt)
    {
      ghost var k := Body();
      var seen := CanSeePlayer(player, Left);
      if seen {
        xVel := -1;
        playersLastSeenDir := Some(Left);
      }
      seen := CanSeePlayer(player, Right);
      SeesIgnoresVelocity(player.State(), k, Body(), Right);
      if seen {
        xVel := 1;
        playersLastSeenDir := Some(Right);
      }
      seen := CanSeePlayer(player, Up);
      SeesIgnoresVelocity(player.State(), k, Body(), Up);
      if seen {
        yVel := -1;
        playersLastSeenDir := Some(Up);
      }
      seen := CanSeePlayer(player, Down);
      SeesIgnoresVelocity(player.State(), k, Body(), Down);
      if seen {
        yVel := 1;
        playersLastSeenDir := Some(Down);
      }
      if playersLastSeenDir.Some? {
        playersLastSeenDirTimer := playersLastSeenDirTimer + dt;
        if playersLastSeenDirTimer > PURSUIT_SECONDS {
          playersLastSeenDir := None;
          playersLastSeenDirTimer := 0.0;
        }
      }
    }

    /** The re-check of update(): an axis whose one-step box hits a wall is
        snapped and stopped, first x, then y. */
    method RecheckAxes(walls: Box -> bool, dt: real)
      requires OnLevel()
      modifies this
      ensures State() == old(State()).(body := Recheck(walls, TILE_SIZE, RADIUS, ENEMY_SPEED, dt, old(Body())))
    {
      if walls(Rect(x, y, radius, Displacement(xVel, speed, dt), 0.0)) {
        x := Snap(x, radius, TILE_SIZE);
        xVel := 0;
      }
      if walls(Rect(x, y, radius, 0.0, Displacement(yVel, speed, dt))) {
        y := Snap(y, radius, TILE_SIZE);
        yVel := 0;
      }
    }

    /** The guarded move of update(). */
    method ApplyMove(dt: real)
      requires OnLevel()
      modifies this
      ensures State() == old(State()).(body := Advance(TILE_SIZE, ENEMY_SPEED, dt, old(Body())))
    {
      var moveX := Displacement(xVel, speed, dt);
      var moveY := Displacement(yVel, speed, dt);
      if Abs(moveX) < TILE_SIZE && Abs(moveY) < TILE_SIZE {
        x := x + moveX;
        y := y + moveY;
      }
    }

    /** The moves of update() before the contact check. */
    method ApproachStep(player: Player, dt: real, random: real)
      requires Valid() && 0.0 <= random < 1.0
      modifies this
      ensures OnLevel()
      ensures State() == Approach(level.Walls(), old(State()), player.State(), dt, random)
    {
      EvaluatingNextDir(dt, random);
      ChangingDirWhenSpottingPlayer(player, dt);
      RecheckAxes(level.Walls(), dt);
    }

    /** update(): nothing while the game is paused; otherwise wander, pursue,
        re-check, take a life from a player touched at the re-checked position,
        then the guarded move. */
    method Update(g: Game, dt: real, random: real)
      requires Valid() && g.player.Valid() && 0.0 <= random < 1.0 && dt >= 0.0
      requires g.pause <==> g.player.isGameOver
      modifies this, g.player, g`pause
      ensures Valid() && g.player.Valid() && (g.pause <==> g.player.isGameOver)
      ensures Turn(State(), g.player.State(), g.pause)
        == EnemyStep(level.Walls(), Spawn(g.player.rows), old(g.player.State()), old(g.pause), old(State()), dt, random)
    {
      if g.pause {
        return;
      }
      var player := g.player;
      EnemyFrameKeepsInv(level.Walls(), Spawn(player.rows), State(), player.State(), dt, random);
      ApproachStep(player, dt, random);
      if player.CollisionWith(x, y, radius) {
        player.TakeLife(g);
      }
      ApplyMove(dt);
    }
  }

  class Enemies {
    const rows: seq<seq<char>>
    var enemies: seq<Enemy>

    function States(): (es: seq<EnemyState>)
      reads this, enemies
      ensures |es| == |enemies| && forall i :: 0 <= i < |enemies| ==> es[i] == enemies[i].State()
    {
      seq(|enemies|, i reads this, enemies requires 0 <= i < |enemies| => enemies[i].State())
    }

    ghost predicate Valid()
      reads this, enemies
    {
      && |rows| > 0
      && (forall i, j :: 0 <= i < j < |enemies| ==> enemies[i] != enemies[j])
      && (forall i :: 0 <= i < |enemies| ==> enemies[i].level == Clamped(rows, TILE_SIZE) && enemies[i].Valid())
    }

    /** One new enemy per 'E' cell, in row-major order. */
    constructor (rows: seq<seq<char>>)
      requires |rows| > 0
      ensures Valid() && this.rows == rows
      ensures States() == InitialEnemies(rows)
      ensures forall i :: 0 <= i < |enemies| ==> fresh(enemies[i])
    {
      var level := Clamped(rows, TILE_SIZE);
      var cs := Coordinates(rows, ENEMY_MARK, 0);
      var list: seq<Enemy> := [];
      var i := 0;
      while i < |cs|
        invariant 0 <= i <= |cs| && |list| == i
        invariant forall j, k :: 0 <= j < k < i ==> list[j] != list[k]
        invariant forall j :: 0 <= j < i ==> fresh(list[j])
        invariant forall j :: 0 <= j < i ==>
          list[j].level == level && list[j].Valid() && list[j].State() == EnemyAt(cs[j])
      {
        var e := new Enemy(level, cs[i].x as real * TILE_SIZE, cs[i].y as real * TILE_SIZE);
        list := list + [e];
        i := i + 1;
      }
      this.rows := rows;
      enemies := list;
    }

    /** The i-th enemy's update, from enemy state e and player state p; the
        other enemies stay as they are. */
    method UpdateAt(g: Game, dt: real, random: real, i: nat, ghost e: EnemyState, ghost p: PlayerState)
      requires Valid() && g.player.Valid() && g.player.rows == rows && (g.pause <==> g.player.isGameOver)
      requires i < |enemies| && 0.0 <= random < 1.0 && dt >= 0.0
      requires enemies[i].State() == e && g.player.State() == p
      modifies enemies[i], g.player, g`pause
      ensures Valid() && g.player.Valid() && (g.pause <==> g.player.isGameOver)
      ensures Turn(enemies[i].State(), g.player.State(), g.pause)
        == EnemyStep(Clamped(rows, TILE_SIZE).Walls(), Spawn(rows), p, old(g.pause), e, dt, random)
      ensures forall j :: 0 <= j < |enemies| && j != i ==> enemies[j].State() == old(enemies[j].State())
    {
      enemies[i].Update(g, dt, random);
    }

    /** update(): every enemy in order. */
    method Update(g: Game, dt: real, randoms: seq<real>)
      requires Valid() && g.player.Valid() && g.player.rows == rows && (g.pause <==> g.player.isGameOver)
      requires dt >= 0.0 && |randoms| == |enemies| && forall i :: 0 <= i < |randoms| ==> 0.0 <= randoms[i] < 1.0
      modifies enemies, g.player, g`pause
      ensures Valid() && g.player.Valid() && (g.pause <==> g.player.isGameOver)
      ensures var r := EnemiesFrame(Clamped(rows, TILE_SIZE).Walls(), Spawn(rows), old(States()), old(g.player.State()),
                                    old(g.pause), dt, randoms);
        States() == r.enemies && g.player.State() == r.player && g.pause == r.pause
    {
      ghost var walls := Clamped(rows, TILE_SIZE).Walls();
      ghost var spawn := Spawn(rows);
      ghost var es := States();
      ghost var p := g.player.State();
      ghost var pause := g.pause;
      UpdatedNone(g, walls, spawn, es, p, pause, dt, randoms);
      var i := 0;
      while i < |enemies|
        invariant UpdatedFirst(g, walls, spawn, es, p, pause, dt, randoms, i)
        decreases |enemies| - i
      {
        UpdateNext(g, dt, randoms, i, walls, spawn, es, p, pause);
        i := i + 1;
      }
      UpdatedAll(g, walls, spawn, es, p, pause, dt, randoms);
    }

    /** After updating the first n enemies: they, the player and the pause flag are
        as the first n steps of the frame make them, the rest are untouched, and
        the enemies and the player are still valid. */
    ghost predicate UpdatedFirst(g: Game, walls: Box -> bool, spawn: Body, es: seq<EnemyState>, p: PlayerState,
                                 pause: bool, dt: real, randoms: seq<real>, n: nat)
      reads this, enemies, g, g.player
    {
      && Valid() && g.player.Valid() && g.player.rows == rows && (g.pause <==> g.player.isGameOver)
      && walls == Clamped(rows, TILE_SIZE).Walls() && spawn == Spawn(rows)
      && n <= |es| == |randoms| == |enemies|
      && (forall i :: 0 <= i < |randoms| ==> 0.0 <= randoms[i] < 1.0)
      && var r := FirstEnemies(walls, spawn, es, p, pause, dt, randoms, n);
      && g.player.State() == r.player && g.pause == r.pause
      && (forall j :: 0 <= j < n ==> enemies[j].State() == r.enemies[j])
      && (forall j :: n <= j < |enemies| ==> enemies[j].State() == es[j])
    }

    lemma UpdatedNone(g: Game, walls: Box -> bool, spawn: Body, es: seq<EnemyState>, p: PlayerState,
                      pause: bool, dt: real, randoms: seq<real>)
      requires Valid() && g.player.Valid() && g.player.rows == rows && (g.pause <==> g.player.isGameOver)
      requires walls == Clamped(rows, TILE_SIZE).Walls() && spawn == Spawn(rows)
      requires |randoms| == |enemies| && forall i :: 0 <= i < |randoms| ==> 0.0 <= randoms[i] < 1.0
      requires es == States() && p == g.player.State() && pause == g.pause
      ensures UpdatedFirst(g, walls, spawn, es, p, pause, dt, randoms, 0)
    {
    }

    lemma UpdatedAll(g: Game, walls: Box -> bool, spawn: Body, es: seq<EnemyState>, p: PlayerState,
                     pause: bool, dt: real, randoms: seq<real>)
      requires UpdatedFirst(g, walls, spawn, es, p, pause, dt, randoms, |enemies|)
      ensures Valid() && g.player.Valid() && (g.pause <==> g.player.isGameOver)
      ensures var r := EnemiesFrame(walls, spawn, es, p, pause, dt, randoms);
        States() == r.enemies && g.player.State() == r.player && g.pause == r.pause
    {
      assert es[..|es|] == es;
    }

    /** One turn of the loop in update(): the n-th enemy takes its step. */
    method UpdateNext(g: Game, dt: real, randoms: seq<real>, n: nat, ghost walls: Box -> bool, ghost spawn: Body,
                      ghost es: seq<EnemyState>, ghost p: PlayerState, ghost pause: bool)
      requires dt >= 0.0 && n < |enemies|
      requires UpdatedFirst(g, walls, spawn, es, p, pause, dt, randoms, n)
      modifies enemies, g.player, g`pause
      ensures UpdatedFirst(g, walls, spawn, es, p, pause, dt, randoms, n + 1)
    {
      ghost var r := FirstEnemies(walls, spawn, es, p, pause, dt, randoms, n);
      UpdateAt(g, dt, randoms[n], n, es[n], r.player);
    }
  }

  /** The world the frame loop steps: the enemies, the player and the pause flag. */
  predicate WorldInv(w: Round)
  {
    && PlayerInv(w.player)
    && (w.pause <==> w.player.isGameOver)
    && forall i :: 0 <= i < |w.enemies| ==> EnemyInv(w.enemies[i])
  }

  /** A new round: the state the game starts in and restarts to. */
  function InitialWorld(rows: seq<seq<char>>): (w: Round)
    requires IsLevel(rows)
    ensures WorldInv(w) && !w.pause
  {
    Round(InitialEnemies(rows), InitialPlayer(rows), false)
  }

  /** One frame of the game loop: player.update(), enemies.update(), then
      gameOver.update(), which restarts the round when the game is over and Space
      or Enter is held. */
  function Tick(rows: seq<seq<char>>, w: Round, keys: Keys, dt: real, randoms: seq<real>): Round
    requires IsLevel(rows) && |randoms| == |w.enemies|
    requires forall i :: 0 <= i < |randoms| ==> 0.0 <= randoms[i] < 1.0
  {
    GameOverStage(rows, EnemiesStage(rows, PlayerStage(rows, w, keys, dt), dt, randoms), keys)
  }

  /** player.update(): the player moves unless the game is paused. */
  function PlayerStage(rows: seq<seq<char>>, w: Round, keys: Keys, dt: real): Round
    requires IsLevel(rows)
  {
    if w.pause then w else w.(player := PlayerFrame(Clamped(rows, TILE_SIZE).Walls(), w.player, keys, dt))
  }

  /** enemies.update(): every enemy takes its turn. */
  function EnemiesStage(rows: seq<seq<char>>, w: Round, dt: real, randoms: seq<real>): Round
    requires IsLevel(rows) && |randoms| == |w.enemies|
    requires forall i :: 0 <= i < |randoms| ==> 0.0 <= randoms[i] < 1.0
  {
    EnemiesFrame(Clamped(rows, TILE_SIZE).Walls(), Spawn(rows), w.enemies, w.player, w.pause, dt, randoms)
  }

  /** gameOver.update(): a new round once the game is over and Space or Enter is held. */
  function GameOverStage(rows: seq<seq<char>>, w: Round, keys: Keys): Round
    requires IsLevel(rows)
  {
    if w.player.isGameOver && (keys.space || keys.enter) then InitialWorld(rows) else w
  }

  /** A frame keeps the world invariant and either restarts the round or takes at
      most one life; a paused game stays as it is until Space or Enter restarts
      it; an immortal player loses no life. */
  lemma {:induction false} TickKeepsInv(rows: seq<seq<char>>, w: Round, keys: Keys, dt: real, randoms: seq<real>)
    requires IsLevel(rows) && |randoms| == |w.enemies| && dt >= 0.0
    requires forall i :: 0 <= i < |randoms| ==> 0.0 <= randoms[i] < 1.0
    requires WorldInv(w)
    ensures var t := Tick(rows, w, keys, dt, randoms);
      && WorldInv(t)
      && (t == InitialWorld(rows) || t.player.lives == w.player.lives || t.player.lives == w.player.lives - 1)
      && (w.pause ==> t == if keys.space || keys.enter then InitialWorld(rows) else w)
      && (!w.pause && w.player.immortality && w.player.immortalityTimer + dt <= IMMORTALITY_SECONDS && t != InitialWorld(rows)
          ==> t.player.lives == w.player.lives)
  {
    var walls := Clamped(rows, TILE_SIZE).Walls();
    var spawn := Spawn(rows);
    var p := if w.pause then w.player else PlayerFrame(walls, w.player, keys, dt);
    if !w.pause {
      PlayerFrameKeepsInv(walls, w.player, keys, dt);
    }
    EnemiesFrameTakesAtMostOneLife(walls, spawn, w.enemies, p, w.pause, dt, randoms);
  }

  class Game {
    const rows: seq<seq<char>>
    const camera: Camera
    var pause: bool
    var player: Player
    var enemies: Enemies

    function World(): Round
      reads this, player, enemies, enemies.enemies
    {
      Round(enemies.States(), player.State(), pause)
    }

    ghost predicate Valid()
      reads this, player, enemies, enemies.enemies
    {
      && IsLevel(rows)
      && player.Valid() && player.rows == rows
      && enemies.Valid() && enemies.rows == rows
      && (pause <==> player.isGameOver)
    }

    /** The start of the game: a new player and new enemies, the camera centred
        on the player, not paused. */
    constructor (rows: seq<seq<char>>)
      requires IsLevel(rows)
      ensures Valid() && this.rows == rows
      ensures World() == InitialWorld(rows)
      ensures camera.x == Spawn(rows).x - SCREEN_WIDTH / 2.0 && camera.y == Spawn(rows).y - SCREEN_HEIGHT / 2.0
    {
      this.rows := rows;
      pause := false;
      var p := new Player(rows);
      player := p;
      enemies := new Enemies(rows);
      camera := new Camera(p.x, p.y);
    }

    /** gameOver.update(): once the game is over, Space or Enter clears the pause
        and rebuilds the player and the enemies. */
    method GameOverUpdate(keys: Keys)
      requires Valid()
      modifies this
      ensures Valid()
      ensures World() == GameOverStage(rows, old(World()), keys)
      ensures if old(player.isGameOver) && (keys.space || keys.enter)
              then fresh(player) && fresh(enemies)
              else player == old(player) && enemies == old(enemies)
    {
      if !player.isGameOver {
        return;
      }
      if keys.space || keys.enter {
        pause := false;
        player := new Player(rows);
        enemies := new Enemies(rows);
      }
    }

    /** player.update(pause, keys, dt), then camera.update(player.x, player.y, dt)
        over this level's size. */
    method PlayerUpdate(keys: Keys, dt: real)
      requires Valid() && dt >= 0.0
      modifies player, camera
      ensures Valid() && World() == PlayerStage(rows, old(World()), keys, dt)
      ensures |rows[0]| as real * TILE_SIZE >= SCREEN_WIDTH ==>
        0.0 <= camera.x <= |rows[0]| as real * TILE_SIZE - SCREEN_WIDTH
      ensures |rows| as real * TILE_SIZE >= SCREEN_HEIGHT ==>
        0.0 <= camera.y <= |rows| as real * TILE_SIZE - SCREEN_HEIGHT
    {
      MovePlayer(keys, dt);
      Follow(player.x, player.y, dt);
    }

    /** player.update(pause, keys, dt). */
    method MovePlayer(keys: Keys, dt: real)
      requires Valid() && dt >= 0.0
      modifies player
      ensures Valid() && World() == PlayerStage(rows, old(World()), keys, dt)
    {
      player.Update(pause, keys, dt);
    }

    /** camera.update(targetX, targetY, dt) over this level's size. */
    method Follow(targetX: real, targetY: real, dt: real)
      requires |rows| > 0
      modifies camera
      ensures |rows[0]| as real * TILE_SIZE >= SCREEN_WIDTH ==>
        0.0 <= camera.x <= |rows[0]| as real * TILE_SIZE - SCREEN_WIDTH
      ensures |rows| as real * TILE_SIZE >= SCREEN_HEIGHT ==>
        0.0 <= camera.y <= |rows| as real * TILE_SIZE - SCREEN_HEIGHT
    {
      camera.Update(targetX, targetY, dt, |rows[0]|, |rows|);
    }

    /** enemies.update(dt). */
    method EnemiesUpdate(dt: real, randoms: seq<real>)
      requires Valid() && dt >= 0.0
      requires |randoms| == |enemies.enemies| && forall i :: 0 <= i < |randoms| ==> 0.0 <= randoms[i] < 1.0
      modifies enemies.enemies, player, this`pause
      ensures Valid() && World() == EnemiesStage(rows, old(World()), dt, randoms)
    {
      enemies.Update(this, dt, randoms);
    }

    /** enemies.update(dt), then gameOver.update(); the camera stays where it is. */
    method EnemiesThenGameOver(keys: Keys, dt: real, randoms: seq<real>)
      requires Valid() && dt >= 0.0
      requires |randoms| == |enemies.enemies| && forall i :: 0 <= i < |randoms| ==> 0.0 <= randoms[i] < 1.0
      modifies this, player, enemies.enemies
      ensures Valid() && camera.x == old(camera.x) && camera.y == old(camera.y)
      ensures World() == GameOverStage(rows, EnemiesStage(rows, old(World()), dt, randoms), keys)
    {
      EnemiesUpdate(dt, randoms);
      GameOverUpdate(keys);
    }

    /** One frame of the game loop: the player, the camera following the player,
        the enemies, and the game-over screen. */
    method Frame(keys: Keys, dt: real, randoms: seq<real>)
      requires Valid() && dt >= 0.0
      requires |randoms| == |enemies.enemies| && forall i :: 0 <= i < |randoms| ==> 0.0 <= randoms[i] < 1.0
      modifies this, player, camera, enemies.enemies
      ensures Valid()
      ensures World() == Tick(rows, old(World()), keys, dt, randoms)
      ensures |rows[0]| as real * TILE_SIZE >= SCREEN_WIDTH ==>
        0.0 <= camera.x <= |rows[0]| as real * TILE_SIZE - SCREEN_WIDTH
      ensures |rows| as real * TILE_SIZE >= SCREEN_HEIGHT ==>
        0.0 <= camera.y <= |rows| as real * TILE_SIZE - SCREEN_HEIGHT
    {
      PlayerUpdate(keys, dt);
      EnemiesThenGameOver(keys, dt, randoms);
    }
  }
}
