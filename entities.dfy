/** The value side of src/objects.py: entity kinds and their fields, the
    sub-tile motion of a `MovingObject`, the constructors' initial values and
    the pure decisions the entities take (countdowns, the little devil's
    chase, the ghost's heading). The rules that change the game live in
    module Behaviour. */
module Entities {
  import opened Optional
  import opened Directions
  import opened Const

  /** A cell `(x, y)` of the map; `y` indexes rows. */
  type Pos = (int, int)

  /** `position_after_moving` on a cell. */
  function Next(p: Pos, d: Direction): Pos {
    PositionAfterMoving(p.0, p.1, d)
  }

  /** The terrain alphabet (the keys of the table in src/tiles.py). */
  const WALL := '#'
  const GRASS := '.'
  const WATER := '_'
  const SAND := '~'
  const LILY := 'l'
  const UNIVERSAL_PAD := 'u'
  const UNIVERSAL_MAGNETIC_PAD := 'U'
  const TERRAIN := {WALL, GRASS, WATER, SAND, LILY, 'r', 'g', 'b', UNIVERSAL_PAD, 'R', 'G', 'B', UNIVERSAL_MAGNETIC_PAD}

  /** The pad of a colour: the first letter of its name. */
  function Pad(c: Color): (r: char)
    ensures r == ColorName(c)[0] && r in TERRAIN
  {
    match c
    case Red => 'r'
    case Green => 'g'
    case Blue => 'b'
  }

  /** The magnetic pad of a colour: the capitalised first letter. */
  function MagneticPad(c: Color): (r: char)
    ensures r in TERRAIN && r != Pad(c)
  {
    match c
    case Red => 'R'
    case Green => 'G'
    case Blue => 'B'
  }

  /** The four magnetic pads a ball cannot leave. */
  predicate IsMagnetic(t: char) {
    t == 'R' || t == 'G' || t == 'B' || t == UNIVERSAL_MAGNETIC_PAD
  }

  /** `str.lower` on one character of the terrain alphabet. */
  function Lower(t: char): (r: char)
    ensures t in TERRAIN ==> r in TERRAIN
  {
    if 'A' <= t <= 'Z' then (t as int + 32) as char else t
  }

  /** A ball loaded on a cell is seated when the cell, lower-cased, is its
      pad: its own pad or its own magnetic pad, but not the universal ones. */
  lemma LowerSeatsOwnPadsOnly(c: Color, t: char)
    requires t in TERRAIN
    ensures Lower(t) == Pad(c) <==> t == Pad(c) || t == MagneticPad(c)
  {
  }

  /** The motion state of a `MovingObject`: the direction it is committed
      to (`None` for the source's `False`), its sub-tile offset and the
      distance it covers per update. */
  datatype Motion = Motion(inMove: Option<Direction>, deltaX: real, deltaY: real, stepSize: real)

  /** `step_size` for a speed in tiles per second. */
  function StepSize(speed: real): real {
    (TILE_SIZE as real) * speed / (CLOCK_TICK as real)
  }

  /** A `MovingObject` as its constructor leaves it. */
  function Still(speed: real): Motion {
    Motion(None, 0.0, 0.0, StepSize(speed))
  }

  /** The offset along the axis of `d`, counted positive towards `d`. */
  function Along(m: Motion, d: Direction): real {
    match d
    case Left => -m.deltaX
    case Right => m.deltaX
    case Up => -m.deltaY
    case Down => m.deltaY
  }

  /** The offset on the axis `d` does not move along. */
  function Across(m: Motion, d: Direction): real {
    if IsHorizontal(d) then m.deltaY else m.deltaX
  }

  datatype Progress = Progress(motion: Motion, arrived: bool)

  /** The offset bookkeeping of `MovingObject.update` (and of the copies in
      `Player.update` and `Cannonball.update`): move the offset one step
      towards the committed direction; a whole tile is an arrival, which
      zeroes the offset on that axis. */
  function Advance(m: Motion): (r: Progress)
    ensures r.motion.inMove == m.inMove && r.motion.stepSize == m.stepSize
    ensures m.inMove.None? ==> r == Progress(m, false)
    ensures m.inMove.Some? ==>
      var d := m.inMove.value;
      && (r.arrived <==> Along(m, d) + m.stepSize >= TILE_SIZE as real)
      && Along(r.motion, d) == (if r.arrived then 0.0 else Along(m, d) + m.stepSize)
      && Across(r.motion, d) == Across(m, d)
  {
    match m.inMove
    case None => Progress(m, false)
    case Some(Up) =>
      var dy := m.deltaY - m.stepSize;
      if -dy >= TILE_SIZE as real then Progress(m.(deltaY := 0.0), true) else Progress(m.(deltaY := dy), false)
    case Some(Down) =>
      var dy := m.deltaY + m.stepSize;
      if dy >= TILE_SIZE as real then Progress(m.(deltaY := 0.0), true) else Progress(m.(deltaY := dy), false)
    case Some(Left) =>
      var dx := m.deltaX - m.stepSize;
      if -dx >= TILE_SIZE as real then Progress(m.(deltaX := 0.0), true) else Progress(m.(deltaX := dx), false)
    case Some(Right) =>
      var dx := m.deltaX + m.stepSize;
      if dx >= TILE_SIZE as real then Progress(m.(deltaX := 0.0), true) else Progress(m.(deltaX := dx), false)
  }

  /** `n` updates of a mover, stopping at the arrival. */
  function Glide(m: Motion, n: nat): Progress {
    if n == 0 then Progress(m, false)
    else
      var r := Glide(m, n - 1);
      if r.arrived then r else Advance(r.motion)
  }

  /** The distance `n` steps of `step` cover. */
  function Travel(n: nat, step: real): real {
    if n == 0 then 0.0 else Travel(n - 1, step) + step
  }

  lemma {:induction false} TravelIsProduct(n: nat, step: real)
    ensures Travel(n, step) == (n as real) * step
  {
    if n > 0 {
      TravelIsProduct(n - 1, step);
      assert (n as real) * step == ((n - 1) as real) * step + step;
    }
  }

  /** A mover committed from rest with a positive step arrives within `n`
      updates exactly when `n` steps cover a tile; until then its offset is
      the distance `n` steps cover. */
  lemma {:induction false} GlideFromRest(m: Motion, n: nat)
    requires m.inMove.Some? && Along(m, m.inMove.value) == 0.0 && m.stepSize > 0.0
    ensures Glide(m, n).arrived <==> Travel(n, m.stepSize) >= TILE_SIZE as real
    ensures !Glide(m, n).arrived ==> Along(Glide(m, n).motion, m.inMove.value) == Travel(n, m.stepSize)
    ensures Glide(m, n).motion.inMove == m.inMove && Glide(m, n).motion.stepSize == m.stepSize
  {
    if n > 0 {
      GlideFromRest(m, n - 1);
      var r := Glide(m, n - 1);
      if !r.arrived {
        assert Glide(m, n) == Advance(r.motion);
      }
    }
  }

  /** The speeds the constructors pass, in tiles per second. */
  const BALL_SPEED: real := TILE_SIZE as real / 2.0
  const BOX_SPEED: real := TILE_SIZE as real / 6.0
  const PLAYER_SPEED: real := TILE_SIZE as real / 4.0
  const GUN_BULLET_SPEED: real := 8.0

  /** Crossing one tile takes a ball 4 updates, the player 8 and a box 12. */
  lemma TilesCrossingTimes(d: Direction)
    ensures !Glide(Still(BALL_SPEED).(inMove := Some(d)), 3).arrived
    ensures Glide(Still(BALL_SPEED).(inMove := Some(d)), 4).arrived
    ensures !Glide(Still(PLAYER_SPEED).(inMove := Some(d)), 7).arrived
    ensures Glide(Still(PLAYER_SPEED).(inMove := Some(d)), 8).arrived
    ensures !Glide(Still(BOX_SPEED).(inMove := Some(d)), 11).arrived
    ensures Glide(Still(BOX_SPEED).(inMove := Some(d)), 12).arrived
  {
    var ball, player, box := Still(BALL_SPEED).(inMove := Some(d)), Still(PLAYER_SPEED).(inMove := Some(d)), Still(BOX_SPEED).(inMove := Some(d));
    assert ball.stepSize == 128.0 / 15.0;
    assert player.stepSize == 64.0 / 15.0;
    assert box.stepSize == 128.0 / 45.0;
    GlideFromRest(ball, 3);
    GlideFromRest(ball, 4);
    GlideFromRest(player, 7);
    GlideFromRest(player, 8);
    GlideFromRest(box, 11);
    GlideFromRest(box, 12);
  }

  /** Who reserved a cell: the player, or the entity with this id. */
  datatype Owner = ThePlayer | Owned(id: nat)

  /** Every kind of `GameObject` a layer can hold. `id` stands for the
      Python object's identity. Sprite paths are left out. */
  datatype Entity =
    | Mockup(id: nat, owner: Owner, timeToLive: int)
    | Ball(id: nat, color: Color, onPad: bool, motion: Motion)
    | Box(id: nat, drowning: int, motion: Motion)
    | Diamond(id: nat, spriteNumber: int, animationTime: int)
    | Envelope(id: nat, message: string)
    | Portal(id: nat, destination: Pos, spriteNumber: int, animationTime: int, displayAlert: int)
    | Cannonball(id: nat, motion: Motion)
    | Cannon(id: nat, shootingDirection: Direction, script: nat, cannonCounter: nat, delay: int)
    | Door(id: nat, script: nat, hasOnUpdate: bool, hasOnTouch: bool)
    | LittleDevil(id: nat, health: int, mockup: Option<Pos>, motion: Motion)
    | Ghost(id: nat, movingPath: seq<Pos>, targetPlaceIndex: int, motion: Motion)
    | HellEntrance(id: nat, frequency: int, speed: real, health: int, frameCounter: int)

  /** The kinds that move with `MovingObject.update`. */
  predicate Moves(e: Entity) {
    e.Ball? || e.Box? || e.LittleDevil? || e.Ghost?
  }

  /** The layer the source's `layer` attribute gives each kind. */
  function LayerOf(e: Entity): (r: nat)
    ensures r < 3
  {
    if e.Ghost? then 2 else if e.HellEntrance? then 0 else DEFAULT_LAYER
  }

  // Field updates written as matches, so that an update of a field several
  // kinds share is one case per kind.

  /** The entity with identity `id` and every other field kept. */
  function WithId(e: Entity, id: nat): (r: Entity)
    ensures r.id == id
  {
    match e
    case Mockup(_, owner, t) => Mockup(id, owner, t)
    case Ball(_, c, onPad, m) => Ball(id, c, onPad, m)
    case Box(_, drowning, m) => Box(id, drowning, m)
    case Diamond(_, s, t) => Diamond(id, s, t)
    case Envelope(_, message) => Envelope(id, message)
    case Portal(_, dest, s, t, alert) => Portal(id, dest, s, t, alert)
    case Cannonball(_, m) => Cannonball(id, m)
    case Cannon(_, d, script, n, delay) => Cannon(id, d, script, n, delay)
    case Door(_, script, u, t) => Door(id, script, u, t)
    case LittleDevil(_, health, mockup, m) => LittleDevil(id, health, mockup, m)
    case Ghost(_, path, i, m) => Ghost(id, path, i, m)
    case HellEntrance(_, f, speed, health, n) => HellEntrance(id, f, speed, health, n)
  }

  /** The entity with motion `m`, for the kinds that have one. */
  function WithMotion(e: Entity, m: Motion): Entity {
    match e
    case Ball(id, c, onPad, _) => Ball(id, c, onPad, m)
    case Box(id, drowning, _) => Box(id, drowning, m)
    case Cannonball(id, _) => Cannonball(id, m)
    case LittleDevil(id, health, mockup, _) => LittleDevil(id, health, mockup, m)
    case Ghost(id, path, i, _) => Ghost(id, path, i, m)
    case _ => e
  }

  /** The entity with its animation at sprite `s`, time `t`, for the
      animated kinds. */
  function WithSprite(e: Entity, s: int, t: int): Entity {
    match e
    case Diamond(id, _, _) => Diamond(id, s, t)
    case Portal(id, dest, _, _, alert) => Portal(id, dest, s, t, alert)
    case _ => e
  }

  /** An event bound to a cell, with its remaining trigger count; `script`
      selects the level-supplied effect. */
  datatype Event = Event(timesTriggered: int, script: nat)

  function NewEvent(script: nat): Event {
    Event(1, script)
  }

  const MOCKUP_TIME_TO_LIVE := 150

  // The constructors leave `id` at 0: registration gives each entity its own.

  /** `Ball.__init__`: `None` stands for the `exit` on an unknown colour. */
  function NewBall(color: string): (r: Option<Entity>)
    ensures r.Some? <==> ColorToIndex(color).Some?
    ensures r.Some? ==> r.value.Ball? && ColorName(r.value.color) == color && !r.value.onPad && r.value.motion == Still(BALL_SPEED)
  {
    match ParseColor(color)
    case None => None
    case Some(c) => Some(Ball(0, c, false, Still(BALL_SPEED)))
  }

  /** `Box.__init__`: a floating box at rest on the default layer. */
  function NewBox(): (r: Entity)
    ensures r.Box? && LayerOf(r) == DEFAULT_LAYER && Moves(r)
    ensures r.drowning == 0 && r.motion.inMove.None? && r.motion.stepSize == StepSize(BOX_SPEED)
  {
    Box(0, 0, Still(BOX_SPEED))
  }

  /** `Diamond.__init__`: the animation starts at its first sprite. */
  function NewDiamond(): (r: Entity)
    ensures r.Diamond? && LayerOf(r) == DEFAULT_LAYER && !Moves(r)
    ensures r.spriteNumber == 0 && r.animationTime == 0
  {
    Diamond(0, 0, 0)
  }

  /** `Envelope.__init__`: an envelope carrying `message`. */
  function NewEnvelope(message: string): (r: Entity)
    ensures r.Envelope? && LayerOf(r) == DEFAULT_LAYER && !Moves(r) && r.message == message
  {
    Envelope(0, message)
  }

  /** `Portal.__init__`: a portal to `destination`, its animation at the
      start and no alert showing. */
  function NewPortal(destination: Pos): (r: Entity)
    ensures r.Portal? && LayerOf(r) == DEFAULT_LAYER && !Moves(r) && r.destination == destination
    ensures r.spriteNumber == 0 && r.animationTime == 0 && r.displayAlert == 0
  {
    Portal(0, destination, 0, 0, 0)
  }

  /** `Cannonball.__init__`: it starts already committed to its direction. */
  function NewCannonball(d: Direction, speed: real): (r: Entity)
    ensures r.Cannonball? && LayerOf(r) == DEFAULT_LAYER
    ensures r.motion.inMove == Some(d) && r.motion.deltaX == 0.0 && r.motion.deltaY == 0.0 && r.motion.stepSize == StepSize(speed)
  {
    Cannonball(0, Motion(Some(d), 0.0, 0.0, StepSize(speed)))
  }

  /** `Cannon.__init__`: `None` stands for the failed `assert_direction`.
      `shootingDelay` is the level's delay per script and shot; the first
      wait is the one for shot 0. */
  function NewCannon(direction: string, script: nat, shootingDelay: (nat, nat) -> int): (r: Option<Entity>)
    ensures r.Some? <==> Parse(direction).Some?
    ensures r.Some? ==> r.value.Cannon? && LayerOf(r.value) == DEFAULT_LAYER && Name(r.value.shootingDirection) == direction
    ensures r.Some? ==> r.value.script == script && r.value.cannonCounter == 0 && r.value.delay == shootingDelay(script, 0)
  {
    match Parse(direction)
    case None => None
    case Some(d) => Some(Cannon(0, d, script, 0, shootingDelay(script, 0)))
  }

  /** `Door.__init__`: a locked door whose conditions the level supplies
      under `script`, each of the two possibly absent. */
  function NewDoor(script: nat, hasOnUpdate: bool, hasOnTouch: bool): (r: Entity)
    ensures r.Door? && LayerOf(r) == DEFAULT_LAYER && !Moves(r)
    ensures r.script == script && r.hasOnUpdate == hasOnUpdate && r.hasOnTouch == hasOnTouch
  {
    Door(0, script, hasOnUpdate, hasOnTouch)
  }

  /** `LittleDevil.__init__`: a devil at rest with no reservation. */
  function NewLittleDevil(speed: real, health: int): (r: Entity)
    ensures r.LittleDevil? && LayerOf(r) == DEFAULT_LAYER && Moves(r)
    ensures r.health == health && r.mockup.None? && r.motion.inMove.None? && r.motion.stepSize == StepSize(speed)
  {
    LittleDevil(0, health, None, Still(speed))
  }

  /** `Ghost.__init__`: the start cell is put in front of the path. */
  function NewGhost(start: Pos, speed: real, path: seq<Pos>): (r: Entity)
    ensures r.Ghost? && |r.movingPath| > 0 && r.movingPath[0] == start && r.targetPlaceIndex == 0
  {
    Ghost(0, [start] + path, 0, Still(speed))
  }

  /** `HellEntrance.__init__`: an entrance on layer 0 whose counter starts
      at 0, so it lets out its first devil on its first update. */
  function NewHellEntrance(frequency: int, speed: real, health: int): (r: Entity)
    ensures r.HellEntrance? && LayerOf(r) == 0 && !Moves(r)
    ensures r.frequency == frequency && r.speed == speed && r.health == health && r.frameCounter == 0
  {
    HellEntrance(0, frequency, speed, health, 0)
  }

  /** One decrement of a counter that removes its owner when it reaches 0
      (a mockup's `time_to_live`, an event's `times_triggered`); `None`
      means removed. */
  function Countdown(n: int): (r: Option<int>)
    ensures r.None? <==> n == 1
    ensures r.Some? ==> r.value == n - 1
  {
    if n - 1 == 0 then None else Some(n - 1)
  }

  /** Whether the owner of counter `n` is still there after `k` decrements. */
  function Lasts(n: int, k: nat): bool
    decreases k
  {
    k == 0 || (Countdown(n).Some? && Lasts(n - 1, k - 1))
  }

  /** A counter starting at `n >= 1` removes its owner on exactly the `n`-th
      decrement; one starting at 0 or below never does. */
  lemma {:induction false} CountdownLasts(n: int, k: nat)
    ensures n >= 1 ==> (Lasts(n, k) <==> k < n)
    ensures n <= 0 ==> Lasts(n, k)
    decreases k
  {
    if k > 0 {
      CountdownLasts(n - 1, k - 1);
    }
  }

  /** A reservation left alone removes itself on exactly its 150th update. */
  lemma MockupLifetime(k: nat)
    ensures Lasts(MOCKUP_TIME_TO_LIVE, k) <==> k < 150
  {
    CountdownLasts(MOCKUP_TIME_TO_LIVE, k);
  }

  /** A default event fires once and is then gone. */
  lemma DefaultEventFiresOnce()
    ensures Lasts(NewEvent(0).timesTriggered, 0) && !Lasts(NewEvent(0).timesTriggered, 1)
  {
    CountdownLasts(1, 1);
  }

  const DROWNING_SPEED := 6
  /** The value of `drowning` at which the box disappears. */
  const DROWNED := 6 * DROWNING_SPEED

  /** One update of a drowning box: `None` means it is removed. */
  function DrownTick(drowning: int): (r: Option<int>)
    ensures r.None? <==> drowning + 1 == DROWNED
  {
    if drowning + 1 == DROWNED then None else Some(drowning + 1)
  }

  function Floats(drowning: int, k: nat): bool
    decreases k
  {
    k == 0 || (DrownTick(drowning).Some? && Floats(drowning + 1, k - 1))
  }

  /** A box that started drowning (with `drowning` between 1 and 35) is
      removed on exactly its `36 - drowning`-th further update. */
  lemma {:induction false} DrowningTakes(drowning: int, k: nat)
    requires 1 <= drowning < DROWNED
    ensures Floats(drowning, k) <==> k < DROWNED - drowning
    decreases k
  {
    if k > 0 && drowning + 1 < DROWNED {
      DrowningTakes(drowning + 1, k - 1);
    }
  }

  /** `LittleDevil.on_hit` on the health counter: the new health and whether
      the devil is removed. */
  function DevilHit(health: int): (r: (int, bool))
    ensures health <= 0 ==> r == (health, false)
    ensures health > 0 ==> r.0 == health - 1 && (r.1 <==> health == 1)
  {
    if health > 0 then (health - 1, health - 1 <= 0) else (health, false)
  }

  function SurvivesHits(health: int, k: nat): bool {
    k == 0 || (!DevilHit(health).1 && SurvivesHits(DevilHit(health).0, k - 1))
  }

  /** A devil with health `h > 0` is removed on exactly the `h`-th hit; with
      health 0 (or less) hits never remove it. */
  lemma {:induction false} DevilHitsToRemove(health: int, k: nat)
    ensures health > 0 ==> (SurvivesHits(health, k) <==> k < health)
    ensures health <= 0 ==> SurvivesHits(health, k)
  {
    if k > 0 {
      DevilHitsToRemove(DevilHit(health).0, k - 1);
    }
  }

  /** The looping sprite animation of `Diamond` and `Portal`: the new sprite
      number and animation time. */
  function Animate(spriteNumber: int, animationTime: int, sprites: int, maxTime: int): (r: (int, int))
    ensures 0 < sprites && 0 < maxTime && 0 <= spriteNumber < sprites && 0 <= animationTime < maxTime ==>
      && 0 <= r.0 < sprites && 0 <= r.1 < maxTime
      && r.1 == (animationTime + 1) % maxTime
      && r.0 == if animationTime + 1 == maxTime then (spriteNumber + 1) % sprites else spriteNumber
  {
    var t := animationTime + 1;
    if t == maxTime then
      var s := spriteNumber + 1;
      (if s == sprites then 0 else s, 0)
    else (spriteNumber, t)
  }

  const ANIMATION_TIME := 60
  const DIAMOND_SPRITES := 3
  const PORTAL_SPRITES := 2

  /** The blocked-portal alert counter as the render phase advances it: it
      runs from 1 up to 60 and then falls back to 0. */
  function AlertTick(alert: int): (r: int)
    ensures 0 <= alert <= ANIMATION_TIME ==> 0 <= r <= ANIMATION_TIME
    ensures alert == 0 || alert == ANIMATION_TIME ==> r == 0
    ensures 0 < alert < ANIMATION_TIME ==> r == alert + 1
  {
    var a := if alert == ANIMATION_TIME then 0 else alert;
    if a > 0 then a + 1 else a
  }

  /** Once raised, the alert shows for 59 render passes and is cleared on
      the 60th. */
  lemma {:induction false} AlertRuns(alert: int, k: nat)
    requires 1 <= alert <= ANIMATION_TIME
    ensures Ticks(alert, k) == if alert + k <= ANIMATION_TIME then alert + k else 0
  {
    if k > 0 {
      AlertRuns(alert, k - 1);
    }
  }

  function Ticks(alert: int, k: nat): int {
    if k == 0 then alert else AlertTick(Ticks(alert, k - 1))
  }

  /** The horizontal and vertical steps towards a target `dx`, `dy` away. */
  function TowardsX(dx: int): Option<Direction> {
    if dx < 0 then Some(Left) else if dx > 0 then Some(Right) else None
  }

  function TowardsY(dy: int): Option<Direction> {
    if dy < 0 then Some(Up) else if dy > 0 then Some(Down) else None
  }

  /** The two directions `LittleDevil.update` tries, in order, for a player
      `dx`, `dy` away: the axis with the larger distance first, x on a tie. */
  function ChaseOrder(dx: int, dy: int): (r: (Option<Direction>, Option<Direction>))
    ensures Abs(dx) >= Abs(dy) ==> r == (TowardsX(dx), TowardsY(dy))
    ensures Abs(dx) < Abs(dy) ==> r == (TowardsY(dy), TowardsX(dx))
  {
    if Abs(dx) < Abs(dy) then (TowardsY(dy), TowardsX(dx)) else (TowardsX(dx), TowardsY(dy))
  }

  /** Each direction the devil may try brings it one step closer to the
      player; it tries nothing exactly when it stands on the player's cell,
      and it tries a second direction only after a first one. */
  lemma ChaseApproaches(p: Pos, target: Pos)
    ensures var r := ChaseOrder(target.0 - p.0, target.1 - p.1);
      && (r.0.Some? ==> Distance(Next(p, r.0.value), target) + 1 == Distance(p, target))
      && (r.1.Some? ==> Distance(Next(p, r.1.value), target) + 1 == Distance(p, target))
      && (r.0.None? <==> p == target)
      && (r.0.None? ==> r.1.None?)
      && (r.0.Some? && r.1.Some? ==> IsHorizontal(r.0.value) != IsHorizontal(r.1.value))
  {
  }

  /** The direction `Ghost.update` heads for a waypoint: horizontal first,
      overridden by vertical when the rows differ. */
  function GhostHeading(p: Pos, target: Pos): (r: Option<Direction>)
    ensures p.1 != target.1 ==> r == TowardsY(target.1 - p.1)
    ensures p.1 == target.1 ==> r == TowardsX(target.0 - p.0)
  {
    var h := if p.0 > target.0 then Some(Left) else if p.0 < target.0 then Some(Right) else None;
    if p.1 > target.1 then Some(Up) else if p.1 < target.1 then Some(Down) else h
  }

  /** A waypoint in line with the ghost (same row or same column) is reached
      by walking its heading exactly `Distance` steps, and not before. */
  lemma GhostReachesAlignedWaypoint(p: Pos, target: Pos, k: nat)
    requires p != target && (p.0 == target.0 || p.1 == target.1)
    ensures GhostHeading(p, target).Some?
    ensures var d := GhostHeading(p, target).value;
      Walk(p, d, Distance(p, target)) == target && (k < Distance(p, target) ==> Walk(p, d, k) != target)
  {
    var d := GhostHeading(p, target).value;
    WalkOffset(p, d, Distance(p, target));
    WalkOffset(p, d, k);
  }

  /** The index of the ghost's next waypoint on its closed path. */
  function NextWaypoint(index: int, pathLength: int): (r: int)
    requires pathLength > 0
    ensures 0 <= r < pathLength
  {
    (index + 1) % pathLength
  }

  /** Going round the path from waypoint `index` visits the following
      waypoints in order and wraps round to the first one. */
  lemma {:induction false} WaypointCycle(index: int, pathLength: int, k: nat)
    requires pathLength > 0 && 0 <= index < pathLength && index + k <= pathLength
    ensures Cycle(index, pathLength, k) == if index + k == pathLength then 0 else index + k
  {
    if k > 0 {
      WaypointCycle(index, pathLength, k - 1);
      var j := index + k - 1;
      assert Cycle(index, pathLength, k) == NextWaypoint(j, pathLength);
      if j + 1 < pathLength {
        SmallModulo(j + 1, pathLength);
      } else {
        FullModulo(pathLength);
      }
    }
  }

  lemma SmallModulo(a: int, n: int)
    requires 0 <= a < n
    ensures a % n == a
  {
  }

  lemma FullModulo(n: int)
    requires n > 0
    ensures n % n == 0
  {
  }

  function Cycle(index: int, pathLength: int, k: nat): (r: int)
    requires pathLength > 0 && 0 <= index < pathLength
    ensures 0 <= r < pathLength
  {
    if k == 0 then index else NextWaypoint(Cycle(index, pathLength, k - 1), pathLength)
  }
}
