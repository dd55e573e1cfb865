/** The rules of src/objects.py and src/items.py that act on a running game:
    reservations, moving and arriving, pushing balls and boxes, hits, the
    cannon, the little devil, the ghost, the hell entrance, events, and using
    an item. A Python call `obj.method(game)` on the object stored at cell
    `p` of a layer is a method here taking the game and `p`; the object's
    new fields are written back to the layer. */
module Behaviour {
  import opened Optional
  import opened Directions
  import opened Const
  import opened Items
  import opened Entities
  import opened World

  /** The player's cell. */
  function Here(g: Game): Pos
    reads g.player`x, g.player`y
  {
    (g.player.x, g.player.y)
  }

  /** The cell the player faces. */
  function Ahead(g: Game): Pos
    reads g.player`x, g.player`y, g.player`facing
  {
    Next(Here(g), g.player.facing)
  }

  /** What stops a ball or a box from entering `q` on a layer holding `m`:
      something on the layer, the player's cell `here`, or a wall. */
  predicate BlockedIn(m: map<Pos, Entity>, tiles: seq<string>, here: Pos, q: Pos) {
    q in m || here == q || TileIn(tiles, q.0, q.1) == WALL
  }

  /** `BlockedIn` for the game's own layer, terrain and player. */
  predicate Blocked(g: Game, q: Pos, layer: nat)
    requires layer < 3
    reads g`objects, g`tilesMap, g.player`x, g.player`y
  {
    BlockedIn(g.objects[layer], g.tilesMap, Here(g), q)
  }

  /** `Blocked` is exactly "not `tile_is_free` on the layer, or a wall":
      the test every pushed or moving entity makes before it commits. */
  lemma BlockedIffNotFree(g: Game, q: Pos, layer: nat)
    requires layer < 3
    ensures Blocked(g, q, layer) <==> !g.TileIsFree(q.0, q.1, layer) || g.TileAt(q.0, q.1) == WALL
    ensures !Blocked(g, q, layer) ==> q !in g.objects[layer] && q != Here(g) && g.TileAt(q.0, q.1) != WALL
  {
  }

  /** The cell `q` of the default layer `m` holds the player's own
      reservation. */
  predicate PlayerReserved(m: map<Pos, Entity>, q: Pos) {
    q in m && m[q].Mockup? && m[q].owner == ThePlayer
  }

  /** `PlayerReserved` for the game's default layer. */
  predicate ReservedByPlayer(g: Game, q: Pos)
    reads g`objects
  {
    PlayerReserved(g.objects[DEFAULT_LAYER], q)
  }

  /** The reservation `q`, written over a layer, that a mover with identity
      `owner` makes for its next cell. */
  function Reserved(layer: map<Pos, Entity>, q: Pos, id: nat, owner: Owner): map<Pos, Entity> {
    layer[q := Mockup(id, owner, MOCKUP_TIME_TO_LIVE)]
  }

  // Reservations

  /** `MockupObject.__init__`: the cell becomes reserved on the default layer
      and is no longer free. */
  method PlaceMockup(g: Game, q: Pos, owner: Owner)
    modifies g`objects, g`nextId
    ensures g.objects == old(g.objects)[DEFAULT_LAYER := Reserved(old(g.objects[DEFAULT_LAYER]), q, old(g.nextId), owner)]
    ensures g.nextId == old(g.nextId) + 1
    ensures !g.TileIsFree(q.0, q.1, DEFAULT_LAYER)
  {
    g.objects := g.objects[DEFAULT_LAYER := Reserved(g.objects[DEFAULT_LAYER], q, g.nextId, owner)];
    g.nextId := g.nextId + 1;
  }

  /** The state change of `MockupObject.update` at `p`: a reservation runs
      out after its time to live. */
  twostate predicate MockupAged(g: Game, p: Pos)
    requires old(p in g.objects[DEFAULT_LAYER] && g.objects[DEFAULT_LAYER][p].Mockup?)
    reads g`objects
  {
    var e := old(g.objects[DEFAULT_LAYER][p]);
    g.objects == old(g.objects)[DEFAULT_LAYER :=
      match Countdown(e.timeToLive)
      case None => old(g.objects[DEFAULT_LAYER]) - {p}
      case Some(t) => old(g.objects[DEFAULT_LAYER])[p := e.(timeToLive := t)]]
  }

  /** `MockupObject.update`. */
  method MockupUpdate(g: Game, p: Pos)
    requires p in g.objects[DEFAULT_LAYER] && g.objects[DEFAULT_LAYER][p].Mockup?
    modifies g`objects
    ensures MockupAged(g, p)
  {
    var e := g.objects[DEFAULT_LAYER][p];
    match Countdown(e.timeToLive)
    case None =>
      g.Remove(DEFAULT_LAYER, p);
    case Some(t) =>
      g.objects := g.objects[DEFAULT_LAYER := g.objects[DEFAULT_LAYER][p := e.(timeToLive := t)]];
  }

  /** A hit as the source's `collide` sees it once a reservation is replaced
      by its owner: nothing, the player, an entity on the default layer, or
      the owner of a reservation that is no longer on the layer. */
  datatype Collision = Empty | PlayerCollision | EntityCollision(at: Pos) | DetachedOwner

  /** `c` is what a hit on cell `q` of the default layer `m` reaches: nothing
      on an empty cell, the entity on the cell, the player for the player's
      reservation, and for another reservation its owner, found on the layer
      by identity, or `DetachedOwner` when the owner is no longer there. */
  predicate Resolves(m: map<Pos, Entity>, q: Pos, c: Collision) {
    if q !in m then c == Empty
    else if !m[q].Mockup? then c == EntityCollision(q)
    else match m[q].owner
      case ThePlayer => c == PlayerCollision
      case Owned(id) =>
        || (c.EntityCollision? && c.at in m && m[c.at].id == id && !m[c.at].Mockup?)
        || (c == DetachedOwner && forall r :: r in m && !m[r].Mockup? ==> m[r].id != id)
  }

  /** `game.objects[DEFAULT_LAYER].get(pos)`, with a reservation replaced by
      its owner. */
  method Collide(g: Game, q: Pos) returns (c: Collision)
    ensures Resolves(g.objects[DEFAULT_LAYER], q, c)
    ensures c == Empty <==> q !in g.objects[DEFAULT_LAYER]
    ensures c == PlayerCollision <==> ReservedByPlayer(g, q)
  {
    var layer := g.objects[DEFAULT_LAYER];
    if q !in layer {
      return Empty;
    }
    var e := layer[q];
    if !e.Mockup? {
      return EntityCollision(q);
    }
    match e.owner
    case ThePlayer =>
      c := PlayerCollision;
    case Owned(id) =>
      if exists r :: r in layer && layer[r].id == id && !layer[r].Mockup? {
        var r :| r in layer && layer[r].id == id && !layer[r].Mockup?;
        c := EntityCollision(r);
      } else {
        c := DetachedOwner;
      }
  }

  // Hits

  /** The default layer `m` after `LittleDevil.on_hit` on the devil at `p`:
      a devil with health loses one point, and at 0 it goes together with its
      reservation; a devil without health ignores hits. */
  function DevilHurt(m: map<Pos, Entity>, p: Pos): (r: map<Pos, Entity>)
    requires p in m && m[p].LittleDevil?
    ensures r.Keys <= m.Keys
    ensures m[p].health > 1 ==> r.Keys == m.Keys && r[p].LittleDevil? && r[p].health == m[p].health - 1
    ensures m[p].health == 1 ==> p !in r && (m[p].mockup.Some? ==> m[p].mockup.value !in r)
    ensures m[p].health <= 0 ==> r == m
    ensures m[p].health > 1 ==> r == m[p := LittleDevil(m[p].id, m[p].health - 1, m[p].mockup, m[p].motion)]
    ensures m[p].health == 1 ==> r == m - {p} - (if m[p].mockup.Some? then {m[p].mockup.value} else {})
  {
    var e := m[p];
    var (health, removed) := DevilHit(e.health);
    if e.health <= 0 then m
    else if !removed then m[p := LittleDevil(e.id, health, e.mockup, e.motion)]
    else if e.mockup.Some? then m - {p} - {e.mockup.value}
    else m - {p}
  }

  /** The default layer `m` after `collide.on_hit(...)` for the collision
      `c`: only a little devil reacts; every other kind, and the player,
      leave the layer as it is. */
  function HitLayer(m: map<Pos, Entity>, c: Collision): (r: map<Pos, Entity>)
    ensures r.Keys <= m.Keys
    ensures !(c.EntityCollision? && c.at in m && m[c.at].LittleDevil?) ==> r == m
  {
    if c.EntityCollision? && c.at in m && m[c.at].LittleDevil? then DevilHurt(m, c.at) else m
  }

  /** `LittleDevil.on_hit`. */
  method DevilOnHit(g: Game, p: Pos)
    requires p in g.objects[DEFAULT_LAYER] && g.objects[DEFAULT_LAYER][p].LittleDevil?
    modifies g`objects
    ensures g.objects == old(g.objects)[DEFAULT_LAYER := DevilHurt(old(g.objects[DEFAULT_LAYER]), p)]
  {
    var e := g.objects[DEFAULT_LAYER][p];
    var (health, removed) := DevilHit(e.health);
    if e.health > 0 {
      if removed {
        var layer := g.objects[DEFAULT_LAYER] - {p};
        if e.mockup.Some? {
          layer := layer - {e.mockup.value};
        }
        g.objects := g.objects[DEFAULT_LAYER := layer];
      } else {
        g.objects := g.objects[DEFAULT_LAYER := g.objects[DEFAULT_LAYER][p := LittleDevil(e.id, health, e.mockup, e.motion)]];
      }
    }
  }

  /** `collide.on_hit(...)`: the player dies, a little devil is hurt, every
      other kind ignores the hit. */
  method Hit(g: Game, c: Collision)
    modifies g`objects, g.player`dead
    ensures g.objects == old(g.objects)[DEFAULT_LAYER := HitLayer(old(g.objects[DEFAULT_LAYER]), c)]
    ensures g.player.dead == (old(g.player.dead) || c == PlayerCollision)
  {
    match c
    case PlayerCollision =>
      g.player.OnHit();
    case EntityCollision(at) =>
      if at in g.objects[DEFAULT_LAYER] && g.objects[DEFAULT_LAYER][at].LittleDevil? {
        DevilOnHit(g, at);
      }
    case _ =>
  }

  // Moving

  /** The offset half of `MovingObject.update`: the mover advances one step;
      on a whole tile it leaves its cell for the next one, offset zeroed on
      that axis, and the new cell is returned for the `after_step`. */
  method Shift(g: Game, layer: nat, p: Pos) returns (arrival: Option<Pos>)
    requires layer < 3 && p in g.objects[layer] && Moves(g.objects[layer][p])
    modifies g`objects
    ensures var e := old(g.objects[layer][p]);
      var pr := Advance(e.motion);
      && (!pr.arrived ==> arrival == None && g.objects == old(g.objects)[layer := old(g.objects[layer])[p := WithMotion(e, pr.motion)]])
      && (pr.arrived ==>
            var q := Next(p, e.motion.inMove.value);
            && arrival == Some(q)
            && g.objects == old(g.objects)[layer := (old(g.objects[layer]) - {p})[q := WithMotion(e, pr.motion)]])
    ensures arrival.Some? ==> arrival.value in g.objects[layer] && g.objects[layer][arrival.value].motion.inMove.Some?
  {
    var e := g.objects[layer][p];
    var pr := Advance(e.motion);
    if !pr.arrived {
      g.objects := g.objects[layer := g.objects[layer][p := WithMotion(e, pr.motion)]];
      arrival := None;
    } else {
      var q := Next(p, e.motion.inMove.value);
      g.objects := g.objects[layer := (g.objects[layer] - {p})[q := WithMotion(e, pr.motion)]];
      arrival := Some(q);
    }
  }

  // Balls

  /** A ball committed to `d` from its cell: offsets zeroed, and off its pad
      when `leaves`. */
  function Launched(b: Entity, d: Direction, leaves: bool): Entity
    requires b.Ball?
  {
    WithMotion(b.(onPad := b.onPad && !leaves), b.motion.(inMove := Some(d), deltaX := 0.0, deltaY := 0.0))
  }

  /** `Ball.before_step` on values: the default layer, the ball counts and
      the next identity after the ball at `p` is pushed towards `d`. A ball on
      a magnetic pad stops and stays; one facing an occupied cell, the
      player or a wall does nothing; otherwise it sets off, reserving the
      next cell, and leaving its own pad puts it back into the count of balls
      left. */
  function BallLaunch(m: map<Pos, Entity>, tiles: seq<string>, here: Pos, balls: Counters, id: nat, p: Pos, d: Direction): (r: (map<Pos, Entity>, Counters, nat))
    requires p in m && m[p].Ball?
    ensures r.0.Keys <= m.Keys + {Next(p, d)}
    ensures p in r.0 && r.0[p].Ball? && r.0[p].id == m[p].id && r.0[p].color == m[p].color
    ensures r.1[Index(m[p].color)] >= balls[Index(m[p].color)]
    ensures r.2 == id || r.2 == id + 1
    ensures r.1 != balls ==> r.2 == id + 1
    ensures r.2 == id + 1 ==>
      && Next(p, d) in r.0 && r.0[Next(p, d)] == Mockup(id, Owned(m[p].id), MOCKUP_TIME_TO_LIVE)
      && r.0[p].motion.inMove == Some(d)
    ensures IsMagnetic(TileIn(tiles, p.0, p.1)) ==>
      r == (m[p := WithMotion(m[p], m[p].motion.(inMove := None))], balls, id)
    ensures !IsMagnetic(TileIn(tiles, p.0, p.1)) && BlockedIn(m, tiles, here, Next(p, d)) ==> r == (m, balls, id)
    ensures !IsMagnetic(TileIn(tiles, p.0, p.1)) && !BlockedIn(m, tiles, here, Next(p, d)) ==>
      var leaves := TileIn(tiles, p.0, p.1) == Pad(m[p].color) && m[p].onPad;
      var i := Index(m[p].color);
      && r.2 == id + 1
      && r.0 == m[p := Launched(m[p], d, leaves)][Next(p, d) := Mockup(id, Owned(m[p].id), MOCKUP_TIME_TO_LIVE)]
      && r.0[p].motion == m[p].motion.(inMove := Some(d), deltaX := 0.0, deltaY := 0.0)
      && r.0[p].onPad == (m[p].onPad && !leaves)
      && r.1 == if leaves then balls[i := balls[i] + 1] else balls
  {
    var b := m[p];
    var tile := TileIn(tiles, p.0, p.1);
    var q := Next(p, d);
    StepIsNeighbour(p.0, p.1, d, d);
    if IsMagnetic(tile) then
      (m[p := WithMotion(b, b.motion.(inMove := None))], balls, id)
    else if BlockedIn(m, tiles, here, q) then
      (m, balls, id)
    else
      var leaves := tile == Pad(b.color) && b.onPad;
      (Reserved(m[p := Launched(b, d, leaves)], q, id, Owned(b.id)),
       if leaves then balls[Index(b.color) := balls[Index(b.color)] + 1] else balls,
       id + 1)
  }

  /** The push of the ball at `p` towards `d` has taken place. */
  twostate predicate BallPushed(g: Game, p: Pos, d: Direction)
    requires old(p in g.objects[DEFAULT_LAYER] && g.objects[DEFAULT_LAYER][p].Ball?)
    reads g`objects, g`ballsLeft, g`nextId, g`tilesMap, g.player`x, g.player`y
  {
    var r := BallLaunch(old(g.objects[DEFAULT_LAYER]), old(g.tilesMap), old(Here(g)), old(g.ballsLeft), old(g.nextId), p, d);
    g.objects == old(g.objects)[DEFAULT_LAYER := r.0] && g.ballsLeft == r.1 && g.nextId == r.2
  }

  /** `Ball.before_step`. */
  method BallBeforeStep(g: Game, p: Pos, d: Direction)
    requires p in g.objects[DEFAULT_LAYER] && g.objects[DEFAULT_LAYER][p].Ball?
    modifies g`objects, g`ballsLeft, g`nextId
    ensures BallPushed(g, p, d)
  {
    var b := g.objects[DEFAULT_LAYER][p];
    var tile := g.TileAt(p.0, p.1);
    if IsMagnetic(tile) {
      g.objects := g.objects[DEFAULT_LAYER := g.objects[DEFAULT_LAYER][p := WithMotion(b, b.motion.(inMove := None))]];
      return;
    }
    var q := Next(p, d);
    if !g.TileIsFree(q.0, q.1, DEFAULT_LAYER) {
      return;
    }
    if g.TileAt(q.0, q.1) == WALL {
      return;
    }
    var leaves := tile == Pad(b.color) && b.onPad;
    if leaves {
      var i := Index(b.color);
      g.ballsLeft := g.ballsLeft[i := g.ballsLeft[i] + 1];
    }
    g.objects := g.objects[DEFAULT_LAYER := g.objects[DEFAULT_LAYER][p := Launched(b, d, leaves)]];
    PlaceMockup(g, q, Owned(b.id));
  }

  /** `Ball.after_step` on values, for a ball that has just arrived at `p`:
      it stops in front of an obstacle and on sand; a stopped ball on its pad
      or on the universal pad, or any ball on its magnetic pad or the
      universal magnetic pad, is seated and leaves the count; a ball still
      rolling goes on as `before_step` decides. */
  function BallLanding(m: map<Pos, Entity>, tiles: seq<string>, here: Pos, balls: Counters, id: nat, p: Pos): (r: (map<Pos, Entity>, Counters, nat))
    requires p in m && m[p].Ball? && m[p].motion.inMove.Some?
    ensures p in r.0 && r.0[p].Ball? && r.0[p].id == m[p].id && r.0[p].color == m[p].color
    ensures r.1[Index(m[p].color)] < balls[Index(m[p].color)] ==>
      r.0[p].onPad && r.0[p].motion.inMove.None? && r.1 == balls[Index(m[p].color) := balls[Index(m[p].color)] - 1]
    ensures r.0[p].motion.inMove.Some? ==> r.0[p].motion.inMove == m[p].motion.inMove
    ensures var b := m[p];
      var tile := TileIn(tiles, p.0, p.1);
      var stops := BlockedIn(m, tiles, here, Next(p, b.motion.inMove.value)) || tile == SAND;
      var seats := (stops && (tile == Pad(b.color) || tile == UNIVERSAL_PAD)) || tile == MagneticPad(b.color) || tile == UNIVERSAL_MAGNETIC_PAD;
      var i := Index(b.color);
      && (seats ==>
            && r.0 == m[p := WithMotion(b.(onPad := true), b.motion.(inMove := None))]
            && r.1 == balls[i := balls[i] - 1] && r.2 == id)
      && (stops && !seats ==> r == (m[p := WithMotion(b, b.motion.(inMove := None))], balls, id))
      && (!stops && !seats ==> r == BallLaunch(m, tiles, here, balls, id, p, b.motion.inMove.value))
  {
    var b := m[p];
    var d := b.motion.inMove.value;
    var tile := TileIn(tiles, p.0, p.1);
    var stops := BlockedIn(m, tiles, here, Next(p, d)) || tile == SAND;
    var i := Index(b.color);
    if (stops && (tile == Pad(b.color) || tile == UNIVERSAL_PAD)) || tile == MagneticPad(b.color) || tile == UNIVERSAL_MAGNETIC_PAD then
      (m[p := WithMotion(b.(onPad := true), b.motion.(inMove := None))], balls[i := balls[i] - 1], id)
    else if stops then
      (m[p := WithMotion(b, b.motion.(inMove := None))], balls, id)
    else
      BallLaunch(m, tiles, here, balls, id, p, d)
  }

  /** `Ball.after_step`. */
  method BallAfterStep(g: Game, p: Pos)
    requires p in g.objects[DEFAULT_LAYER] && g.objects[DEFAULT_LAYER][p].Ball?
    requires g.objects[DEFAULT_LAYER][p].motion.inMove.Some?
    modifies g`objects, g`ballsLeft, g`nextId
    ensures var r := BallLanding(old(g.objects[DEFAULT_LAYER]), old(g.tilesMap), old(Here(g)), old(g.ballsLeft), old(g.nextId), p);
      g.objects == old(g.objects)[DEFAULT_LAYER := r.0] && g.ballsLeft == r.1 && g.nextId == r.2
  {
    var b := g.objects[DEFAULT_LAYER][p];
    var d := b.motion.inMove.value;
    var q := Next(p, d);
    var rolling := true;
    if !g.TileIsFree(q.0, q.1, DEFAULT_LAYER) || g.TileAt(q.0, q.1) == WALL {
      rolling := false;
    }
    var tile := g.TileAt(p.0, p.1);
    if tile == SAND {
      rolling := false;
    }
    var i := Index(b.color);
    if !rolling && (tile == Pad(b.color) || tile == UNIVERSAL_PAD) {
      g.objects := g.objects[DEFAULT_LAYER := g.objects[DEFAULT_LAYER][p := WithMotion(b.(onPad := true), b.motion.(inMove := None))]];
      g.ballsLeft := g.ballsLeft[i := g.ballsLeft[i] - 1];
    } else if tile == MagneticPad(b.color) || tile == UNIVERSAL_MAGNETIC_PAD {
      g.objects := g.objects[DEFAULT_LAYER := g.objects[DEFAULT_LAYER][p := WithMotion(b.(onPad := true), b.motion.(inMove := None))]];
      g.ballsLeft := g.ballsLeft[i := g.ballsLeft[i] - 1];
    } else if rolling {
      BallBeforeStep(g, p, d);
    } else {
      g.objects := g.objects[DEFAULT_LAYER := g.objects[DEFAULT_LAYER][p := WithMotion(b, b.motion.(inMove := None))]];
    }
  }

  /** The state change of `Ball.update`, the inherited `MovingObject.update`:
      the ball's offset advances, and on a whole tile it moves to the next
      cell and lands there. */
  twostate predicate BallMoved(g: Game, p: Pos)
    requires old(p in g.objects[DEFAULT_LAYER] && g.objects[DEFAULT_LAYER][p].Ball?)
    reads g`objects, g`ballsLeft, g`nextId, g`tilesMap, g.player`x, g.player`y
  {
    var e := old(g.objects[DEFAULT_LAYER][p]);
    var pr := Advance(e.motion);
    if !pr.arrived then
      && g.objects == old(g.objects)[DEFAULT_LAYER := old(g.objects[DEFAULT_LAYER])[p := WithMotion(e, pr.motion)]]
      && g.ballsLeft == old(g.ballsLeft) && g.nextId == old(g.nextId)
    else
      var q := Next(p, e.motion.inMove.value);
      var r := BallLanding((old(g.objects[DEFAULT_LAYER]) - {p})[q := WithMotion(e, pr.motion)], old(g.tilesMap), old(Here(g)), old(g.ballsLeft), old(g.nextId), q);
      g.objects == old(g.objects)[DEFAULT_LAYER := r.0] && g.ballsLeft == r.1 && g.nextId == r.2
  }

  /** `Ball.update`. */
  method BallUpdate(g: Game, p: Pos)
    requires p in g.objects[DEFAULT_LAYER] && g.objects[DEFAULT_LAYER][p].Ball?
    modifies g`objects, g`ballsLeft, g`nextId
    ensures BallMoved(g, p)
  {
    var arrival := Shift(g, DEFAULT_LAYER, p);
    if arrival.Some? {
      BallAfterStep(g, arrival.value);
    }
  }

  // Boxes

  /** `Box.before_step` has taken place for the box at `p` pushed towards
      `d`: a sinking box does not move; otherwise it sets off when the next
      cell is free and not a wall, reserving it. */
  twostate predicate BoxPushed(g: Game, p: Pos, d: Direction)
    requires old(p in g.objects[DEFAULT_LAYER] && g.objects[DEFAULT_LAYER][p].Box?)
    reads g`objects, g`nextId
  {
    var b := old(g.objects[DEFAULT_LAYER][p]);
    var q := Next(p, d);
    var blocked := BlockedIn(old(g.objects[DEFAULT_LAYER]), old(g.tilesMap), old(Here(g)), q);
    && (b.drowning > 0 || blocked ==> g.objects == old(g.objects) && g.nextId == old(g.nextId))
    && (b.drowning <= 0 && !blocked ==>
          && g.objects == old(g.objects)[DEFAULT_LAYER := Reserved(old(g.objects[DEFAULT_LAYER])[p := WithMotion(b, b.motion.(inMove := Some(d)))], q, old(g.nextId), Owned(b.id))]
          && g.nextId == old(g.nextId) + 1)
  }

  /** `Box.before_step`. */
  method BoxBeforeStep(g: Game, p: Pos, d: Direction)
    requires p in g.objects[DEFAULT_LAYER] && g.objects[DEFAULT_LAYER][p].Box?
    modifies g`objects, g`nextId
    ensures BoxPushed(g, p, d)
  {
    var b := g.objects[DEFAULT_LAYER][p];
    if b.drowning > 0 {
      return;
    }
    var q := Next(p, d);
    if !g.TileIsFree(q.0, q.1, DEFAULT_LAYER) {
      return;
    }
    if g.TileAt(q.0, q.1) == WALL {
      return;
    }
    g.objects := g.objects[DEFAULT_LAYER := g.objects[DEFAULT_LAYER][p := WithMotion(b, b.motion.(inMove := Some(d)))]];
    PlaceMockup(g, q, Owned(b.id));
  }

  /** `Box.after_step`: the box stops; on water it starts sinking, and on a
      lily it starts sinking and the lily turns back into water. */
  method BoxAfterStep(g: Game, p: Pos)
    requires p in g.objects[DEFAULT_LAYER] && g.objects[DEFAULT_LAYER][p].Box?
    modifies g`objects, g`tilesMap
    ensures var b := old(g.objects[DEFAULT_LAYER][p]);
      var tile := old(g.TileAt(p.0, p.1));
      var sinks := tile == WATER || tile == LILY;
      && g.objects == old(g.objects)[DEFAULT_LAYER := old(g.objects[DEFAULT_LAYER])[p :=
           WithMotion(b.(drowning := if sinks then 1 else b.drowning), b.motion.(inMove := None))]]
      && (tile == LILY ==> g.TileAt(p.0, p.1) == WATER)
      && (tile != LILY ==> g.tilesMap == old(g.tilesMap))
      && forall i, j :: (i, j) != p ==> g.TileAt(i, j) == old(g.TileAt(i, j))
  {
    var b := g.objects[DEFAULT_LAYER][p];
    b := WithMotion(b, b.motion.(inMove := None));
    var tile := g.TileAt(p.0, p.1);
    if tile == WATER {
      b := b.(drowning := 1);
    }
    if tile == LILY {
      b := b.(drowning := 1);
      g.SetTile(p.0, p.1, WATER);
    }
    g.objects := g.objects[DEFAULT_LAYER := g.objects[DEFAULT_LAYER][p := b]];
  }

  /** The state change of `Box.update`: a floating box moves like any
      mover, and on a whole tile it stops there, starting to sink on water
      or on a lily (which turns back into water); a sinking box sinks one
      frame further and is removed when it has sunk. (After a move
      `drowning` is 0 or 1, so only a box that was already sinking can reach
      the end.) */
  twostate predicate BoxMoved(g: Game, p: Pos)
    requires old(p in g.objects[DEFAULT_LAYER] && g.objects[DEFAULT_LAYER][p].Box?)
    reads g`objects, g`tilesMap
  {
    var b := old(g.objects[DEFAULT_LAYER][p]);
    var pr := Advance(b.motion);
    if b.drowning != 0 then
      && g.tilesMap == old(g.tilesMap)
      && g.objects == old(g.objects)[DEFAULT_LAYER :=
           match DrownTick(b.drowning)
           case None => old(g.objects[DEFAULT_LAYER]) - {p}
           case Some(n) => old(g.objects[DEFAULT_LAYER])[p := b.(drowning := n)]]
    else if !pr.arrived then
      && g.tilesMap == old(g.tilesMap)
      && g.objects == old(g.objects)[DEFAULT_LAYER := old(g.objects[DEFAULT_LAYER])[p := WithMotion(b, pr.motion)]]
    else
      var q := Next(p, b.motion.inMove.value);
      var tile := old(g.TileAt(q.0, q.1));
      var sinks := tile == WATER || tile == LILY;
      && g.objects == old(g.objects)[DEFAULT_LAYER := (old(g.objects[DEFAULT_LAYER]) - {p})[q := Box(b.id, if sinks then 1 else 0, pr.motion.(inMove := None))]]
      && (tile == LILY ==> g.TileAt(q.0, q.1) == WATER)
      && (tile != LILY ==> g.tilesMap == old(g.tilesMap))
      && forall i, j :: (i, j) != q ==> g.TileAt(i, j) == old(g.TileAt(i, j))
  }

  /** `Box.update`. */
  method BoxUpdate(g: Game, p: Pos)
    requires p in g.objects[DEFAULT_LAYER] && g.objects[DEFAULT_LAYER][p].Box?
    modifies g`objects, g`tilesMap
    ensures BoxMoved(g, p)
  {
    var b := g.objects[DEFAULT_LAYER][p];
    if b.drowning == 0 {
      var arrival := Shift(g, DEFAULT_LAYER, p);
      if arrival.Some? {
        var q := arrival.value;
        ghost var pr := Advance(b.motion);
        ghost var tile := g.TileAt(q.0, q.1);
        ghost var moved := (old(g.objects[DEFAULT_LAYER]) - {p})[q := Box(b.id, 0, pr.motion)];
        assert g.objects[DEFAULT_LAYER] == moved;
        BoxAfterStep(g, q);
        ghost var sunk := Box(b.id, if tile == WATER || tile == LILY then 1 else 0, pr.motion.(inMove := None));
        assert moved[q := sunk] == (old(g.objects[DEFAULT_LAYER]) - {p})[q := sunk];
        assert g.objects == old(g.objects)[DEFAULT_LAYER := (old(g.objects[DEFAULT_LAYER]) - {p})[q := sunk]];
      }
    } else {
      match DrownTick(b.drowning)
      case None =>
        g.Remove(DEFAULT_LAYER, p);
      case Some(n) =>
        g.objects := g.objects[DEFAULT_LAYER := g.objects[DEFAULT_LAYER][p := b.(drowning := n)]];
    }
  }

  // Diamonds, envelopes, doors

  /** `Diamond.on_touch` has taken place: the player has collected the
      diamond at `p`. */
  twostate predicate DiamondTaken(g: Game, p: Pos)
    reads g`objects, g`diamondsLeft
  {
    g.diamondsLeft == old(g.diamondsLeft) - 1 && g.objects == old(g.objects)[DEFAULT_LAYER := old(g.objects[DEFAULT_LAYER]) - {p}]
  }

  /** `Diamond.on_touch`. */
  method DiamondOnTouch(g: Game, p: Pos)
    modifies g`objects, g`diamondsLeft
    ensures DiamondTaken(g, p)
  {
    g.diamondsLeft := g.diamondsLeft - 1;
    g.Remove(DEFAULT_LAYER, p);
  }

  /** The state change of `Diamond.update`: the three-sprite animation. */
  twostate predicate DiamondAnimated(g: Game, p: Pos)
    requires old(p in g.objects[DEFAULT_LAYER] && g.objects[DEFAULT_LAYER][p].Diamond?)
    reads g`objects
  {
    var e := old(g.objects[DEFAULT_LAYER][p]);
    var r := Animate(e.spriteNumber, e.animationTime, DIAMOND_SPRITES, ANIMATION_TIME);
    g.objects == old(g.objects)[DEFAULT_LAYER := old(g.objects[DEFAULT_LAYER])[p := WithSprite(e, r.0, r.1)]]
  }

  /** `Diamond.update`. */
  method DiamondUpdate(g: Game, p: Pos)
    requires p in g.objects[DEFAULT_LAYER] && g.objects[DEFAULT_LAYER][p].Diamond?
    modifies g`objects
    ensures DiamondAnimated(g, p)
  {
    var e := g.objects[DEFAULT_LAYER][p];
    var r := Animate(e.spriteNumber, e.animationTime, DIAMOND_SPRITES, ANIMATION_TIME);
    g.objects := g.objects[DEFAULT_LAYER := g.objects[DEFAULT_LAYER][p := WithSprite(e, r.0, r.1)]];
  }

  /** `Envelope.on_touch` has taken place: the envelope at `p` goes and the
      arrows read as released (the message screen itself is not
      modelled). */
  twostate predicate EnvelopeTaken(g: Game, p: Pos)
    reads g`objects, g`holdingArrows
  {
    g.objects == old(g.objects)[DEFAULT_LAYER := old(g.objects[DEFAULT_LAYER]) - {p}] && g.holdingArrows == NO_ARROWS
  }

  /** `Envelope.on_touch`. */
  method EnvelopeOnTouch(g: Game, p: Pos)
    modifies g`objects, g`holdingArrows
    ensures EnvelopeTaken(g, p)
  {
    g.Remove(DEFAULT_LAYER, p);
    g.ResetArrowKeys();
  }

  /** The state change of `Door.update`: the door opens (goes) once its
      update condition holds. */
  twostate predicate DoorChecked(g: Game, p: Pos)
    requires old(p in g.objects[DEFAULT_LAYER] && g.objects[DEFAULT_LAYER][p].Door?)
    reads g`objects
  {
    var e := old(g.objects[DEFAULT_LAYER][p]);
    var opens := e.hasOnUpdate && g.scripts.doorOnUpdate(e.script, old(g.Snapshot()));
    g.objects == if opens then old(g.objects)[DEFAULT_LAYER := old(g.objects[DEFAULT_LAYER]) - {p}] else old(g.objects)
  }

  /** `Door.update`. */
  method DoorUpdate(g: Game, p: Pos)
    requires p in g.objects[DEFAULT_LAYER] && g.objects[DEFAULT_LAYER][p].Door?
    modifies g`objects
    ensures DoorChecked(g, p)
  {
    var e := g.objects[DEFAULT_LAYER][p];
    if e.hasOnUpdate && g.scripts.doorOnUpdate(e.script, g.Snapshot()) {
      g.Remove(DEFAULT_LAYER, p);
    }
  }

  /** `Door.on_touch` has taken place: the door at `p` opens when touched
      while its touch condition holds for the game as it was, seen with the
      player facing `facing`. */
  twostate predicate DoorTouched(g: Game, p: Pos, facing: Direction)
    requires old(p in g.objects[DEFAULT_LAYER] && g.objects[DEFAULT_LAYER][p].Door?)
    reads g`objects
  {
    var e := old(g.objects[DEFAULT_LAYER][p]);
    var opens := e.hasOnTouch && g.scripts.doorOnTouch(e.script, Facing(old(g.Snapshot()), facing));
    g.objects == if opens then old(g.objects)[DEFAULT_LAYER := old(g.objects[DEFAULT_LAYER]) - {p}] else old(g.objects)
  }

  /** `Door.on_touch`. */
  method DoorOnTouch(g: Game, p: Pos)
    requires p in g.objects[DEFAULT_LAYER] && g.objects[DEFAULT_LAYER][p].Door?
    modifies g`objects
    ensures DoorTouched(g, p, old(g.player.facing))
  {
    var e := g.objects[DEFAULT_LAYER][p];
    if e.hasOnTouch && g.scripts.doorOnTouch(e.script, g.Snapshot()) {
      g.Remove(DEFAULT_LAYER, p);
    }
  }

  // Events and the player's steps

  /** The view `v` with the player facing `d`. */
  function Facing(v: View, d: Direction): (r: View)
    ensures r.player.facing == d
    ensures r.(player := v.player) == v && r.player.(facing := v.player.facing) == v.player
  {
    v.(player := v.player.(facing := d))
  }

  /** The view after the player has stepped onto `p`. */
  function SteppedTo(v: View, p: Pos): (r: View)
    ensures r.player.x == p.0 && r.player.y == p.1 && r.player.steps == v.player.steps + 1
    ensures r.(player := v.player) == v
    ensures r.player.(x := v.player.x, y := v.player.y, steps := v.player.steps) == v.player
  {
    v.(player := v.player.(x := p.0, y := p.1, steps := v.player.steps + 1))
  }

  /** The registry after the event at `p` has fired once. */
  function Fired(events: map<Pos, Event>, p: Pos): map<Pos, Event>
    requires p in events
  {
    match Countdown(events[p].timesTriggered)
    case None => events - {p}
    case Some(t) => events[p := events[p].(timesTriggered := t)]
  }

  /** `Event.trigger`: the level's effect is applied to the game, then the
      event's count goes down and at 0 it leaves the registry. */
  method TriggerEvent(g: Game, p: Pos)
    requires p in g.events
    modifies g`tilesMap, g`objects, g`ballsLeft, g`diamondsLeft, g`events
    modifies g.player`x, g.player`y, g.player`steps, g.player`dead, g.player`facing, g.player`motion
    ensures g.Snapshot() == g.scripts.eventEffect(old(g.events[p]).script, old(g.Snapshot()))
    ensures g.events == Fired(old(g.events), p)
    ensures g.player.motion == old(g.player.motion).(stepSize := g.player.motion.stepSize)
  {
    var e := g.events[p];
    var v := g.scripts.eventEffect(e.script, g.Snapshot());
    g.Restore(v);
    g.events := Fired(g.events, p);
  }

  /** `Player.after_step`: the player comes to rest, counts a step, and the
      event on the new cell, if any, fires. */
  method PlayerAfterStep(g: Game)
    modifies g`tilesMap, g`objects, g`ballsLeft, g`diamondsLeft, g`events
    modifies g.player`x, g.player`y, g.player`steps, g.player`dead, g.player`facing, g.player`motion
    ensures var p := old(Here(g));
      var stepped := SteppedTo(old(g.Snapshot()), p);
      && (p !in old(g.events) ==> g.Snapshot() == stepped && g.events == old(g.events))
      && (p in old(g.events) ==>
            g.Snapshot() == g.scripts.eventEffect(old(g.events[p]).script, stepped) && g.events == Fired(old(g.events), p))
    ensures g.player.motion == Motion(None, 0.0, 0.0, g.player.motion.stepSize)
  {
    g.player.motion := g.player.motion.(deltaX := 0.0, deltaY := 0.0, inMove := None);
    g.player.steps := g.player.steps + 1;
    var p := (g.player.x, g.player.y);
    if p in g.events {
      TriggerEvent(g, p);
    }
  }

  /** `Player.update` has taken place: the player's offset has advanced;
      on a whole tile the player has moved, its reservation is cleared and
      `after_step` has run. */
  twostate predicate PlayerMoved(g: Game)
    reads g`tilesMap, g`objects, g`ballsLeft, g`diamondsLeft, g`events
    reads g.player`x, g.player`y, g.player`steps, g.player`dead, g.player`facing, g.player`motion
  {
    var pr := Advance(old(g.player.motion));
    && (!pr.arrived ==>
          && g.player.motion == pr.motion && Here(g) == old(Here(g)) && g.player.steps == old(g.player.steps)
          && g.objects == old(g.objects) && g.events == old(g.events))
    && (pr.arrived ==>
          var q := Next(old(Here(g)), old(g.player.motion.inMove.value));
          var stepped := SteppedTo(old(g.Snapshot()).(objects := old(g.objects)[DEFAULT_LAYER := old(g.objects[DEFAULT_LAYER]) - {q}]), q);
          && (q !in old(g.events) ==> g.Snapshot() == stepped && g.events == old(g.events))
          && (q in old(g.events) ==>
                g.Snapshot() == g.scripts.eventEffect(old(g.events[q]).script, stepped) && g.events == Fired(old(g.events), q))
          && g.player.motion == Motion(None, 0.0, 0.0, g.player.motion.stepSize))
  }

  /** `Player.update`. */
  method PlayerUpdate(g: Game)
    modifies g`tilesMap, g`objects, g`ballsLeft, g`diamondsLeft, g`events
    modifies g.player`x, g.player`y, g.player`steps, g.player`dead, g.player`facing, g.player`motion
    ensures PlayerMoved(g)
  {
    var pr := Advance(g.player.motion);
    g.player.motion := pr.motion;
    if pr.arrived {
      var q := Next((g.player.x, g.player.y), pr.motion.inMove.value);
      g.player.x, g.player.y := q.0, q.1;
      g.Remove(DEFAULT_LAYER, q);
      PlayerAfterStep(g);
    }
  }

  // Portals

  /** `Portal.on_touch` has taken place for the portal at `p`, the game as
      it was seen with the player facing `facing`: with the destination free
      on the default layer and not a wall, the player is there, at rest, and
      has taken a step's `after_step`, and the arrows read as released;
      otherwise the portal raises its alert and nothing else changes. */
  twostate predicate PortalEntered(g: Game, p: Pos, facing: Direction)
    requires old(p in g.objects[DEFAULT_LAYER] && g.objects[DEFAULT_LAYER][p].Portal?)
    reads g, g.player
  {
    var e := old(g.objects[DEFAULT_LAYER][p]);
    var dest := e.destination;
    var open := old(g.TileIsFree(dest.0, dest.1, DEFAULT_LAYER)) && old(g.TileAt(dest.0, dest.1)) != WALL;
    var before := Facing(old(g.Snapshot()), facing);
    var stepped := SteppedTo(before, dest);
    && (open ==>
          && g.holdingArrows == NO_ARROWS
          && g.player.motion == Motion(None, 0.0, 0.0, g.player.motion.stepSize)
          && (dest !in old(g.events) ==> g.Snapshot() == stepped && g.events == old(g.events))
          && (dest in old(g.events) ==>
                g.Snapshot() == g.scripts.eventEffect(old(g.events[dest]).script, stepped) && g.events == Fired(old(g.events), dest)))
    && (!open ==>
          && g.objects == old(g.objects)[DEFAULT_LAYER := old(g.objects[DEFAULT_LAYER])[p := e.(displayAlert := 1)]]
          && g.Snapshot() == before.(objects := g.objects)
          && g.player.motion == old(g.player.motion)
          && g.events == old(g.events) && g.holdingArrows == old(g.holdingArrows))
  }

  /** `Portal.on_touch`. */
  method PortalOnTouch(g: Game, p: Pos)
    requires p in g.objects[DEFAULT_LAYER] && g.objects[DEFAULT_LAYER][p].Portal?
    modifies g`tilesMap, g`objects, g`ballsLeft, g`diamondsLeft, g`events, g`holdingArrows
    modifies g.player`x, g.player`y, g.player`steps, g.player`dead, g.player`facing, g.player`motion
    ensures PortalEntered(g, p, old(g.player.facing))
  {
    var e := g.objects[DEFAULT_LAYER][p];
    var dest := e.destination;
    if g.TileIsFree(dest.0, dest.1, DEFAULT_LAYER) && g.TileAt(dest.0, dest.1) != WALL {
      g.player.x, g.player.y := dest.0, dest.1;
      PlayerAfterStep(g);
      g.ResetArrowKeys();
    } else {
      g.objects := g.objects[DEFAULT_LAYER := g.objects[DEFAULT_LAYER][p := e.(displayAlert := 1)]];
    }
  }

  /** The state change of `Portal.update`: the two-sprite animation runs
      while no alert shows. */
  twostate predicate PortalAnimated(g: Game, p: Pos)
    requires old(p in g.objects[DEFAULT_LAYER] && g.objects[DEFAULT_LAYER][p].Portal?)
    reads g`objects
  {
    var e := old(g.objects[DEFAULT_LAYER][p]);
    var r := Animate(e.spriteNumber, e.animationTime, PORTAL_SPRITES, ANIMATION_TIME);
    g.objects == if e.displayAlert == 0
      then old(g.objects)[DEFAULT_LAYER := old(g.objects[DEFAULT_LAYER])[p := WithSprite(e, r.0, r.1)]]
      else old(g.objects)
  }

  /** `Portal.update`. */
  method PortalUpdate(g: Game, p: Pos)
    requires p in g.objects[DEFAULT_LAYER] && g.objects[DEFAULT_LAYER][p].Portal?
    modifies g`objects
    ensures PortalAnimated(g, p)
  {
    var e := g.objects[DEFAULT_LAYER][p];
    if e.displayAlert == 0 {
      var r := Animate(e.spriteNumber, e.animationTime, PORTAL_SPRITES, ANIMATION_TIME);
      g.objects := g.objects[DEFAULT_LAYER := g.objects[DEFAULT_LAYER][p := WithSprite(e, r.0, r.1)]];
    }
  }

  /** The alert bookkeeping of `Portal.render`. */
  method PortalRenderAlert(g: Game, p: Pos)
    requires p in g.objects[DEFAULT_LAYER] && g.objects[DEFAULT_LAYER][p].Portal?
    modifies g`objects
    ensures var e := old(g.objects[DEFAULT_LAYER][p]);
      g.objects == old(g.objects)[DEFAULT_LAYER := old(g.objects[DEFAULT_LAYER])[p := e.(displayAlert := AlertTick(e.displayAlert))]]
  {
    var e := g.objects[DEFAULT_LAYER][p];
    g.objects := g.objects[DEFAULT_LAYER := g.objects[DEFAULT_LAYER][p := e.(displayAlert := AlertTick(e.displayAlert))]];
  }

  // Cannons and cannonballs

  /** `Cannonball.after_step`, for a ball `b` that has left the layer and
      reached `q`: it kills the player there; it hits what is on the cell,
      resolved to the owner of a reservation, and is gone; it is gone at a
      wall; and otherwise it goes on from `q`. */
  method CannonballAfterStep(g: Game, q: Pos, b: Entity)
    modifies g`objects, g.player`dead
    ensures g.player.dead == (old(g.player.dead) || old(Here(g)) == q || old(ReservedByPlayer(g, q)))
    ensures q !in old(g.objects[DEFAULT_LAYER]) && old(g.TileAt(q.0, q.1)) != WALL ==>
      g.objects == old(g.objects)[DEFAULT_LAYER := old(g.objects[DEFAULT_LAYER])[q := b]]
    ensures q !in old(g.objects[DEFAULT_LAYER]) && old(g.TileAt(q.0, q.1)) == WALL ==> g.objects == old(g.objects)
    ensures q in old(g.objects[DEFAULT_LAYER]) ==>
      exists c :: c != Empty && Resolves(old(g.objects[DEFAULT_LAYER]), q, c) && g.objects == old(g.objects)[DEFAULT_LAYER := HitLayer(old(g.objects[DEFAULT_LAYER]), c)]
  {
    if (g.player.x, g.player.y) == q {
      g.player.OnHit();
    }
    var c := Collide(g, q);
    if c != Empty {
      Hit(g, c);
      return;
    }
    if g.TileAt(q.0, q.1) == WALL {
      return;
    }
    g.objects := g.objects[DEFAULT_LAYER := g.objects[DEFAULT_LAYER][q := b]];
  }

  /** The state change of `Cannonball.update`: the ball advances; on a
      whole tile it leaves its cell, kills the player on the next cell or
      holding it reserved, reappears on the next cell when that is empty and
      not a wall, is gone at a wall, and hits what is there otherwise. */
  twostate predicate CannonballMoved(g: Game, p: Pos)
    requires old(p in g.objects[DEFAULT_LAYER] && g.objects[DEFAULT_LAYER][p].Cannonball?)
    reads g`objects, g`tilesMap, g.player`x, g.player`y, g.player`dead
  {
    var e := old(g.objects[DEFAULT_LAYER][p]);
    var pr := Advance(e.motion);
    if !pr.arrived then
      g.objects == old(g.objects)[DEFAULT_LAYER := old(g.objects[DEFAULT_LAYER])[p := WithMotion(e, pr.motion)]] && g.player.dead == old(g.player.dead)
    else
      var q := Next(p, e.motion.inMove.value);
      var m := old(g.objects[DEFAULT_LAYER]) - {p};
      var wall := old(g.TileAt(q.0, q.1)) == WALL;
      && g.player.dead == (old(g.player.dead) || old(Here(g)) == q || PlayerReserved(m, q))
      && (q !in m && !wall ==> g.objects == old(g.objects)[DEFAULT_LAYER := m[q := WithMotion(e, pr.motion)]])
      && (q !in m && wall ==> g.objects == old(g.objects)[DEFAULT_LAYER := m])
      && (q in m ==> exists c :: c != Empty && Resolves(m, q, c) && g.objects == old(g.objects)[DEFAULT_LAYER := HitLayer(m, c)])
  }

  /** `Cannonball.update`. */
  method CannonballUpdate(g: Game, p: Pos)
    requires p in g.objects[DEFAULT_LAYER] && g.objects[DEFAULT_LAYER][p].Cannonball?
    modifies g`objects, g.player`dead
    ensures CannonballMoved(g, p)
  {
    var e := g.objects[DEFAULT_LAYER][p];
    var pr := Advance(e.motion);
    if !pr.arrived {
      g.objects := g.objects[DEFAULT_LAYER := g.objects[DEFAULT_LAYER][p := WithMotion(e, pr.motion)]];
    } else {
      g.Remove(DEFAULT_LAYER, p);
      var q := Next(p, e.motion.inMove.value);
      StepBack(p.0, p.1, e.motion.inMove.value);
      CannonballAfterStep(g, q, WithMotion(e, pr.motion));
    }
  }

  /** The state change of `Cannon.update`: while the delay runs the cannon
      waits; then it kills the player on the cell in front (and keeps its
      schedule), or, unless that cell is a wall, hits what is there (the
      player for the player's reservation, the owner for another
      reservation) or fires a ball onto it, and moves on to its next shot. */
  twostate predicate CannonFired(g: Game, p: Pos)
    requires old(p in g.objects[DEFAULT_LAYER] && g.objects[DEFAULT_LAYER][p].Cannon?)
    reads g`objects, g`nextId, g`tilesMap, g.player`x, g.player`y, g.player`dead
  {
    var e := old(g.objects[DEFAULT_LAYER][p]);
    var m := old(g.objects[DEFAULT_LAYER]);
    var q := Next(p, e.shootingDirection);
    var n := e.cannonCounter + 1;
    var reloaded := e.(cannonCounter := n, delay := g.scripts.shootingDelay(e.script, n));
    var wall := old(g.TileAt(q.0, q.1)) == WALL;
    && (e.delay != 0 ==>
          && g.objects == old(g.objects)[DEFAULT_LAYER := m[p := e.(delay := e.delay - 1)]]
          && g.nextId == old(g.nextId) && g.player.dead == old(g.player.dead))
    && (e.delay == 0 && old(Here(g)) == q ==> g.player.dead && g.objects == old(g.objects) && g.nextId == old(g.nextId))
    && (e.delay == 0 && old(Here(g)) != q && wall ==>
          && g.objects == old(g.objects)[DEFAULT_LAYER := m[p := reloaded]]
          && g.nextId == old(g.nextId) && g.player.dead == old(g.player.dead))
    && (e.delay == 0 && old(Here(g)) != q && !wall && q !in m ==>
          var shot := WithId(NewCannonball(e.shootingDirection, g.scripts.bulletSpeed(e.script, e.cannonCounter)), old(g.nextId));
          && g.objects == old(g.objects)[DEFAULT_LAYER := m[q := shot][p := reloaded]]
          && g.nextId == old(g.nextId) + 1 && g.player.dead == old(g.player.dead))
    && (e.delay == 0 && old(Here(g)) != q && !wall && q in m ==>
          && g.nextId == old(g.nextId)
          && g.player.dead == (old(g.player.dead) || PlayerReserved(m, q))
          && exists c :: c != Empty && Resolves(m, q, c) && g.objects == old(g.objects)[DEFAULT_LAYER := PutBack(HitLayer(m, c), p, reloaded)])
  }

  /** `Cannon.update`. */
  method CannonUpdate(g: Game, p: Pos)
    requires p in g.objects[DEFAULT_LAYER] && g.objects[DEFAULT_LAYER][p].Cannon?
    modifies g`objects, g`nextId, g`ballsLeft, g`diamondsLeft, g.player`dead
    ensures CannonFired(g, p)
    ensures g.ballsLeft == old(g.ballsLeft) && g.diamondsLeft == old(g.diamondsLeft)
  {
    var e := g.objects[DEFAULT_LAYER][p];
    if e.delay == 0 {
      var q := Next(p, e.shootingDirection);
      if (g.player.x, g.player.y) == q {
        g.player.OnHit();
        return;
      }
      CannonShoots(g, p);
    } else {
      g.objects := g.objects[DEFAULT_LAYER := g.objects[DEFAULT_LAYER][p := e.(delay := e.delay - 1)]];
    }
  }

  /** The shot of `Cannon.update`, once the delay has run out and the
      player is not in front. */
  method CannonShoots(g: Game, p: Pos)
    requires p in g.objects[DEFAULT_LAYER] && g.objects[DEFAULT_LAYER][p].Cannon?
    requires g.objects[DEFAULT_LAYER][p].delay == 0
    requires Here(g) != Next(p, g.objects[DEFAULT_LAYER][p].shootingDirection)
    modifies g`objects, g`nextId, g`ballsLeft, g`diamondsLeft, g.player`dead
    ensures CannonFired(g, p)
    ensures g.ballsLeft == old(g.ballsLeft) && g.diamondsLeft == old(g.diamondsLeft)
  {
    var e := g.objects[DEFAULT_LAYER][p];
    var q := Next(p, e.shootingDirection);
    StepIsNeighbour(p.0, p.1, e.shootingDirection, e.shootingDirection);
    if g.TileAt(q.0, q.1) != WALL {
      var c := Collide(g, q);
      if c != Empty {
        Hit(g, c);
      } else {
        g.Spawn(q, NewCannonball(e.shootingDirection, g.scripts.bulletSpeed(e.script, e.cannonCounter)));
      }
    }
    var n := e.cannonCounter + 1;
    g.Put(DEFAULT_LAYER, p, e.(cannonCounter := n, delay := g.scripts.shootingDelay(e.script, n)));
  }

  // The little devil

  /** The devil can take direction `d` from `p` on a default layer `m` over
      the terrain `tiles`: not a wall and nothing on the layer (the player's
      cell is allowed). */
  predicate DevilCanGoIn(m: map<Pos, Entity>, tiles: seq<string>, p: Pos, d: Option<Direction>) {
    d.Some? && TileIn(tiles, Next(p, d.value).0, Next(p, d.value).1) != WALL && Next(p, d.value) !in m
  }

  /** `DevilCanGoIn` for the game's own layer and terrain. */
  predicate DevilCanGo(g: Game, p: Pos, d: Option<Direction>)
    reads g`objects, g`tilesMap
  {
    DevilCanGoIn(g.objects[DEFAULT_LAYER], g.tilesMap, p, d)
  }

  /** The devil at `p` after committing to `d` and reserving the cell. */
  function DevilCommitted(layer: map<Pos, Entity>, p: Pos, d: Direction, id: nat): (r: map<Pos, Entity>)
    requires p in layer && layer[p].LittleDevil?
    ensures r.Keys == layer.Keys + {Next(p, d)}
    ensures r[p] == WithMotion(layer[p].(mockup := Some(Next(p, d))), layer[p].motion.(inMove := Some(d)))
    ensures r[Next(p, d)] == Mockup(id, Owned(layer[p].id), MOCKUP_TIME_TO_LIVE)
    ensures forall q :: q in layer && q != p && q != Next(p, d) ==> r[q] == layer[q]
  {
    StepIsNeighbour(p.0, p.1, d, d);
    var e := layer[p];
    Reserved(layer[p := WithMotion(e.(mockup := Some(Next(p, d))), e.motion.(inMove := Some(d)))], Next(p, d), id, Owned(e.id))
  }

  /** `LittleDevil.__verify_direction`. */
  method DevilTry(g: Game, p: Pos, d: Option<Direction>)
    requires p in g.objects[DEFAULT_LAYER] && g.objects[DEFAULT_LAYER][p].LittleDevil?
    modifies g`objects, g`nextId
    ensures old(DevilCanGo(g, p, d)) ==>
      g.objects == old(g.objects)[DEFAULT_LAYER := DevilCommitted(old(g.objects[DEFAULT_LAYER]), p, d.value, old(g.nextId))] && g.nextId == old(g.nextId) + 1
    ensures !old(DevilCanGo(g, p, d)) ==> g.objects == old(g.objects) && g.nextId == old(g.nextId)
  {
    if d.None? {
      return;
    }
    var q := Next(p, d.value);
    if g.TileAt(q.0, q.1) == WALL || q in g.objects[DEFAULT_LAYER] {
      return;
    }
    var e := g.objects[DEFAULT_LAYER][p];
    g.objects := g.objects[DEFAULT_LAYER := g.objects[DEFAULT_LAYER][p := WithMotion(e.(mockup := Some(q)), e.motion.(inMove := d))]];
    PlaceMockup(g, q, Owned(e.id));
  }

  /** The decision half of `LittleDevil.update` on values: the default
      layer and the next identity after the devil at `p` has chosen. An idle
      devil commits to the first of its two chase directions towards the
      player at `here` it can take, else to the second, else stays. */
  function DevilChosen(m: map<Pos, Entity>, tiles: seq<string>, here: Pos, id: nat, p: Pos): (r: (map<Pos, Entity>, nat))
    requires p in m && m[p].LittleDevil?
    ensures p in r.0 && r.0[p].LittleDevil? && r.0[p].id == m[p].id && r.0[p].health == m[p].health
    ensures r.1 == id ==> r.0 == m
    ensures r.1 != id ==>
      var d := r.0[p].motion.inMove;
      && r.1 == id + 1 && m[p].motion.inMove.None? && DevilCanGoIn(m, tiles, p, d)
      && d in {ChaseOrder(here.0 - p.0, here.1 - p.1).0, ChaseOrder(here.0 - p.0, here.1 - p.1).1}
      && r.0 == DevilCommitted(m, p, d.value, id)
    ensures var order := ChaseOrder(here.0 - p.0, here.1 - p.1);
      && (m[p].motion.inMove.None? && DevilCanGoIn(m, tiles, p, order.0) ==>
            r.0[p].motion.inMove == order.0 && r.0 == DevilCommitted(m, p, order.0.value, id) && r.1 == id + 1)
      && (m[p].motion.inMove.None? && !DevilCanGoIn(m, tiles, p, order.0) && DevilCanGoIn(m, tiles, p, order.1) ==>
            r.0[p].motion.inMove == order.1 && r.0 == DevilCommitted(m, p, order.1.value, id) && r.1 == id + 1)
      && (m[p].motion.inMove.None? && !DevilCanGoIn(m, tiles, p, order.0) && !DevilCanGoIn(m, tiles, p, order.1) ==> r == (m, id))
      && (m[p].motion.inMove.Some? ==> r == (m, id))
  {
    var order := ChaseOrder(here.0 - p.0, here.1 - p.1);
    if m[p].motion.inMove.Some? then (m, id)
    else if DevilCanGoIn(m, tiles, p, order.0) then (DevilCommitted(m, p, order.0.value, id), id + 1)
    else if DevilCanGoIn(m, tiles, p, order.1) then (DevilCommitted(m, p, order.1.value, id), id + 1)
    else (m, id)
  }

  /** The decision half of `LittleDevil.update`. */
  method DevilChoose(g: Game, p: Pos)
    requires p in g.objects[DEFAULT_LAYER] && g.objects[DEFAULT_LAYER][p].LittleDevil?
    modifies g`objects, g`nextId
    ensures var r := DevilChosen(old(g.objects[DEFAULT_LAYER]), old(g.tilesMap), old(Here(g)), old(g.nextId), p);
      g.objects == old(g.objects)[DEFAULT_LAYER := r.0] && g.nextId == r.1
  {
    var e := g.objects[DEFAULT_LAYER][p];
    if e.motion.inMove.None? {
      var order := ChaseOrder(g.player.x - p.0, g.player.y - p.1);
      DevilTry(g, p, order.0);
      if g.objects[DEFAULT_LAYER][p].motion.inMove.None? {
        DevilTry(g, p, order.1);
      }
    }
  }

  /** `LittleDevil.after_step`: the devil forgets its reservation; on the
      player's cell it kills the player (and keeps moving), elsewhere it
      stops. */
  method DevilAfterStep(g: Game, p: Pos)
    requires p in g.objects[DEFAULT_LAYER] && g.objects[DEFAULT_LAYER][p].LittleDevil?
    modifies g`objects, g.player`dead
    ensures var e := old(g.objects[DEFAULT_LAYER][p]);
      && (old(Here(g)) == p ==> g.player.dead && g.objects == old(g.objects)[DEFAULT_LAYER := old(g.objects[DEFAULT_LAYER])[p := e.(mockup := None)]])
      && (old(Here(g)) != p ==>
            && g.player.dead == old(g.player.dead)
            && g.objects == old(g.objects)[DEFAULT_LAYER := old(g.objects[DEFAULT_LAYER])[p := WithMotion(e.(mockup := None), e.motion.(inMove := None))]])
  {
    var e := g.objects[DEFAULT_LAYER][p].(mockup := None);
    if (g.player.x, g.player.y) == p {
      g.player.OnHit();
    } else {
      e := WithMotion(e, e.motion.(inMove := None));
    }
    g.objects := g.objects[DEFAULT_LAYER := g.objects[DEFAULT_LAYER][p := e]];
  }

  /** The state change of `LittleDevil.update`: the devil chooses, its
      offset advances, and on a whole tile it moves on, forgets its
      reservation, and kills the player there or else stops. */
  twostate predicate DevilMoved(g: Game, p: Pos)
    requires old(p in g.objects[DEFAULT_LAYER] && g.objects[DEFAULT_LAYER][p].LittleDevil?)
    reads g`objects, g`nextId, g`tilesMap, g.player`x, g.player`y, g.player`dead
  {
    var c := DevilChosen(old(g.objects[DEFAULT_LAYER]), old(g.tilesMap), old(Here(g)), old(g.nextId), p);
    var e := c.0[p];
    var pr := Advance(e.motion);
    && g.nextId == c.1
    && (!pr.arrived ==>
          g.objects == old(g.objects)[DEFAULT_LAYER := c.0[p := WithMotion(e, pr.motion)]] && g.player.dead == old(g.player.dead))
    && (pr.arrived ==>
          var q := Next(p, e.motion.inMove.value);
          var moved := WithMotion(e, pr.motion).(mockup := None);
          && (old(Here(g)) == q ==> g.player.dead && g.objects == old(g.objects)[DEFAULT_LAYER := (c.0 - {p})[q := moved]])
          && (old(Here(g)) != q ==>
                && g.player.dead == old(g.player.dead)
                && g.objects == old(g.objects)[DEFAULT_LAYER := (c.0 - {p})[q := WithMotion(moved, pr.motion.(inMove := None))]]))
  }

  /** `LittleDevil.update`. */
  method DevilUpdate(g: Game, p: Pos)
    requires p in g.objects[DEFAULT_LAYER] && g.objects[DEFAULT_LAYER][p].LittleDevil?
    modifies g`objects, g`nextId, g.player`dead
    ensures DevilMoved(g, p)
  {
    DevilChoose(g, p);
    ghost var chosen := g.objects[DEFAULT_LAYER];
    var arrival := Shift(g, DEFAULT_LAYER, p);
    if arrival.Some? {
      var q := arrival.value;
      ghost var pr := Advance(chosen[p].motion);
      ghost var shifted := (chosen - {p})[q := WithMotion(chosen[p], pr.motion)];
      assert g.objects[DEFAULT_LAYER] == shifted;
      DevilAfterStep(g, q);
      ghost var moved := WithMotion(chosen[p], pr.motion).(mockup := None);
      assert shifted[q := moved] == (chosen - {p})[q := moved];
      assert shifted[q := WithMotion(moved, pr.motion.(inMove := None))] == (chosen - {p})[q := WithMotion(moved, pr.motion.(inMove := None))];
    }
  }

  // The ghost

  /** A ghost whose path and waypoint index the source can index. */
  predicate GhostOk(e: Entity) {
    e.Ghost? && |e.movingPath| > 0 && 0 <= e.targetPlaceIndex < |e.movingPath|
  }

  /** The decision half of `Ghost.update` on values: on the ghost layer `m`,
      an idle ghost at `p` moves on to its next waypoint and heads for it; a
      moving ghost keeps going. */
  function GhostChosen(m: map<Pos, Entity>, p: Pos): (r: map<Pos, Entity>)
    requires p in m && GhostOk(m[p])
    ensures r.Keys == m.Keys && GhostOk(r[p]) && r[p].id == m[p].id && r[p].movingPath == m[p].movingPath
    ensures forall q :: q in m && q != p ==> r[q] == m[q]
    ensures m[p].motion.inMove.Some? ==> r == m
    ensures m[p].motion.inMove.None? ==>
      r[p].targetPlaceIndex == NextWaypoint(m[p].targetPlaceIndex, |m[p].movingPath|)
      && r[p].motion.inMove == GhostHeading(p, m[p].movingPath[r[p].targetPlaceIndex])
  {
    var e := m[p];
    if e.motion.inMove.Some? then m
    else
      var t := NextWaypoint(e.targetPlaceIndex, |e.movingPath|);
      m[p := WithMotion(e.(targetPlaceIndex := t), e.motion.(inMove := GhostHeading(p, e.movingPath[t])))]
  }

  /** The decision half of `Ghost.update`. */
  method GhostChoose(g: Game, p: Pos)
    requires p in g.objects[2] && GhostOk(g.objects[2][p])
    modifies g`objects
    ensures g.objects == old(g.objects)[2 := GhostChosen(old(g.objects[2]), p)]
  {
    var e := g.objects[2][p];
    if e.motion.inMove.None? {
      var t := NextWaypoint(e.targetPlaceIndex, |e.movingPath|);
      g.objects := g.objects[2 := g.objects[2][p := WithMotion(e.(targetPlaceIndex := t), e.motion.(inMove := GhostHeading(p, e.movingPath[t])))]];
    }
  }

  /** `Ghost.after_step`: on the player's cell or the player's reservation it
      kills the player; otherwise it stops when it has reached its
      waypoint. */
  method GhostAfterStep(g: Game, p: Pos)
    requires p in g.objects[2] && GhostOk(g.objects[2][p])
    modifies g`objects, g.player`dead
    ensures var e := old(g.objects[2][p]);
      var kills := old(Here(g)) == p || old(ReservedByPlayer(g, p));
      && (kills ==> g.player.dead && g.objects == old(g.objects))
      && (!kills ==>
            && g.player.dead == old(g.player.dead)
            && g.objects == if p == e.movingPath[e.targetPlaceIndex]
                 then old(g.objects)[2 := old(g.objects[2])[p := WithMotion(e, e.motion.(inMove := None))]]
                 else old(g.objects))
  {
    var e := g.objects[2][p];
    var c := Collide(g, p);
    if (g.player.x, g.player.y) == p || c == PlayerCollision {
      g.player.OnHit();
    } else if p == e.movingPath[e.targetPlaceIndex] {
      g.objects := g.objects[2 := g.objects[2][p := WithMotion(e, e.motion.(inMove := None))]];
    }
  }

  /** The state change of `Ghost.update`: the ghost chooses, its offset
      advances, and on a whole tile it moves on and kills the player on that
      cell or holding it reserved, or else stops when it has reached its
      waypoint. */
  twostate predicate GhostMoved(g: Game, p: Pos)
    requires old(p in g.objects[2] && GhostOk(g.objects[2][p]))
    reads g`objects, g.player`x, g.player`y, g.player`dead
  {
    var c := GhostChosen(old(g.objects[2]), p);
    var e := c[p];
    var pr := Advance(e.motion);
    && (!pr.arrived ==>
          g.objects == old(g.objects)[2 := c[p := WithMotion(e, pr.motion)]] && g.player.dead == old(g.player.dead))
    && (pr.arrived ==>
          var q := Next(p, e.motion.inMove.value);
          var shifted := (c - {p})[q := WithMotion(e, pr.motion)];
          var kills := old(Here(g)) == q || PlayerReserved(old(g.objects[DEFAULT_LAYER]), q);
          && g.player.dead == (old(g.player.dead) || kills)
          && g.objects == old(g.objects)[2 :=
               if !kills && q == e.movingPath[e.targetPlaceIndex]
               then shifted[q := WithMotion(e, pr.motion.(inMove := None))]
               else shifted])
  }

  /** `Ghost.update`. */
  method GhostUpdate(g: Game, p: Pos)
    requires p in g.objects[2] && GhostOk(g.objects[2][p])
    modifies g`objects, g.player`dead
    ensures GhostMoved(g, p)
  {
    GhostChoose(g, p);
    var arrival := Shift(g, 2, p);
    if arrival.Some? {
      GhostAfterStep(g, arrival.value);
    }
  }

  // The hell entrance

  /** The state change of `HellEntrance.update`: the counter runs down; at
      0 the entrance kills the player standing on it or holding it reserved,
      waits while anything else is on it, and otherwise lets out a little
      devil and starts counting again. */
  twostate predicate HellEntranceTicked(g: Game, p: Pos)
    requires old(p in g.objects[0] && g.objects[0][p].HellEntrance?)
    reads g`objects, g`nextId, g.player`x, g.player`y, g.player`dead
  {
    var e := old(g.objects[0][p]);
    var counter := if e.frameCounter > 0 then e.frameCounter - 1 else e.frameCounter;
    var waiting := old(g.objects)[0 := old(g.objects[0])[p := e.(frameCounter := counter)]];
    && (counter != 0 ==> g.objects == waiting && g.nextId == old(g.nextId) && g.player.dead == old(g.player.dead))
    && (counter == 0 && (old(Here(g)) == p || old(ReservedByPlayer(g, p))) ==>
          g.player.dead && g.objects == waiting && g.nextId == old(g.nextId))
    && (counter == 0 && old(Here(g)) != p && !old(ReservedByPlayer(g, p)) && p in old(g.objects[DEFAULT_LAYER]) ==>
          g.objects == waiting && g.nextId == old(g.nextId) && g.player.dead == old(g.player.dead))
    && (counter == 0 && old(Here(g)) != p && p !in old(g.objects[DEFAULT_LAYER]) ==>
          && g.objects == old(g.objects)[0 := old(g.objects[0])[p := e.(frameCounter := e.frequency)]]
               [DEFAULT_LAYER := old(g.objects[DEFAULT_LAYER])[p := WithId(NewLittleDevil(e.speed, e.health), old(g.nextId))]]
          && g.nextId == old(g.nextId) + 1 && g.player.dead == old(g.player.dead))
  }

  /** `HellEntrance.update`. */
  method HellEntranceUpdate(g: Game, p: Pos)
    requires p in g.objects[0] && g.objects[0][p].HellEntrance?
    modifies g`objects, g`nextId, g`ballsLeft, g`diamondsLeft, g.player`dead
    ensures HellEntranceTicked(g, p)
    ensures g.ballsLeft == old(g.ballsLeft) && g.diamondsLeft == old(g.diamondsLeft)
  {
    var e := g.objects[0][p];
    var counter := e.frameCounter;
    if counter > 0 {
      counter := counter - 1;
    }
    if counter == 0 && (g.player.x, g.player.y) != p {
      var c := Collide(g, p);
      if c == Empty {
        g.Spawn(p, NewLittleDevil(e.speed, e.health));
        g.objects := g.objects[0 := g.objects[0][p := e.(frameCounter := e.frequency)]];
        return;
      }
      if c == PlayerCollision {
        g.player.OnHit();
      }
    } else if counter == 0 {
      g.player.OnHit();
    }
    g.objects := g.objects[0 := g.objects[0][p := e.(frameCounter := counter)]];
  }

  // Touching and updating, by kind

  /** `game_object.on_touch(game, d)` has taken place for the object at `p`
      on the default layer, the game as it was seen with the player facing
      `facing`: each kind's own rule, and no change for the kinds without
      one; only a ball or a portal changes the ball counts, only a ball or a
      box draws an identity, only a diamond or a portal changes the diamond
      count, only an envelope or a portal releases the arrows, and only a
      portal moves the player, fires an event or changes the terrain. */
  twostate predicate Touched(g: Game, p: Pos, d: Direction, facing: Direction)
    requires old(p in g.objects[DEFAULT_LAYER])
    reads g, g.player
  {
    var e := old(g.objects[DEFAULT_LAYER][p]);
    && (match e
        case Ball(_, _, _, _) => BallPushed(g, p, d)
        case Box(_, _, _) => BoxPushed(g, p, d)
        case Diamond(_, _, _) => DiamondTaken(g, p)
        case Envelope(_, _) => EnvelopeTaken(g, p)
        case Portal(_, _, _, _, _) => PortalEntered(g, p, facing)
        case Door(_, _, _, _) => DoorTouched(g, p, facing)
        case _ => g.objects == old(g.objects))
    && (e.Ball? || e.Portal? || g.ballsLeft == old(g.ballsLeft))
    && (e.Ball? || e.Box? || g.nextId == old(g.nextId))
    && (e.Diamond? || e.Portal? || g.diamondsLeft == old(g.diamondsLeft))
    && (e.Envelope? || e.Portal? || g.holdingArrows == old(g.holdingArrows))
    && (e.Portal? ||
          (&& g.tilesMap == old(g.tilesMap) && g.events == old(g.events)
           && Here(g) == old(Here(g)) && g.player.steps == old(g.player.steps)
           && g.player.dead == old(g.player.dead) && g.player.motion == old(g.player.motion)))
  }

  /** `game_object.on_touch(game, direction)` for the object at `p` on the
      default layer. */
  method OnTouch(g: Game, p: Pos, d: Direction)
    requires p in g.objects[DEFAULT_LAYER]
    modifies g`tilesMap, g`objects, g`ballsLeft, g`diamondsLeft, g`events, g`holdingArrows, g`nextId
    modifies g.player`x, g.player`y, g.player`steps, g.player`dead, g.player`facing, g.player`motion
    ensures Touched(g, p, d, old(g.player.facing))
    ensures !old(g.objects[DEFAULT_LAYER][p]).Portal? ==> g.player.facing == old(g.player.facing)
  {
    match g.objects[DEFAULT_LAYER][p]
    case Ball(_, _, _, _) => BallBeforeStep(g, p, d);
    case Box(_, _, _) => BoxBeforeStep(g, p, d);
    case Diamond(_, _, _) => DiamondOnTouch(g, p);
    case Envelope(_, _) => EnvelopeOnTouch(g, p);
    case Portal(_, _, _, _, _) => PortalOnTouch(g, p);
    case Door(_, _, _, _) => DoorOnTouch(g, p);
    case _ =>
  }

  /** `Player.before_step` towards `d` has taken place: the player has
      turned to `d`; towards an empty cell it has set off unless the cell is
      wall or water, reserving it; towards an occupied cell it has touched
      the occupant, as seen facing `d`, instead of moving. */
  twostate predicate PlayerSetOff(g: Game, d: Direction)
    reads g, g.player
  {
    var q := Next(old(Here(g)), d);
    var tile := old(g.TileAt(q.0, q.1));
    && (q !in old(g.objects[DEFAULT_LAYER]) ==>
          && g.player.facing == d && Here(g) == old(Here(g))
          && g.tilesMap == old(g.tilesMap) && g.events == old(g.events) && g.holdingArrows == old(g.holdingArrows)
          && g.ballsLeft == old(g.ballsLeft) && g.diamondsLeft == old(g.diamondsLeft)
          && g.player.steps == old(g.player.steps) && g.player.dead == old(g.player.dead))
    && (q !in old(g.objects[DEFAULT_LAYER]) && (tile == WALL || tile == WATER) ==>
          g.player.motion == old(g.player.motion) && g.objects == old(g.objects) && g.nextId == old(g.nextId))
    && (q !in old(g.objects[DEFAULT_LAYER]) && tile != WALL && tile != WATER ==>
          && g.player.motion == old(g.player.motion).(inMove := Some(d))
          && g.objects == old(g.objects)[DEFAULT_LAYER := Reserved(old(g.objects[DEFAULT_LAYER]), q, old(g.nextId), ThePlayer)]
          && g.nextId == old(g.nextId) + 1)
    && (q in old(g.objects[DEFAULT_LAYER]) ==>
          && Touched(g, q, d, d)
          && (!old(g.objects[DEFAULT_LAYER][q]).Portal? ==> g.player.facing == d))
  }

  /** `Player.before_step`. */
  method PlayerBeforeStep(g: Game, d: Direction)
    modifies g`tilesMap, g`objects, g`ballsLeft, g`diamondsLeft, g`events, g`holdingArrows, g`nextId
    modifies g.player`x, g.player`y, g.player`steps, g.player`dead, g.player`facing, g.player`motion
    ensures PlayerSetOff(g, d)
  {
    g.player.facing := d;
    var q := Next((g.player.x, g.player.y), d);
    if q !in g.objects[DEFAULT_LAYER] {
      if g.TileAt(q.0, q.1) == WALL || g.TileAt(q.0, q.1) == WATER {
        return;
      }
      g.player.motion := g.player.motion.(inMove := Some(d));
      PlaceMockup(g, q, ThePlayer);
    } else {
      OnTouch(g, q, d);
    }
  }

  /** Nothing an update may change has changed. */
  twostate predicate Idle(g: Game)
    reads g`objects, g`nextId, g`ballsLeft, g`diamondsLeft, g`tilesMap, g.player`dead
  {
    && g.objects == old(g.objects) && g.nextId == old(g.nextId) && g.ballsLeft == old(g.ballsLeft)
    && g.diamondsLeft == old(g.diamondsLeft) && g.tilesMap == old(g.tilesMap) && g.player.dead == old(g.player.dead)
  }

  /** `obj.update(game)` has taken place for the object at `p` on `layer`:
      each kind's own rule; an entity not on its own layer, or a ghost whose
      path cannot be indexed, changes nothing. No update changes the diamond
      count; only a ball changes the ball counts, only a box the terrain;
      only a ball, a cannon, a devil or a hell entrance draws an identity; and
      only a cannonball, a cannon, a devil, a ghost or a hell entrance can
      kill the player. */
  twostate predicate Updated(g: Game, layer: nat, p: Pos)
    requires layer < 3 && old(p in g.objects[layer])
    reads g`objects, g`nextId, g`ballsLeft, g`diamondsLeft, g`tilesMap, g.player`x, g.player`y, g.player`dead
  {
    var e := old(g.objects[layer][p]);
    if LayerOf(e) != layer then Idle(g)
    else
      && g.diamondsLeft == old(g.diamondsLeft)
      && (e.Ball? || g.ballsLeft == old(g.ballsLeft))
      && (e.Box? || g.tilesMap == old(g.tilesMap))
      && (e.Ball? || e.Cannon? || e.LittleDevil? || e.HellEntrance? || g.nextId == old(g.nextId))
      && (e.Cannonball? || e.Cannon? || e.LittleDevil? || e.Ghost? || e.HellEntrance? || g.player.dead == old(g.player.dead))
      && match e
         case Mockup(_, _, _) => MockupAged(g, p)
         case Ball(_, _, _, _) => BallMoved(g, p)
         case Box(_, _, _) => BoxMoved(g, p)
         case Diamond(_, _, _) => DiamondAnimated(g, p)
         case Envelope(_, _) => g.objects == old(g.objects)
         case Portal(_, _, _, _, _) => PortalAnimated(g, p)
         case Cannonball(_, _) => CannonballMoved(g, p)
         case Cannon(_, _, _, _, _) => CannonFired(g, p)
         case Door(_, _, _, _) => DoorChecked(g, p)
         case LittleDevil(_, _, _, _) => DevilMoved(g, p)
         case Ghost(_, _, _, _) => if GhostOk(e) then GhostMoved(g, p) else Idle(g)
         case HellEntrance(_, _, _, _, _) => HellEntranceTicked(g, p)
  }

  /** `obj.update(game)` for the object at `p` on `layer`. An entity found
      on a layer other than its own (only a level script can put one
      there) is left alone, as is a ghost whose path cannot be indexed,
      which the source would fail on. */
  method UpdateEntity(g: Game, layer: nat, p: Pos)
    requires layer < 3 && p in g.objects[layer]
    modifies g`objects, g`nextId, g`ballsLeft, g`diamondsLeft, g`tilesMap, g.player`dead
    ensures Updated(g, layer, p)
  {
    var e := g.objects[layer][p];
    if LayerOf(e) != layer {
      return;
    }
    match e
    case Mockup(_, _, _) => MockupUpdate(g, p);
    case Ball(_, _, _, _) => BallUpdate(g, p);
    case Box(_, _, _) => BoxUpdate(g, p);
    case Diamond(_, _, _) => DiamondUpdate(g, p);
    case Envelope(_, _) =>
    case Portal(_, _, _, _, _) => PortalUpdate(g, p);
    case Cannonball(_, _) => CannonballUpdate(g, p);
    case Cannon(_, _, _, _, _) => CannonUpdate(g, p);
    case Door(_, _, _, _) => DoorUpdate(g, p);
    case LittleDevil(_, _, _, _) => DevilUpdate(g, p);
    case Ghost(_, _, _, _) =>
      if GhostOk(e) {
        GhostUpdate(g, p);
      }
    case HellEntrance(_, _, _, _, _) => HellEntranceUpdate(g, p);
  }

  // Items

  /** Whether `on_use` reports the item as used: the gun unless it faces a
      wall, the speed pill always, the lily plant only on water. */
  predicate Usable(g: Game, it: Item)
    reads g`tilesMap, g.player`x, g.player`y, g.player`facing
  {
    match it
    case Gun => g.TileAt(Ahead(g).0, Ahead(g).1) != WALL
    case SpeedPill => true
    case LilyPlant => g.TileAt(Ahead(g).0, Ahead(g).1) == WATER
  }

  /** `Gun.on_use` has taken place: facing a wall nothing has happened;
      otherwise the cell in front is hit, resolved to the owner of a reservation (the player for
      the player's own), or a ball is fired onto it when it is empty. */
  twostate predicate GunFired(g: Game, used: bool)
    reads g`objects, g`nextId, g`tilesMap, g.player`x, g.player`y, g.player`facing, g.player`dead
  {
    && used == old(Usable(g, Gun))
    && (!used ==> g.objects == old(g.objects) && g.nextId == old(g.nextId))
    && (used && Ahead(g) !in old(g.objects[DEFAULT_LAYER]) ==>
          && g.objects == old(g.objects)[DEFAULT_LAYER := old(g.objects[DEFAULT_LAYER])[Ahead(g) := WithId(NewCannonball(g.player.facing, GUN_BULLET_SPEED), old(g.nextId))]]
          && g.nextId == old(g.nextId) + 1)
    && (used && Ahead(g) in old(g.objects[DEFAULT_LAYER]) ==>
          && g.nextId == old(g.nextId)
          && exists c :: c != Empty && Resolves(old(g.objects[DEFAULT_LAYER]), Ahead(g), c)
               && g.objects == old(g.objects)[DEFAULT_LAYER := HitLayer(old(g.objects[DEFAULT_LAYER]), c)])
    && g.player.dead == (old(g.player.dead) || (used && old(ReservedByPlayer(g, Ahead(g)))))
  }

  /** `Gun.on_use`. */
  method GunOnUse(g: Game) returns (used: bool)
    modifies g`objects, g`nextId, g`ballsLeft, g`diamondsLeft, g.player`dead
    ensures GunFired(g, used)
    ensures g.ballsLeft == old(g.ballsLeft) && g.diamondsLeft == old(g.diamondsLeft)
  {
    var d := g.player.facing;
    var q := Next((g.player.x, g.player.y), d);
    if g.TileAt(q.0, q.1) == WALL {
      return false;
    }
    var c := Collide(g, q);
    if c != Empty {
      Hit(g, c);
    } else {
      g.Spawn(q, NewCannonball(d, GUN_BULLET_SPEED));
    }
    return true;
  }

  /** `SpeedPill.on_use`: the player gets faster by two tiles per second. */
  method SpeedPillOnUse(g: Game) returns (used: bool)
    modifies g.player`motion
    ensures used
    ensures g.player.motion == WithSpeedChange(old(g.player.motion), 2.0)
  {
    g.player.ModifySpeed(2.0);
    return true;
  }

  /** `LilyPlant.on_use` has taken place: water in front has turned into
      a lily, and no other cell has changed. */
  twostate predicate LilyPlanted(g: Game, used: bool)
    reads g`tilesMap, g.player`x, g.player`y, g.player`facing
  {
    && used == old(Usable(g, LilyPlant))
    && (used ==> g.TileAt(Ahead(g).0, Ahead(g).1) == LILY)
    && (!used ==> g.tilesMap == old(g.tilesMap))
    && forall i, j :: (i, j) != Ahead(g) ==> g.TileAt(i, j) == old(g.TileAt(i, j))
  }

  /** `LilyPlant.on_use`. */
  method LilyPlantOnUse(g: Game) returns (used: bool)
    modifies g`tilesMap
    ensures LilyPlanted(g, used)
  {
    var q := Next((g.player.x, g.player.y), g.player.facing);
    if g.TileAt(q.0, q.1) == WATER {
      g.SetTile(q.0, q.1, LILY);
      return true;
    }
    return false;
  }

  /** The `on_use` of an item of kind `it` has taken place, `used` being
      what it reported: that kind's own effect on the world, and nothing
      outside it changed. */
  twostate predicate ItemActed(g: Game, it: Item, used: bool)
    reads g`objects, g`nextId, g`ballsLeft, g`diamondsLeft, g`tilesMap
    reads g.player`x, g.player`y, g.player`facing, g.player`dead, g.player`motion
  {
    && used == old(Usable(g, it))
    && g.ballsLeft == old(g.ballsLeft) && g.diamondsLeft == old(g.diamondsLeft)
    && (it == Gun ==> GunFired(g, used))
    && (it == SpeedPill ==> g.player.motion == WithSpeedChange(old(g.player.motion), 2.0))
    && (it == LilyPlant ==> LilyPlanted(g, used))
    && (it != Gun ==> g.objects == old(g.objects) && g.nextId == old(g.nextId) && g.player.dead == old(g.player.dead))
    && (it != SpeedPill ==> g.player.motion == old(g.player.motion))
    && (it != LilyPlant ==> g.tilesMap == old(g.tilesMap))
  }

  /** `item.on_use(game)`, for an item of kind `it`. */
  method ItemOnUse(g: Game, it: Item) returns (used: bool)
    modifies g`objects, g`nextId, g`ballsLeft, g`diamondsLeft, g`tilesMap, g.player`dead, g.player`motion
    ensures ItemActed(g, it, used)
  {
    match it {
      case Gun => used := GunOnUse(g);
      case SpeedPill => used := SpeedPillOnUse(g);
      case LilyPlant => used := LilyPlantOnUse(g);
    }
  }

  /** `Player.use_item` has taken place: an idle player with a non-empty
      inventory has used the selected item, with that item's own effect on
      the world, and when the item reported it was used one of it is spent;
      otherwise nothing has changed. */
  twostate predicate ItemUsed(g: Game)
    requires old(g.player.Valid())
    reads g, g.player
  {
    && g.player.Valid()
    && (old(g.player.motion.inMove.Some? || |g.player.items| == 0) ==>
          && g.objects == old(g.objects) && g.nextId == old(g.nextId) && g.tilesMap == old(g.tilesMap)
          && g.ballsLeft == old(g.ballsLeft) && g.diamondsLeft == old(g.diamondsLeft)
          && g.player.motion == old(g.player.motion) && g.player.dead == old(g.player.dead)
          && g.player.items == old(g.player.items) && g.player.counts == old(g.player.counts)
          && g.player.selectedItemIndex == old(g.player.selectedItemIndex))
    && (old(g.player.motion.inMove.None? && |g.player.items| != 0) ==>
          var it := old(g.player.items[g.player.selectedItemIndex]);
          var used := old(Usable(g, it));
          && ItemActed(g, it, used)
          && (used ==> g.player.Spent())
          && (!used ==> g.player.items == old(g.player.items) && g.player.counts == old(g.player.counts)
                        && g.player.selectedItemIndex == old(g.player.selectedItemIndex)))
  }

  /** `Player.use_item`. */
  method UseItem(g: Game)
    requires g.player.Valid()
    modifies g`objects, g`nextId, g`ballsLeft, g`diamondsLeft, g`tilesMap
    modifies g.player`dead, g.player`motion, g.player`items, g.player`counts, g.player`selectedItemIndex
    ensures ItemUsed(g)
  {
    if g.player.motion.inMove.None? && |g.player.items| != 0 {
      var it := g.player.items[g.player.selectedItemIndex];
      var used := ItemOnUse(g, it);
      if used {
        g.player.SpendSelected();
      }
    }
  }
}
