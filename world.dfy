/** The mutable state of a running level (src/game.py) and the player
    object of src/objects.py: the bordered terrain, the three object layers,
    the event registry, the win counters and the held arrow keys. */
module World {
  import opened Optional
  import opened Directions
  import opened Const
  import opened Items
  import opened Entities
  import opened Inventory

  /** Three layers: 0 under, 1 the default layer, 2 over. */
  type Layers = s: seq<map<Pos, Entity>> | |s| == 3 witness [map[], map[], map[]]
  /** Balls left to seat, per colour index. */
  type Counters = s: seq<int> | |s| == 3 witness [0, 0, 0]

  /** Which arrow keys the game believes are held. */
  datatype Arrows = Arrows(up: bool, down: bool, left: bool, right: bool)
  const NO_ARROWS := Arrows(false, false, false, false)

  /** What a level script can see and change: the terrain, the layers, the
      counters and the player's position, step count, state, facing and
      step size. */
  datatype PlayerView = PlayerView(x: int, y: int, steps: int, dead: bool, facing: Direction, stepSize: real)
  datatype View = View(tiles: seq<string>, objects: Layers, ballsLeft: Counters, diamondsLeft: int, player: PlayerView)

  /** The callables a level supplies, selected by the `script` tag an event,
      door, cannon or player carries: event effects, door conditions, the
      cannon's delay and bullet speed per shot, and the player's
      `init_function`, given as its effect on the game and the items, with
      their amounts, it hands to `add_item` in turn. */
  datatype Scripts = Scripts(
    eventEffect: (nat, View) -> View,
    doorOnUpdate: (nat, View) -> bool,
    doorOnTouch: (nat, View) -> bool,
    shootingDelay: (nat, nat) -> int,
    bulletSpeed: (nat, nat) -> real,
    playerInit: (nat, View) -> View,
    playerItems: (nat, View) -> seq<(Item, int)>)

  /** The total amount of `it` among `grants`. */
  function Granted(grants: seq<(Item, int)>, it: Item): int {
    if |grants| == 0 then 0
    else Granted(grants[..|grants| - 1], it) + (if grants[|grants| - 1].0 == it then grants[|grants| - 1].1 else 0)
  }

  /** An entry of a level's object list. */
  datatype NewObject =
    | NewPlayer(x: int, y: int, initScript: nat)
    | NewEventAt(x: int, y: int, event: Event)
    | NewEntity(x: int, y: int, entity: Entity)

  /** A level as `unpack_level` returns it. */
  datatype Level = Level(width: int, height: int, tiles: seq<string>, steps: int, objects: seq<NewObject>, scripts: Scripts)

  const TOTAL_HUDS := 3

  /** A turn of a frame's update pass: the player's, or the entity `id`
      found (or no longer found, when `updated` is false) at cell `at` of
      `layer`. */
  datatype Turn = PlayerTurn | EntityTurn(layer: nat, at: Pos, id: nat, updated: bool)

  /** A layer with `e` written back at `p`, provided the entity with `e`'s
      identity still sits there. */
  function PutBack(m: map<Pos, Entity>, p: Pos, e: Entity): (r: map<Pos, Entity>)
    ensures r.Keys == m.Keys
    ensures p in m && m[p].id == e.id ==> r[p] == e
    ensures forall q :: q in m && (q != p || m[q].id != e.id) ==> r[q] == m[q]
  {
    if p in m && m[p].id == e.id then m[p := e] else m
  }

  /** `n * c`: empty for `n <= 0`. */
  function Repeat(c: char, n: int): (r: string)
    ensures |r| == if n > 0 then n else 0
    ensures forall i :: 0 <= i < |r| ==> r[i] == c
  {
    if n <= 0 then [] else [c] + Repeat(c, n - 1)
  }

  /** The terrain at a cell; outside the map every cell reads as wall. */
  function TileIn(m: seq<string>, x: int, y: int): char {
    if 0 <= y < |m| && 0 <= x < |m[y]| then m[y][x] else WALL
  }

  /** `Game.__init__` surrounds the level's rows with a wall border. */
  method BuildTilesMap(width: int, rows: seq<string>) returns (m: seq<string>)
    ensures |m| == |rows| + 2
    ensures m[0] == Repeat(WALL, width + 2) && m[|m| - 1] == Repeat(WALL, width + 2)
    ensures forall i :: 0 <= i < |rows| ==> m[i + 1] == [WALL] + rows[i] + [WALL]
  {
    m := [Repeat(WALL, width + 2)];
    for i := 0 to |rows|
      invariant |m| == i + 1 && m[0] == Repeat(WALL, width + 2)
      invariant forall j :: 0 <= j < i ==> m[j + 1] == [WALL] + rows[j] + [WALL]
    {
      m := m + [[WALL] + rows[i] + [WALL]];
    }
    m := m + [Repeat(WALL, width + 2)];
  }

  /** For rows of the declared width, the bordered map holds the level's
      terrain at cells 1..width by 1..height, shifted by one, and a wall at
      every other cell, outside the map included. */
  lemma BorderedMap(width: int, rows: seq<string>, m: seq<string>, x: int, y: int)
    requires width >= 0 && forall i :: 0 <= i < |rows| ==> |rows[i]| == width
    requires |m| == |rows| + 2
    requires m[0] == Repeat(WALL, width + 2) && m[|m| - 1] == Repeat(WALL, width + 2)
    requires forall i :: 0 <= i < |rows| ==> m[i + 1] == [WALL] + rows[i] + [WALL]
    ensures TileIn(m, x, y) == if 1 <= x <= width && 1 <= y <= |rows| then rows[y - 1][x - 1] else WALL
  {
    if 1 <= y <= |rows| {
      assert m[y] == [WALL] + rows[y - 1] + [WALL];
      if 1 <= x <= width {
        assert m[y][x] == rows[y - 1][x - 1];
      }
    }
  }

  /** Whether the ball of a level entry is loaded outside its pad, which is
      what `register_object` counts. */
  predicate Unseated(o: NewObject, m: seq<string>) {
    o.NewEntity? && o.entity.Ball? && Pad(o.entity.color) != Lower(TileIn(m, o.x, o.y))
  }

  function UnseatedBalls(objs: seq<NewObject>, m: seq<string>, c: Color): nat {
    if |objs| == 0 then 0
    else
      var o := objs[|objs| - 1];
      UnseatedBalls(objs[..|objs| - 1], m, c) + (if Unseated(o, m) && o.entity.color == c then 1 else 0)
  }

  function DiamondCount(objs: seq<NewObject>): nat {
    if |objs| == 0 then 0
    else DiamondCount(objs[..|objs| - 1]) + (if objs[|objs| - 1].NewEntity? && objs[|objs| - 1].entity.Diamond? then 1 else 0)
  }

  function EntityCount(objs: seq<NewObject>): nat {
    if |objs| == 0 then 0 else EntityCount(objs[..|objs| - 1]) + (if objs[|objs| - 1].NewEntity? then 1 else 0)
  }

  /** `MovingObject.modify_speed` on a motion. */
  function WithSpeedChange(m: Motion, delta: real): Motion {
    m.(stepSize := m.stepSize + StepSize(delta))
  }

  class Player {
    var x: int
    var y: int
    var motion: Motion
    var steps: int
    var selectedHud: int
    var dead: bool
    var facing: Direction
    var items: seq<Item>
    var counts: seq<int>
    var selectedItemIndex: int
    var initScript: nat

    /** The heads-up display index is in range and the inventory is well
        formed. */
    ghost predicate Valid()
      reads this`selectedHud, this`items, this`counts, this`selectedItemIndex
    {
      0 <= selectedHud < TOTAL_HUDS && Wellformed(items, counts, selectedItemIndex)
    }

    /** The amount of `it` the player holds. */
    function Count(it: Item): int
      reads this`items, this`counts
      requires |items| == |counts|
    {
      CountOf(items, counts, it)
    }

    /** `Player.__init__`. */
    constructor (x0: int, y0: int, script: nat)
      ensures Valid()
      ensures x == x0 && y == y0 && motion == Still(PLAYER_SPEED) && steps == 0 && selectedHud == 1
      ensures !dead && facing == Down && items == [] && counts == [] && selectedItemIndex == 0 && initScript == script
    {
      x, y, motion, steps, selectedHud := x0, y0, Still(PLAYER_SPEED), 0, 1;
      dead, facing, items, counts, selectedItemIndex, initScript := false, Down, [], [], 0, script;
    }

    /** Replacing `game.player` by a fresh player, on this object. */
    method Reset(x0: int, y0: int, script: nat)
      modifies this
      ensures Valid()
      ensures x == x0 && y == y0 && motion == Still(PLAYER_SPEED) && steps == 0 && selectedHud == 1
      ensures !dead && facing == Down && items == [] && counts == [] && selectedItemIndex == 0 && initScript == script
    {
      x, y, motion, steps, selectedHud := x0, y0, Still(PLAYER_SPEED), 0, 1;
      dead, facing, items, counts, selectedItemIndex, initScript := false, Down, [], [], 0, script;
    }

    /** `modify_speed`: the step grows by the step of `delta` tiles per
        second. */
    method ModifySpeed(delta: real)
      modifies this`motion
      ensures motion == WithSpeedChange(old(motion), delta)
      ensures motion.stepSize - old(motion.stepSize) == (TILE_SIZE as real) * delta / (CLOCK_TICK as real)
    {
      motion := motion.(stepSize := motion.stepSize + StepSize(delta));
    }

    /** `on_hit`: any hit kills the player. */
    method OnHit()
      modifies this`dead
      ensures dead
    {
      dead := true;
    }

    /** `select_previous_item`: the selection moves one entry on, wrapping. */
    method SelectPreviousItem()
      requires Valid()
      modifies this`selectedItemIndex
      ensures Valid()
      ensures |items| != 0 ==> selectedItemIndex == (old(selectedItemIndex) + 1) % |items|
      ensures |items| == 0 ==> selectedItemIndex == old(selectedItemIndex)
    {
      if |items| != 0 {
        selectedItemIndex := (selectedItemIndex + 1) % |items|;
      }
    }

    /** `select_next_item`: the selection moves one entry back, wrapping. */
    method SelectNextItem()
      requires Valid()
      modifies this`selectedItemIndex
      ensures Valid()
      ensures |items| != 0 ==> selectedItemIndex == (old(selectedItemIndex) - 1) % |items|
      ensures |items| == 0 ==> selectedItemIndex == old(selectedItemIndex)
    {
      if |items| != 0 {
        selectedItemIndex := (selectedItemIndex - 1) % |items|;
      }
    }

    /** `add_item`: the item's amount grows by `amount`, every other amount
        stays, the list stays sorted, and the selection stays on the entry
        it was on. */
    /** `add_item` for each grant in turn: every kind's count rises by the
        total amount granted of it. */
    method AddItems(grants: seq<(Item, int)>)
      requires Valid()
      modifies this`items, this`counts, this`selectedItemIndex
      ensures Valid()
      ensures forall it :: Count(it) == old(Count(it)) + Granted(grants, it)
    {
      for i := 0 to |grants|
        invariant Valid()
        invariant forall it :: Count(it) == old(Count(it)) + Granted(grants[..i], it)
      {
        assert grants[..i + 1][..i] == grants[..i];
        AddItem(grants[i].0, grants[i].1);
      }
      assert grants[..|grants|] == grants;
    }

    method AddItem(item: Item, amount: int)
      requires Valid()
      modifies this`items, this`counts, this`selectedItemIndex
      ensures Valid()
      ensures item in items
      ensures forall it :: Count(it) == old(Count(it)) + (if it == item then amount else 0)
      ensures |items| == old(|items|) + (if item in old(items) then 0 else 1)
      ensures old(|items|) != 0 ==> items[selectedItemIndex] == old(items[selectedItemIndex])
    {
      if |items| != 0 {
        var index := BisectLeft(items, item);
        if index < |items| && items[index] == item {
          AddToEntry(items, counts, selectedItemIndex, index, amount);
          counts := counts[index := counts[index] + amount];
        } else {
          AddAsEntry(items, counts, selectedItemIndex, index, item, amount);
          var sel := if index <= selectedItemIndex then selectedItemIndex + 1 else selectedItemIndex;
          items, counts, selectedItemIndex := items[..index] + [item] + items[index..], counts[..index] + [amount] + counts[index..], sel;
        }
      } else {
        AddToEmpty(item, amount);
        items := [item];
        counts := [amount];
      }
    }

    /** The inventory once one unit of the selected item is spent: only
        its count drops, by one; its entry goes when none is left and the
        selection then steps back one entry. */
    twostate predicate Spent()
      requires old(Valid() && |items| != 0)
      reads this
    {
      && Valid()
      && (var used := old(items[selectedItemIndex]);
          forall it :: Count(it) == old(Count(it)) - (if it == used then 1 else 0))
      && (old(counts[selectedItemIndex]) == 1 ==>
            && items == old(items[..selectedItemIndex] + items[selectedItemIndex + 1..])
            && counts == old(counts[..selectedItemIndex] + counts[selectedItemIndex + 1..])
            && selectedItemIndex == if old(selectedItemIndex) > 0 then old(selectedItemIndex) - 1 else 0)
      && (old(counts[selectedItemIndex]) != 1 ==>
            && items == old(items) && selectedItemIndex == old(selectedItemIndex)
            && counts == old(counts[selectedItemIndex := counts[selectedItemIndex] - 1]))
    }

    /** The inventory half of `use_item`, once the item reported it was
        used. */
    method SpendSelected()
      requires Valid() && |items| != 0
      modifies this`counts, this`items, this`selectedItemIndex
      ensures Spent()
    {
      var i := selectedItemIndex;
      var used := items[i];
      var spent := counts[i := counts[i] - 1];
      forall it ensures CountOf(items, spent, it) == CountOf(items, counts, it) - (if it == used then 1 else 0) {
        CountOfUpdate(items, counts, i, counts[i] - 1, it);
        CountAtEntry(items, counts, i);
      }
      if spent[i] == 0 {
        var items', spent' := items[..i] + items[i + 1..], spent[..i] + spent[i + 1..];
        RemoveKeepsSorted(items, i);
        forall it ensures CountOf(items', spent', it) == CountOf(items, spent, it) {
          CountOfRemove(items, spent, i, it);
        }
        items, counts := items', spent';
        if selectedItemIndex > 0 {
          selectedItemIndex := selectedItemIndex - 1;
        }
      } else {
        counts := spent;
      }
    }

    /** `switch_hud`: the next of the three heads-up displays. */
    method SwitchHud()
      requires Valid()
      modifies this`selectedHud
      ensures Valid()
      ensures selectedHud == (old(selectedHud) + 1) % TOTAL_HUDS
    {
      selectedHud := (selectedHud + 1) % TOTAL_HUDS;
    }
  }

  lemma ModuloNear(a: int, n: int, q: int, r: int)
    requires n > 0 && -1 <= q <= 1 && a == q * n + r && 0 <= r < n
    ensures a % n == r
  {
    if q == 0 {
      ModuloOf(a, n, 0, r);
    } else if q == 1 {
      ModuloOf(a, n, 1, r);
    } else {
      ModuloOf(a, n, -1, r);
    }
  }

  /** `ModuloNear` with the multiple of `n` spelled out linearly. */
  lemma ModuloOf(a: int, n: int, q: int, r: int)
    requires n > 0 && -1 <= q <= 1 && 0 <= r < n
    requires q == -1 ==> a == r - n
    requires q == 0 ==> a == r
    requires q == 1 ==> a == n + r
    ensures a % n == r
  {
    var q', r' := a / n, a % n;
    assert a == q' * n + r';
  }

  /** Stepping the selection back after stepping it on (and the other way
      round) returns to the same entry. */
  lemma SelectionStepsAreInverse(i: int, n: int)
    requires 0 <= i < n
    ensures ((i + 1) % n - 1) % n == i
    ensures ((i - 1) % n + 1) % n == i
  {
    ModuloNear(i, n, 0, i);
    if i + 1 < n {
      ModuloNear(i + 1, n, 0, i + 1);
    } else {
      ModuloNear(i + 1, n, 1, 0);
      ModuloNear(-1, n, -1, n - 1);
    }
    if i > 0 {
      ModuloNear(i - 1, n, 0, i - 1);
    } else {
      ModuloNear(i - 1, n, -1, n - 1);
      ModuloNear(n, n, 1, 0);
    }
  }

  /** Three switches show the same display again. */
  lemma HudCycle(h: int)
    requires 0 <= h < TOTAL_HUDS
    ensures (((h + 1) % TOTAL_HUDS + 1) % TOTAL_HUDS + 1) % TOTAL_HUDS == h
    ensures (h + 1) % TOTAL_HUDS != h
  {
  }

  class Game {
    var tilesMap: seq<string>
    var objects: Layers
    var events: map<Pos, Event>
    var ballsLeft: Counters
    var diamondsLeft: int
    var holdingArrows: Arrows
    /** The identity the next registered entity or mockup receives. */
    var nextId: nat
    /** The turns of the update passes so far, player and entities. */
    ghost var log: seq<Turn>
    const player: Player
    const scripts: Scripts
    const levelSteps: int

    /** The terrain at a cell of the bordered map. */
    function TileAt(x: int, y: int): char
      reads this`tilesMap
    {
      TileIn(tilesMap, x, y)
    }

    /** `tile_is_free`: nothing on the layer at the cell and the player not
        on it. */
    function TileIsFree(x: int, y: int, layer: nat): (free: bool)
      reads this`objects, player`x, player`y
      requires layer < 3
      ensures free ==> (x, y) !in objects[layer] && (player.x, player.y) != (x, y)
      ensures !free ==> (x, y) in objects[layer] || (player.x, player.y) == (x, y)
    {
      (x, y) !in objects[layer] && (player.x, player.y) != (x, y)
    }

    /** What a level script sees. */
    function Snapshot(): View
      reads this`tilesMap, this`objects, this`ballsLeft, this`diamondsLeft
      reads player`x, player`y, player`steps, player`dead, player`facing, player`motion
    {
      View(tilesMap, objects, ballsLeft, diamondsLeft,
        PlayerView(player.x, player.y, player.steps, player.dead, player.facing, player.motion.stepSize))
    }

    /** `Game.__init__` up to the game loop: the bordered map, empty layers
        and counters, then every entry of the level registered in order. */
    constructor (level: Level)
      requires exists i :: 0 <= i < |level.objects| && level.objects[i].NewPlayer?
      ensures player.Valid() && fresh(player)
      ensures scripts == level.scripts && levelSteps == level.steps && holdingArrows == NO_ARROWS
      ensures |tilesMap| == |level.tiles| + 2
      ensures tilesMap[0] == Repeat(WALL, level.width + 2) && tilesMap[|tilesMap| - 1] == Repeat(WALL, level.width + 2)
      ensures forall i :: 0 <= i < |level.tiles| ==> tilesMap[i + 1] == [WALL] + level.tiles[i] + [WALL]
      ensures forall c: Color :: ballsLeft[Index(c)] == UnseatedBalls(level.objects, tilesMap, c)
      ensures diamondsLeft == DiamondCount(level.objects)
      ensures nextId == EntityCount(level.objects)
      ensures log == []
    {
      var m := BuildTilesMap(level.width, level.tiles);
      tilesMap := m;
      objects := [map[], map[], map[]];
      events := map[];
      ballsLeft := [0, 0, 0];
      diamondsLeft := 0;
      holdingArrows := NO_ARROWS;
      nextId := 0;
      log := [];
      player := new Player(0, 0, 0);
      scripts := level.scripts;
      levelSteps := level.steps;
      new;
      RegisterAll(level.objects);
    }

    /** The registration loop of `Game.__init__`. */
    method RegisterAll(objs: seq<NewObject>)
      requires player.Valid()
      modifies this`objects, this`events, this`ballsLeft, this`diamondsLeft, this`nextId, player
      ensures player.Valid()
      ensures forall c: Color :: ballsLeft[Index(c)] == old(ballsLeft[Index(c)]) + UnseatedBalls(objs, tilesMap, c)
      ensures diamondsLeft == old(diamondsLeft) + DiamondCount(objs)
      ensures nextId == old(nextId) + EntityCount(objs)
    {
      for i := 0 to |objs|
        invariant player.Valid()
        invariant forall c: Color :: ballsLeft[Index(c)] == old(ballsLeft[Index(c)]) + UnseatedBalls(objs[..i], tilesMap, c)
        invariant diamondsLeft == old(diamondsLeft) + DiamondCount(objs[..i])
        invariant nextId == old(nextId) + EntityCount(objs[..i])
      {
        assert objs[..i + 1][..i] == objs[..i] && objs[..i + 1][i] == objs[i];
        RegisterObject(objs[i]);
      }
      assert objs[..|objs|] == objs;
    }

    /** `register_object`: a player entry re-initialises the player, an event
        goes to the registry at its cell, and an entity gets a fresh identity
        and goes onto its layer; a ball is seated when the cell lower-cased
        is its pad and counted as left otherwise, a diamond is counted. */
    method RegisterObject(o: NewObject)
      requires player.Valid()
      modifies this`objects, this`events, this`ballsLeft, this`diamondsLeft, this`nextId, player
      ensures player.Valid()
      ensures o.NewPlayer? ==>
        && player.x == o.x && player.y == o.y && player.motion == Still(PLAYER_SPEED) && player.steps == 0
        && !player.dead && player.facing == Down && player.items == [] && player.initScript == o.initScript
        && unchanged(this)
      ensures o.NewEventAt? ==>
        events == old(events)[(o.x, o.y) := o.event] && unchanged(player)
        && objects == old(objects) && ballsLeft == old(ballsLeft) && diamondsLeft == old(diamondsLeft) && nextId == old(nextId)
      ensures o.NewEntity? ==>
        var e := o.entity;
        var seated := e.Ball? && Pad(e.color) == Lower(TileAt(o.x, o.y));
        var stored := if seated then WithId(e, old(nextId)).(onPad := true) else WithId(e, old(nextId));
        && objects == old(objects)[LayerOf(e) := old(objects[LayerOf(e)])[(o.x, o.y) := stored]]
        && nextId == old(nextId) + 1
        && ballsLeft == (if e.Ball? && !seated then old(ballsLeft)[Index(e.color) := old(ballsLeft[Index(e.color)]) + 1] else old(ballsLeft))
        && diamondsLeft == old(diamondsLeft) + (if e.Diamond? then 1 else 0)
        && events == old(events) && unchanged(player)
      ensures forall c: Color :: ballsLeft[Index(c)] == old(ballsLeft[Index(c)]) + (if Unseated(o, tilesMap) && o.entity.color == c then 1 else 0)
      ensures diamondsLeft == old(diamondsLeft) + (if o.NewEntity? && o.entity.Diamond? then 1 else 0)
      ensures nextId == old(nextId) + (if o.NewEntity? then 1 else 0)
    {
      ColorIndicesCover();
      match o
      case NewPlayer(x, y, script) =>
        player.Reset(x, y, script);
      case NewEventAt(x, y, event) =>
        events := events[(x, y) := event];
      case NewEntity(x, y, e) =>
        Spawn((x, y), e);
    }

    /** The entity branch of `register_object`, also used for what appears
        during play (a fired cannonball, a released devil): the entity gets
        a fresh identity and goes onto its layer; a ball is seated when the
        cell lower-cased is its pad and counted as left otherwise, a diamond
        is counted. */
    method Spawn(p: Pos, e: Entity)
      modifies this`objects, this`ballsLeft, this`diamondsLeft, this`nextId
      ensures var seated := e.Ball? && Pad(e.color) == Lower(TileAt(p.0, p.1));
        var stored := if seated then WithId(e, old(nextId)).(onPad := true) else WithId(e, old(nextId));
        && objects == old(objects)[LayerOf(e) := old(objects[LayerOf(e)])[p := stored]]
        && nextId == old(nextId) + 1
        && ballsLeft == (if e.Ball? && !seated then old(ballsLeft)[Index(e.color) := old(ballsLeft[Index(e.color)]) + 1] else old(ballsLeft))
        && diamondsLeft == old(diamondsLeft) + (if e.Diamond? then 1 else 0)
    {
      var stored := WithId(e, nextId);
      if e.Ball? {
        if Pad(e.color) == Lower(TileAt(p.0, p.1)) {
          stored := stored.(onPad := true);
        } else {
          var i := Index(e.color);
          ballsLeft := ballsLeft[i := ballsLeft[i] + 1];
        }
      } else if e.Diamond? {
        diamondsLeft := diamondsLeft + 1;
      }
      var layer := LayerOf(e);
      objects := objects[layer := objects[layer][p := stored]];
      nextId := nextId + 1;
    }

    /** A new terrain character at a cell inside the map; every other cell
        keeps its terrain and the map keeps its shape. */
    method SetTile(x: int, y: int, c: char)
      modifies this`tilesMap
      ensures |tilesMap| == old(|tilesMap|) && forall j :: 0 <= j < |tilesMap| ==> |tilesMap[j]| == old(|tilesMap[j]|)
      ensures 0 <= y < |tilesMap| && 0 <= x < |tilesMap[y]| ==> TileAt(x, y) == c
      ensures forall i, j :: (i, j) != (x, y) ==> TileAt(i, j) == old(TileAt(i, j))
    {
      if 0 <= y < |tilesMap| && 0 <= x < |tilesMap[y]| {
        var row := tilesMap[y];
        var row' := row[..x] + [c] + row[x + 1..];
        assert forall i :: 0 <= i < |row| && i != x ==> row'[i] == row[i];
        tilesMap := tilesMap[y := row'];
      }
    }

    /** `reset_arrow_keys`: every arrow reads as released. */
    method ResetArrowKeys()
      modifies this`holdingArrows
      ensures holdingArrows == NO_ARROWS
    {
      holdingArrows := NO_ARROWS;
    }

    /** Makes the game show a view a level script returned. */
    method Restore(v: View)
      modifies this`tilesMap, this`objects, this`ballsLeft, this`diamondsLeft
      modifies player`x, player`y, player`steps, player`dead, player`facing, player`motion
      ensures Snapshot() == v
      ensures player.motion == old(player.motion).(stepSize := v.player.stepSize)
    {
      tilesMap, objects, ballsLeft, diamondsLeft := v.tiles, v.objects, v.ballsLeft, v.diamondsLeft;
      player.x, player.y, player.steps, player.dead, player.facing := v.player.x, v.player.y, v.player.steps, v.player.dead, v.player.facing;
      player.motion := player.motion.(stepSize := v.player.stepSize);
    }

    /** Writes an entity's new fields back to its layer, provided the same
        entity still sits at the cell (the Python object may have been
        removed from the layer in the meantime). */
    method Put(layer: nat, p: Pos, e: Entity)
      requires layer < 3
      modifies this`objects
      ensures objects == old(objects)[layer := PutBack(old(objects[layer]), p, e)]
    {
      if p in objects[layer] && objects[layer][p].id == e.id {
        objects := objects[layer := objects[layer][p := e]];
      }
    }

    /** Removes whatever is at a cell of a layer (a `pop` that is not
        allowed to fail). */
    method Remove(layer: nat, p: Pos)
      requires layer < 3
      modifies this`objects
      ensures objects == old(objects)[layer := old(objects[layer]) - {p}]
      ensures p !in objects[layer]
    {
      objects := objects[layer := objects[layer] - {p}];
    }
  }
}
