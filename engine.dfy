/** The logic half of `Game.game_loop` and the star result of
    `Game.__init__` (src/game.py): key presses, the player's direction
    choice, one frame's update pass, the terminal test, and the result a
    finished level reports. */
module Engine {
  import opened Optional
  import opened Directions
  import opened Const
  import opened Entities
  import opened World
  import opened Behaviour

  // Held arrows

  /** Whether the arrow for `d` is held. */
  function Held(a: Arrows, d: Direction): bool {
    match d
    case Up => a.up
    case Down => a.down
    case Left => a.left
    case Right => a.right
  }

  /** The order in which held arrows are considered. */
  function Priority(d: Direction): nat {
    match d
    case Up => 0
    case Down => 1
    case Left => 2
    case Right => 3
  }

  /** The arrow state with the arrow for `d` held or released. */
  function SetHeld(a: Arrows, d: Direction, held: bool): (r: Arrows)
    ensures Held(r, d) == held
    ensures forall other :: other != d ==> Held(r, other) == Held(a, other)
  {
    match d
    case Up => a.(up := held)
    case Down => a.(down := held)
    case Left => a.(left := held)
    case Right => a.(right := held)
  }

  /** The direction an idle player takes: the first held arrow of up,
      down, left, right, or none. */
  function ChooseDirection(a: Arrows): (r: Option<Direction>)
    ensures r.None? <==> forall d :: !Held(a, d)
    ensures r.Some? ==> Held(a, r.value) && forall d :: Held(a, d) ==> Priority(r.value) <= Priority(d)
  {
    if Held(a, Up) then Some(Up)
    else if Held(a, Down) then Some(Down)
    else if Held(a, Left) then Some(Left)
    else if Held(a, Right) then Some(Right)
    else None
  }

  /** No arrow is held after `reset_arrow_keys`, so an idle player does not
      move on. */
  lemma ResetStopsTheChoice()
    ensures ChooseDirection(NO_ARROWS) == None
    ensures forall d :: !Held(NO_ARROWS, d)
  {
  }

  // Key presses

  /** The keys the game reacts to: q or Escape, h, z, x, space, r, the four
      arrows, and any other key. */
  datatype Key = KeyQ | KeyH | KeyZ | KeyX | KeySpace | KeyR | KeyArrow(d: Direction) | KeyOther
  datatype KeyEvent = KeyDown(key: Key) | KeyUp(key: Key)

  /** How the loop ends: the three results of `game_loop` and the `None`
      it returns when the player quits. */
  datatype Action = Win | Lose | Retry | Quit

  /** The action a single key event ends the loop with. */
  function KeyStop(e: KeyEvent): Option<Action> {
    match e
    case KeyDown(KeyQ) => Some(Quit)
    case KeyDown(KeyR) => Some(Retry)
    case _ => None
  }

  /** The action the first ending key of a frame's events ends the loop
      with. */
  function StopKey(es: seq<KeyEvent>): (r: Option<Action>)
    ensures r.None? || r == Some(Quit) || r == Some(Retry)
  {
    if |es| == 0 then None
    else
      var earlier := StopKey(es[..|es| - 1]);
      if earlier.Some? then earlier else KeyStop(es[|es| - 1])
  }

  /** The held arrows after a frame's events: each arrow event presses or
      releases its arrow. */
  function ApplyArrows(a: Arrows, es: seq<KeyEvent>): Arrows {
    if |es| == 0 then a
    else
      var before := ApplyArrows(a, es[..|es| - 1]);
      match es[|es| - 1]
      case KeyDown(KeyArrow(d)) => SetHeld(before, d, true)
      case KeyUp(KeyArrow(d)) => SetHeld(before, d, false)
      case _ => before
  }

  /** The index of the last event on the arrow for `d`, if any. */
  function LastArrowEvent(es: seq<KeyEvent>, d: Direction): (r: Option<nat>)
    ensures r.Some? ==> r.value < |es| && es[r.value].key == KeyArrow(d)
    ensures r.Some? ==> forall j :: r.value < j < |es| ==> es[j].key != KeyArrow(d)
    ensures r.None? ==> forall j :: 0 <= j < |es| ==> es[j].key != KeyArrow(d)
  {
    if |es| == 0 then None
    else if es[|es| - 1].key == KeyArrow(d) then Some(|es| - 1)
    else LastArrowEvent(es[..|es| - 1], d)
  }

  /** An arrow is held after a frame's events exactly when its last event
      was a press, and keeps its state when it had none. */
  lemma {:induction false} ArrowsFollowLastEvent(a: Arrows, es: seq<KeyEvent>, d: Direction)
    ensures Held(ApplyArrows(a, es), d) == match LastArrowEvent(es, d)
      case None => Held(a, d)
      case Some(i) => es[i].KeyDown?
  {
    if |es| > 0 {
      var init := es[..|es| - 1];
      ArrowsFollowLastEvent(a, init, d);
      var last := es[|es| - 1];
      if last.key != KeyArrow(d) {
        assert LastArrowEvent(es, d) == LastArrowEvent(init, d);
        assert Held(ApplyArrows(a, es), d) == Held(ApplyArrows(a, init), d);
      }
    }
  }

  /** The first ending key decides: no ending key means no stop, otherwise
      the stop is that key's and every earlier event is not an ending
      one. */
  lemma {:induction false} StopKeyIsFirst(es: seq<KeyEvent>)
    ensures StopKey(es).None? <==> forall i :: 0 <= i < |es| ==> KeyStop(es[i]).None?
    ensures StopKey(es).Some? ==> exists i :: 0 <= i < |es| && KeyStop(es[i]) == StopKey(es) && forall j :: 0 <= j < i ==> KeyStop(es[j]).None?
  {
    if |es| > 0 {
      var init := es[..|es| - 1];
      StopKeyIsFirst(init);
      assert forall i :: 0 <= i < |init| ==> init[i] == es[i];
      if StopKey(init).Some? {
        var i :| 0 <= i < |init| && KeyStop(init[i]) == StopKey(init) && forall j :: 0 <= j < i ==> KeyStop(init[j]).None?;
        assert KeyStop(es[i]) == StopKey(es);
      } else if KeyStop(es[|es| - 1]).Some? {
        assert KeyStop(es[|es| - 1]) == StopKey(es);
      }
    }
  }

  /** Once a prefix holds an ending key, later events do not change the
      stop. */
  lemma {:induction false} StopKeyKeepsPrefix(es: seq<KeyEvent>, i: nat)
    requires i <= |es| && StopKey(es[..i]).Some?
    ensures StopKey(es) == StopKey(es[..i])
    decreases |es| - i
  {
    if i < |es| {
      assert es[..i + 1][..i] == es[..i];
      StopKeyKeepsPrefix(es, i + 1);
    } else {
      assert es[..i] == es;
    }
  }

  /** The heads-up display after the key event `ev`: h moves on to the
      next of the three. */
  function HudStep(h: int, ev: KeyEvent): int {
    if ev == KeyDown(KeyH) then (h + 1) % TOTAL_HUDS else h
  }

  /** The selected entry of an inventory of `n` entries after the key event
      `ev`: z moves one entry on and x one entry back, wrapping. */
  function SelectionStep(i: int, n: int, ev: KeyEvent): int {
    if n == 0 then i
    else if ev == KeyDown(KeyZ) then (i + 1) % n
    else if ev == KeyDown(KeyX) then (i - 1) % n
    else i
  }

  /** The heads-up display after a run of key events. */
  function HudAfter(h: int, es: seq<KeyEvent>): int {
    if |es| == 0 then h else HudStep(HudAfter(h, es[..|es| - 1]), es[|es| - 1])
  }

  /** The selected entry after a run of key events that leaves the
      inventory alone. */
  function SelectionAfter(i: int, n: int, es: seq<KeyEvent>): int {
    if |es| == 0 then i else SelectionStep(SelectionAfter(i, n, es[..|es| - 1]), n, es[|es| - 1])
  }

  /** The number of h presses among the events. */
  function HudPresses(es: seq<KeyEvent>): nat {
    if |es| == 0 then 0 else HudPresses(es[..|es| - 1]) + (if es[|es| - 1] == KeyDown(KeyH) then 1 else 0)
  }

  /** A run of events uses no item. */
  predicate NoSpace(es: seq<KeyEvent>) {
    forall i :: 0 <= i < |es| ==> es[i] != KeyDown(KeySpace)
  }

  /** The display a run of events ends on depends only on how many times h
      was pressed: it moves on by that many, modulo three. */
  lemma {:induction false} HudAfterCountsPresses(h: int, es: seq<KeyEvent>)
    requires 0 <= h < TOTAL_HUDS
    ensures HudAfter(h, es) == (h + HudPresses(es)) % TOTAL_HUDS
  {
    if |es| > 0 {
      var init := es[..|es| - 1];
      HudAfterCountsPresses(h, init);
    }
  }

  /** Pressing z and then x, in a run with no other selection key, leaves
      the selection where it was. */
  lemma SelectionBackAndForth(i: int, n: int)
    requires 0 <= i < n
    ensures SelectionAfter(i, n, [KeyDown(KeyZ), KeyDown(KeyX)]) == i
    ensures SelectionAfter(i, n, [KeyDown(KeyX), KeyDown(KeyZ)]) == i
  {
    var zx := [KeyDown(KeyZ), KeyDown(KeyX)];
    var xz := [KeyDown(KeyX), KeyDown(KeyZ)];
    assert zx[..1] == [KeyDown(KeyZ)] && xz[..1] == [KeyDown(KeyX)];
    assert [KeyDown(KeyZ)][..0] == [] && [KeyDown(KeyX)][..0] == [];
    assert SelectionAfter(i, n, [KeyDown(KeyZ)]) == (i + 1) % n;
    assert SelectionAfter(i, n, [KeyDown(KeyX)]) == (i - 1) % n;
    SelectionStepsAreInverse(i, n);
  }

  /** One key event of `game_loop`: q or Escape and r end the loop, h
      switches the display, z and x move the selection, space uses the
      selected item, and the arrows are pressed and released. */
  method HandleKey(g: Game, ev: KeyEvent) returns (stop: Option<Action>)
    requires g.player.Valid()
    modifies g`objects, g`nextId, g`ballsLeft, g`diamondsLeft, g`tilesMap, g`holdingArrows
    modifies g.player`dead, g.player`motion, g.player`items, g.player`counts, g.player`selectedItemIndex, g.player`selectedHud
    ensures g.player.Valid()
    ensures stop == KeyStop(ev)
    ensures g.player.selectedHud == HudStep(old(g.player.selectedHud), ev)
    ensures g.holdingArrows == ApplyArrows(old(g.holdingArrows), [ev])
    ensures ev == KeyDown(KeySpace) ==> ItemUsed(g)
    ensures ev != KeyDown(KeySpace) ==>
      && g.player.selectedItemIndex == SelectionStep(old(g.player.selectedItemIndex), |old(g.player.items)|, ev)
      && g.player.items == old(g.player.items) && g.player.counts == old(g.player.counts)
      && g.player.motion == old(g.player.motion) && g.player.dead == old(g.player.dead)
      && g.objects == old(g.objects) && g.nextId == old(g.nextId) && g.tilesMap == old(g.tilesMap)
      && g.ballsLeft == old(g.ballsLeft) && g.diamondsLeft == old(g.diamondsLeft)
  {
    assert [ev][..0] == [];
    stop := None;
    match ev {
      case KeyDown(k) =>
        match k {
          case KeyQ => stop := Some(Quit);
          case KeyH => g.player.SwitchHud();
          case KeyZ => g.player.SelectPreviousItem();
          case KeyX => g.player.SelectNextItem();
          case KeySpace => UseItem(g);
          case KeyR => stop := Some(Retry);
          case KeyArrow(d) => g.holdingArrows := SetHeld(g.holdingArrows, d, true);
          case KeyOther =>
        }
      case KeyUp(k) =>
        if k.KeyArrow? {
          g.holdingArrows := SetHeld(g.holdingArrows, k.d, false);
        }
    }
  }

  /** The event half of one pass of `game_loop`: each key event acts in
      order until one ends the loop. */
  method HandleEvents(g: Game, es: seq<KeyEvent>) returns (stop: Option<Action>)
    requires g.player.Valid()
    modifies g`objects, g`nextId, g`ballsLeft, g`diamondsLeft, g`tilesMap, g`holdingArrows
    modifies g.player`dead, g.player`motion, g.player`items, g.player`counts, g.player`selectedItemIndex, g.player`selectedHud
    ensures g.player.Valid()
    ensures stop == StopKey(es)
    ensures stop.None? ==> g.holdingArrows == ApplyArrows(old(g.holdingArrows), es)
    ensures stop.None? ==> g.player.selectedHud == HudAfter(old(g.player.selectedHud), es)
    ensures stop.None? && NoSpace(es) ==>
      && g.player.selectedItemIndex == SelectionAfter(old(g.player.selectedItemIndex), |old(g.player.items)|, es)
      && g.player.items == old(g.player.items) && g.player.counts == old(g.player.counts)
      && g.player.motion == old(g.player.motion) && g.player.dead == old(g.player.dead)
      && g.objects == old(g.objects) && g.nextId == old(g.nextId) && g.tilesMap == old(g.tilesMap)
      && g.ballsLeft == old(g.ballsLeft) && g.diamondsLeft == old(g.diamondsLeft)
  {
    var i := 0;
    while i < |es|
      invariant 0 <= i <= |es|
      invariant g.player.Valid()
      invariant StopKey(es[..i]).None?
      invariant g.holdingArrows == ApplyArrows(old(g.holdingArrows), es[..i])
      invariant g.player.selectedHud == HudAfter(old(g.player.selectedHud), es[..i])
      invariant NoSpace(es) ==>
        && g.player.selectedItemIndex == SelectionAfter(old(g.player.selectedItemIndex), |old(g.player.items)|, es[..i])
        && g.player.items == old(g.player.items) && g.player.counts == old(g.player.counts)
        && g.player.motion == old(g.player.motion) && g.player.dead == old(g.player.dead)
        && g.objects == old(g.objects) && g.nextId == old(g.nextId) && g.tilesMap == old(g.tilesMap)
        && g.ballsLeft == old(g.ballsLeft) && g.diamondsLeft == old(g.diamondsLeft)
    {
      assert es[..i + 1][..i] == es[..i];
      var ev := es[i];
      stop := HandleKey(g, ev);
      ArrowsAppend(old(g.holdingArrows), es[..i], ev);
      if stop.Some? {
        StopKeyKeepsPrefix(es, i + 1);
        return;
      }
      i := i + 1;
    }
    assert es[..|es|] == es;
    return None;
  }

  /** Applying the arrows of one more event is applying them to the longer
      run. */
  lemma ArrowsAppend(a: Arrows, es: seq<KeyEvent>, ev: KeyEvent)
    ensures ApplyArrows(ApplyArrows(a, es), [ev]) == ApplyArrows(a, es + [ev])
  {
    assert [ev][..0] == [];
    assert (es + [ev])[..|es|] == es;
  }

  // The update pass

  /** The entities of a layer as (cell, identity) pairs, each cell once, in
      an order the model leaves open. */
  method Visits(m: map<Pos, Entity>) returns (vs: seq<(Pos, nat)>)
    ensures forall v :: v in vs <==> v.0 in m && v.1 == m[v.0].id
    ensures forall i, j :: 0 <= i < j < |vs| ==> vs[i].0 != vs[j].0
  {
    var rest := m.Keys;
    vs := [];
    while rest != {}
      invariant rest <= m.Keys
      invariant forall v :: v in vs <==> v.0 in m.Keys - rest && v.1 == m[v.0].id
      invariant forall i, j :: 0 <= i < j < |vs| ==> vs[i].0 != vs[j].0
      decreases |rest|
    {
      var p :| p in rest;
      vs := vs + [(p, m[p].id)];
      rest := rest - {p};
    }
  }

  /** One entry of a layer's pass: the entity registered at `p` with
      identity `id` when the pass began takes its turn, recorded in the log,
      if an earlier turn of the pass has not removed it. */
  method TakeTurn(g: Game, layer: nat, p: Pos, id: nat)
    requires layer < 3
    modifies g`objects, g`nextId, g`ballsLeft, g`diamondsLeft, g`tilesMap, g.player`dead, g`log
    ensures var present := old(p in g.objects[layer] && g.objects[layer][p].id == id);
      && g.log == old(g.log) + [EntityTurn(layer, p, id, present)]
      && (present ==> Updated(g, layer, p))
      && (!present ==> Idle(g))
  {
    var present := p in g.objects[layer] && g.objects[layer][p].id == id;
    g.log := g.log + [EntityTurn(layer, p, id, present)];
    if present {
      UpdateEntity(g, layer, p);
    }
  }

  /** The log `after` extends `before` by one turn for each entry of
      `order`, in that order, all on `layer`. */
  ghost predicate PassOver(before: seq<Turn>, after: seq<Turn>, layer: nat, order: seq<(Pos, nat)>) {
    && |after| == |before| + |order| && after[..|before|] == before
    && forall k :: 0 <= k < |order| ==> TurnOf(after[|before| + k], layer, order[k])
  }

  /** `t` is the turn on `layer` of the entity `v` (its cell and identity). */
  ghost predicate TurnOf(t: Turn, layer: nat, v: (Pos, nat)) {
    t.EntityTurn? && t.layer == layer && t.at == v.0 && t.id == v.1
  }

  /** The `k`-th turn of a pass. */
  lemma PassOverAt(before: seq<Turn>, after: seq<Turn>, layer: nat, order: seq<(Pos, nat)>, k: nat)
    requires PassOver(before, after, layer, order) && k < |order|
    ensures after[|before| + k].EntityTurn? && after[|before| + k].layer == layer
  {
    // Mentioning `order[k]` fires the quantifier of `PassOver` at `k`.
    assert order[k] == order[k];
  }

  /** One more turn on the layer extends a pass by that turn. */
  lemma {:induction false} PassOverExtends(before: seq<Turn>, mid: seq<Turn>, layer: nat, order: seq<(Pos, nat)>, t: Turn)
    requires PassOver(before, mid, layer, order) && t.EntityTurn? && t.layer == layer
    ensures PassOver(before, mid + [t], layer, order + [(t.at, t.id)])
  {
    var after, order' := mid + [t], order + [(t.at, t.id)];
    assert after[..|before|] == mid[..|before|];
    forall k | 0 <= k < |order'|
      ensures TurnOf(after[|before| + k], layer, order'[k])
    {
      if k < |order| {
        assert after[|before| + k] == mid[|before| + k] && order'[k] == order[k];
      } else {
        assert after[|before| + k] == t && order'[k] == (t.at, t.id);
      }
    }
  }

  /** `for obj in list(layer.values()): obj.update(game)`: the layer's
      entities when the pass starts, each cell once, take their turns in
      one order (`order`, which the model leaves open), each updated unless
      an earlier turn of the pass removed it. */
  method UpdateLayer(g: Game, layer: nat) returns (ghost order: seq<(Pos, nat)>)
    requires layer < 3
    modifies g`objects, g`nextId, g`ballsLeft, g`diamondsLeft, g`tilesMap, g.player`dead, g`log
    ensures forall v :: v in order <==> v.0 in old(g.objects[layer]) && v.1 == old(g.objects[layer][v.0].id)
    ensures forall i, j :: 0 <= i < j < |order| ==> order[i].0 != order[j].0
    ensures PassOver(old(g.log), g.log, layer, order)
  {
    var vs := Visits(g.objects[layer]);
    order := vs;
    for i := 0 to |vs|
      invariant PassOver(old(g.log), g.log, layer, vs[..i])
    {
      var (p, id) := vs[i];
      ghost var mid := g.log;
      TakeTurn(g, layer, p, id);
      PassOverExtends(old(g.log), mid, layer, vs[..i], g.log[|mid|]);
      assert vs[..i + 1] == vs[..i] + [(p, id)];
    }
    assert vs[..|vs|] == vs;
  }

  /** The entity `e` after the render phase's alert bookkeeping: a portal's
      alert counter moves on, every other kind is untouched. */
  function Ticked(e: Entity): (r: Entity)
    ensures r.id == e.id && r.Portal? == e.Portal?
    ensures !e.Portal? ==> r == e
    ensures e.Portal? ==> r == e.(displayAlert := AlertTick(e.displayAlert))
  {
    if e.Portal? then e.(displayAlert := AlertTick(e.displayAlert)) else e
  }

  /** The alert bookkeeping `render_objects` does, portal by portal: every
      portal on the default layer has its alert counter moved on once, and
      nothing else changes. */
  method RenderAlerts(g: Game)
    modifies g`objects
    ensures g.objects == old(g.objects)[DEFAULT_LAYER := map p | p in old(g.objects[DEFAULT_LAYER]) :: Ticked(old(g.objects[DEFAULT_LAYER][p]))]
  {
    ghost var start := g.objects[DEFAULT_LAYER];
    var rest := g.objects[DEFAULT_LAYER].Keys;
    assert (map p | p in start :: (var e := start[p]; if p in rest then e else Ticked(e))) == start;
    while rest != {}
      invariant rest <= start.Keys
      invariant g.objects == old(g.objects)[DEFAULT_LAYER := map p | p in start :: (var e := start[p]; if p in rest then e else Ticked(e))]
      decreases |rest|
    {
      var p :| p in rest;
      ghost var m := g.objects[DEFAULT_LAYER];
      if g.objects[DEFAULT_LAYER][p].Portal? {
        PortalRenderAlert(g, p);
      } else {
        assert m[p := Ticked(start[p])] == m;
      }
      rest := rest - {p};
      assert m[p := Ticked(start[p])] == map q | q in start :: (var e := start[q]; if q in rest then e else Ticked(e));
    }
    assert (map q | q in start :: (var e := start[q]; if q in rest then e else Ticked(e))) == map q | q in start :: Ticked(start[q]);
  }

  /** The start of the player's half of a pass of `game_loop`: an idle
      player runs `before_step` towards the arrow `ChooseDirection` picks,
      if one is held; `chosen` is that direction. Otherwise nothing
      changes. */
  method PlayerCommits(g: Game) returns (ghost chosen: Option<Direction>)
    modifies g`tilesMap, g`objects, g`ballsLeft, g`diamondsLeft, g`events, g`holdingArrows, g`nextId
    modifies g.player`x, g.player`y, g.player`steps, g.player`dead, g.player`facing, g.player`motion
    ensures chosen == if old(g.player.motion.inMove.None?) then ChooseDirection(old(g.holdingArrows)) else None
    ensures chosen.Some? ==> PlayerSetOff(g, chosen.value)
    ensures chosen.None? ==> unchanged(g, g.player)
  {
    chosen := None;
    if g.player.motion.inMove.None? {
      var d := ChooseDirection(g.holdingArrows);
      if d.Some? {
        chosen := d;
        PlayerBeforeStep(g, d.value);
      }
    }
  }

  /** The rest of the player's half of a pass: the player's update runs,
      and the turn is logged. */
  method PlayerTakesTurn(g: Game)
    modifies g`tilesMap, g`objects, g`ballsLeft, g`diamondsLeft, g`events, g`log
    modifies g.player`x, g.player`y, g.player`steps, g.player`dead, g.player`facing, g.player`motion
    ensures g.log == old(g.log) + [PlayerTurn]
    ensures PlayerMoved(g)
  {
    PlayerUpdate(g);
    g.log := g.log + [PlayerTurn];
  }

  /** The turns of a pass of `game_loop`: the player's first, then the
      passes over layer 0, 1 and 2. */
  method Turns(g: Game) returns (ghost passes: seq<seq<(Pos, nat)>>)
    modifies g`tilesMap, g`objects, g`ballsLeft, g`diamondsLeft, g`events, g`holdingArrows, g`nextId, g`log
    modifies g.player`x, g.player`y, g.player`steps, g.player`dead, g.player`facing, g.player`motion
    ensures |passes| == 3 && FrameLogged(old(g.log), g.log, passes)
  {
    ghost var before := g.log;
    ghost var chosen := PlayerCommits(g);
    PlayerTakesTurn(g);
    ghost var l0 := g.log;
    ghost var o0 := UpdateLayer(g, 0);
    ghost var l1 := g.log;
    ghost var o1 := UpdateLayer(g, 1);
    ghost var l2 := g.log;
    ghost var o2 := UpdateLayer(g, 2);
    passes := [o0, o1, o2];
    FrameLogChains(before, l0, l1, l2, g.log, o0, o1, o2);
  }

  /** The log `after` extends `before` by one frame's turns: the player's
      first, then a pass over layer 0, 1 and 2, in that order. */
  ghost predicate FrameLogged(before: seq<Turn>, after: seq<Turn>, passes: seq<seq<(Pos, nat)>>)
    requires |passes| == 3
  {
    var s0 := |before| + 1;
    var s1 := s0 + |passes[0]|;
    var s2 := s1 + |passes[1]|;
    && s2 + |passes[2]| == |after| && after[..|before|] == before && after[|before|] == PlayerTurn
    && PassOver(after[..s0], after[..s1], 0, passes[0])
    && PassOver(after[..s1], after[..s2], 1, passes[1])
    && PassOver(after[..s2], after, 2, passes[2])
  }

  /** One pass of `game_loop`: the key events; an idle player's commit to
      the chosen arrow; the player's update, then every entity of layers 0,
      1 and 2 (`passes` are the three orders); the terminal test, win before
      lose; the render-time alert bookkeeping. */
  method Frame(g: Game, es: seq<KeyEvent>) returns (action: Option<Action>, ghost passes: seq<seq<(Pos, nat)>>)
    requires g.player.Valid()
    modifies g, g.player
    ensures g.player.Valid()
    ensures StopKey(es).Some? ==> action == StopKey(es) && g.log == old(g.log)
    ensures StopKey(es).None? ==> action != Some(Quit) && action != Some(Retry)
    ensures StopKey(es).None? ==> |passes| == 3 && FrameLogged(old(g.log), g.log, passes)
    ensures action == Some(Win) ==> g.ballsLeft == [0, 0, 0]
    ensures action == Some(Lose) ==> g.player.dead && g.ballsLeft != [0, 0, 0]
    ensures action.None? ==> !g.player.dead && g.ballsLeft != [0, 0, 0]
  {
    passes := [];
    action := HandleEvents(g, es);
    if action.Some? {
      return;
    }
    passes := Turns(g);
    if g.ballsLeft == [0, 0, 0] {
      return Some(Win), passes;
    }
    if g.player.dead {
      return Some(Lose), passes;
    }
    RenderAlerts(g);
  }

  /** The player's turn followed by three passes is a frame's log. */
  lemma FrameLogChains(before: seq<Turn>, l0: seq<Turn>, l1: seq<Turn>, l2: seq<Turn>, l3: seq<Turn>,
                       o0: seq<(Pos, nat)>, o1: seq<(Pos, nat)>, o2: seq<(Pos, nat)>)
    requires l0 == before + [PlayerTurn]
    requires PassOver(l0, l1, 0, o0) && PassOver(l1, l2, 1, o1) && PassOver(l2, l3, 2, o2)
    ensures FrameLogged(before, l3, [o0, o1, o2])
  {
    assert l3[..|l1|] == l1 by {
      assert l3[..|l1|] == l3[..|l2|][..|l1|];
    }
    assert l3[..|l0|] == l0 by {
      assert l3[..|l0|] == l3[..|l1|][..|l0|];
    }
    assert l3[..|before|] == before && l3[|before|] == PlayerTurn by {
      assert l3[..|before|] == l3[..|l0|][..|before|];
      assert l3[|before|] == l3[..|l0|][|before|];
    }
  }

  /** In a frame's log the player's turn comes before every entity's, and
      the entities' turns run layer 0 first, then 1, then 2. */
  lemma FrameOrder(before: seq<Turn>, after: seq<Turn>, passes: seq<seq<(Pos, nat)>>)
    requires |passes| == 3 && FrameLogged(before, after, passes)
    ensures |after| > |before| && after[|before|] == PlayerTurn
    ensures forall i :: |before| < i < |after| ==> after[i].EntityTurn? && after[i].layer < 3
    ensures forall i, j :: |before| < i < j < |after| ==> after[i].layer <= after[j].layer
  {
    var s0 := |before| + 1;
    var s1 := s0 + |passes[0]|;
    var s2 := s1 + |passes[1]|;
    forall i | |before| < i < |after|
      ensures after[i].EntityTurn?
      ensures i < s1 ==> after[i].layer == 0
      ensures s1 <= i < s2 ==> after[i].layer == 1
      ensures s2 <= i ==> after[i].layer == 2
    {
      if i < s1 {
        PassOverAt(after[..s0], after[..s1], 0, passes[0], i - s0);
      } else if i < s2 {
        PassOverAt(after[..s1], after[..s2], 1, passes[1], i - s1);
      } else {
        PassOverAt(after[..s2], after, 2, passes[2], i - s2);
      }
    }
  }

  /** `self.player.init_function(self)`: the init function's effect on the
      game, then its items handed to the inventory. */
  method StartLevel(g: Game)
    requires g.player.Valid()
    modifies g`tilesMap, g`objects, g`ballsLeft, g`diamondsLeft
    modifies g.player`x, g.player`y, g.player`steps, g.player`dead, g.player`facing, g.player`motion
    modifies g.player`items, g.player`counts, g.player`selectedItemIndex
    ensures g.player.Valid()
    ensures g.Snapshot() == g.scripts.playerInit(g.player.initScript, old(g.Snapshot()))
    ensures forall it :: g.player.Count(it) == old(g.player.Count(it)) + Granted(g.scripts.playerItems(g.player.initScript, old(g.Snapshot())), it)
  {
    var v := g.Snapshot();
    g.Restore(g.scripts.playerInit(g.player.initScript, v));
    g.player.AddItems(g.scripts.playerItems(g.player.initScript, v));
  }

  /** `game_loop` over a finite run of frames: the player's
      `init_function` first, then frame after frame until one ends the
      loop; `None` when the frames run out first. */
  method GameLoop(g: Game, frames: seq<seq<KeyEvent>>) returns (action: Option<Action>)
    requires g.player.Valid()
    modifies g, g.player
    ensures g.player.Valid()
    ensures action == Some(Win) ==> g.ballsLeft == [0, 0, 0]
    ensures action == Some(Lose) ==> g.player.dead
  {
    StartLevel(g);
    for i := 0 to |frames|
      invariant g.player.Valid()
    {
      ghost var passes;
      action, passes := Frame(g, frames[i]);
      if action.Some? {
        return;
      }
    }
    return None;
  }

  // The result

  const STAR := "*"
  const NO_STAR := "_"
  const LEVEL_NOT_FOUND := ["level not found"]

  /** A win's three slots: the win itself, the diamond star and the step
      star. */
  predicate Won(r: seq<string>) {
    |r| == 3 && r[0] == STAR && r[1] in {STAR, NO_STAR} && r[2] in {STAR, NO_STAR}
  }

  /** What a level that was found can report. */
  predicate Outcome(r: seq<string>) {
    Won(r) || r == ["retry"] || r == ["lose"] || r == [NO_STAR, NO_STAR, NO_STAR]
  }

  /** A level that places the player, as every level must. */
  predicate Playable(level: Level) {
    exists i :: 0 <= i < |level.objects| && level.objects[i].NewPlayer?
  }

  /** `win_stars` once the loop has ended: a win earns the first star, the
      second for no diamond left, the third for finishing within the
      level's steps; a retry or a loss is reported as such; quitting earns
      nothing. */
  function Stars(action: Action, diamondsLeft: int, steps: int, levelSteps: int): (r: seq<string>)
    ensures action == Win ==>
      && |r| == 3 && r[0] == STAR
      && (r[1] == STAR <==> diamondsLeft == 0) && (r[2] == STAR <==> steps <= levelSteps)
      && r[1] in {STAR, NO_STAR} && r[2] in {STAR, NO_STAR}
    ensures action == Retry ==> r == ["retry"]
    ensures action == Lose ==> r == ["lose"]
    ensures action == Quit ==> r == [NO_STAR, NO_STAR, NO_STAR]
    ensures r != LEVEL_NOT_FOUND && |r| > 0
    ensures r[0] == STAR <==> action == Win
    ensures Outcome(r)
  {
    match action
    case Win => [STAR, if diamondsLeft == 0 then STAR else NO_STAR, if steps <= levelSteps then STAR else NO_STAR]
    case Retry => ["retry"]
    case Lose => ["lose"]
    case Quit => [NO_STAR, NO_STAR, NO_STAR]
  }

  /** `Game(level_number).win_stars`: a missing level reports so at once;
      otherwise the level is loaded and played. `None` when the frames run
      out before the loop ends. */
  method Play(level: Option<Level>, frames: seq<seq<KeyEvent>>) returns (result: Option<seq<string>>)
    requires level.Some? ==> Playable(level.value)
    ensures level.None? <==> result == Some(LEVEL_NOT_FOUND)
    ensures result.Some? && level.Some? ==> Outcome(result.value)
  {
    if level.None? {
      return Some(LEVEL_NOT_FOUND);
    }
    var g := new Game(level.value);
    var action := GameLoop(g, frames);
    if action.None? {
      return None;
    }
    return Some(Stars(action.value, g.diamondsLeft, g.player.steps, g.levelSteps));
  }
}
