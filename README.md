# RGBalls — a verified model of the game core

RGBalls is a tile puzzle. The player walks a bordered map and pushes coloured
balls. A ball rolls until something stops it, and the goal is to seat every
ball on a pad of its own colour. Along the way there are:

- diamonds (for the second star);
- boxes, which sink in water;
- lily plants, which bridge water;
- a gun and speed pills;
- portals, envelopes, doors opened by level scripts, and event cells;
- hostile cannons, cannonballs, little devils, ghosts and the hell entrances
  that spawn devils.

Every moving thing reserves the cell it is heading for with an invisible
placeholder: the "mockup".

This project models that core in Dafny:

- the direction algebra;
- the constants;
- the item kinds and their order;
- the sorted inventory;
- every entity's rules;
- the level state (`Game`) and its frame loop;
- the star result of a level;
- the level-progress bookkeeping of the menu.

## How the model is organised

- **Directions**: the four directions, their turns, and one step on the grid.
- **Const**: the screen constants, the colour indices, the constant-function
  wrapper and the render window.
- **Items**: the item kinds and their order, which follows their display
  names.
- **Inventory**: the two parallel lists (items sorted by name, counts) and
  the insertion point `add_item` finds.
- **Entities**: each kind of game object as a datatype value, plus three
  more things:
  - the sub-tile motion of a mover;
  - the constructors' initial values;
  - the pure decisions the rules take: countdowns, animation, the devil's
    chase order and the ghost's heading.
- **World**:
  - the `Player` class, with its inventory, speed, HUD and death flag;
  - the `Game` class: the bordered terrain, three layers of entities keyed by
    cell, the event registry, the per-colour count of unseated balls, the
    diamond count and the held arrows;
  - object registration.
- **Behaviour**: the before-step, after-step, touch, hit and update rules of
  every entity and item, as methods on a `Game`.
- **Engine**:
  - key handling;
  - the player's direction choice;
  - one frame of `game_loop`: events, the player's update, then layers 0, 1
    and 2, the alert counters, and the win/lose test;
  - the loop over a finite stream of frames;
  - the stars a finished level reports.
- **Menu**: `GameMenu`. It covers:
  - the saved results and the unlocked and selected levels;
  - the selection keys;
  - how a level's result is stored and which level becomes playable;
  - the play/replay/next loop after Enter.

Level scripts (event effects, door conditions, cannon timing, the player's
init function) are supplied by the level as Python callables. Here they are
the fields of a `Scripts` value the level carries. Each entity holds a number
that selects its callable.

## Model

| member | source | states |
|---|---|---|
| Directions.Parse | src/directions.py:1-6 | a string is accepted exactly when it names a direction, and it parses to the direction of that name |
| Directions.ParseName | src/directions.py:1-6 | every direction's name parses back to that direction |
| Directions.ParseAcceptsExactlyFour | src/directions.py:1-6 | the accepted strings are exactly "left", "right", "up" and "down" |
| Directions.Opposite | src/directions.py:9-15 | the opposite direction differs from the given one and lies on the same axis |
| Directions.OppositeInvolution | src/directions.py:9-15 | taking the opposite twice gives back the direction |
| Directions.TurnLeft | src/directions.py:18-24 | turning left changes the axis |
| Directions.TurnRight | src/directions.py:27-33 | turning right changes the axis |
| Directions.TurnsAreInverse | src/directions.py:18-33 | left and right turns undo each other |
| Directions.TurnLeftCycle | src/directions.py:9-24 | two left turns give the opposite direction; four left turns give the direction back |
| Directions.PositionAfterMoving | src/directions.py:36-48 | a horizontal move changes only x, by one; a vertical move changes only y, by one |
| Directions.StepIsNeighbour | src/directions.py:36-48 | a step lands at Manhattan distance 1, and different directions land on different cells |
| Directions.StepBack | src/directions.py:9-48 | a step followed by a step in the opposite direction returns to the start |
| Directions.WalkOffset | src/directions.py:36-48 | n steps in one direction move the cell by n along that direction's axis |
| Const.ColorToIndex | src/const.py:41-54 | a colour index, when there is one, is below 3 |
| Const.Index | src/const.py:41-52 | every colour's name maps to that colour's index |
| Const.ParseColor | src/const.py:41-54 | a colour is recognised exactly when color_to_index accepts its name, and it has that name |
| Const.ColorIndicesCover | src/const.py:41-52 | red, green and blue map to 0, 1 and 2; the indices are distinct and cover {0, 1, 2} |
| Const.ColorToIndexRejects | src/const.py:41-54 | color_to_index accepts exactly "red", "green" and "blue"; any other string is the error exit |
| Const.Lwr | src/const.py:34-38 | the wrapped function gives the wrapped value on every argument |
| Const.RenderedTiles | src/const.py:57-63 | every tile of the 20 by 15 screen around the player lies in the render range |
| Items.LessIsNameOrder | src/items.py:39-40 | item order is the string order of the display names "Gun" < "Lily Plant" < "Speed Pill" |
| Items.Name | src/items.py:43-79 | each kind has its own display name: "Gun", "Speed Pill" and "Lily Plant" |
| Items.Less | src/items.py:39-40 | an item is never before itself; nothing comes before the gun and the gun comes before every other kind; the speed pill comes before nothing and every other kind comes before it |
| Items.NameOrderIsStrictTotal | src/items.py:39-40 | Python's `<` on the display names is irreflexive, total on different kinds and transitive |
| Inventory.BisectLeft | src/objects.py:381-383 | the insertion point splits a sorted item list into items before the new one and items not before it |
| Inventory.AddToEntry | src/objects.py:383-385 | adding to an existing entry keeps the inventory well formed and raises only that item's count by the amount |
| Inventory.AddAsEntry | src/objects.py:383-391 | inserting a new item at the insertion point keeps the lists sorted and parallel, gives it the amount, and keeps the selected item selected |
| Inventory.AddToEmpty | src/objects.py:392-393 | the first item added is the only entry, with the amount |
| Inventory.InsertKeepsSorted | src/objects.py:386-388 | insertion at the split point keeps the item list strictly sorted |
| Inventory.RemoveKeepsSorted | src/objects.py:375-378 | popping an entry keeps the item list strictly sorted |
| Entities.Pad | src/objects.py:185-196 | a colour's pad is the first letter of its name and is terrain |
| Entities.MagneticPad | src/objects.py:198-234 | a colour's magnetic pad is terrain and differs from its plain pad |
| Entities.Lower | src/game.py:63-65 | lower-casing keeps a terrain letter in the terrain alphabet |
| Entities.LowerSeatsOwnPadsOnly | src/game.py:63-67 | a ball is loaded as seated exactly on its own pad or its own magnetic pad |
| Entities.Advance | src/objects.py:137-174 | one update moves the offset by one step towards the committed direction; reaching a tile is an arrival and zeroes the offset; the other axis and an idle mover are unchanged |
| Entities.GlideFromRest | src/objects.py:118-174 | starting from rest, a mover arrives within n updates exactly when n steps cover a tile, and until then its offset is the distance covered |
| Entities.TravelIsProduct | src/objects.py:137-174 | n updates of a fixed step cover n times the step |
| Entities.TilesCrossingTimes | src/objects.py:118-128 | a ball crosses a tile in 4 updates, the player in 8 and a box in 12 |
| Entities.LayerOf | src/objects.py:733-773 | every kind lives on layer 0, 1 or 2 |
| Entities.NewBall | src/objects.py:185-196 | a ball is built exactly for a recognised colour; it has that colour, is not seated and is at rest with the ball speed |
| Entities.NewBox | src/objects.py:243-246 | a new box is a floating mover at rest on the default layer with the box speed |
| Entities.NewDiamond | src/objects.py:460-469 | a new diamond stays put on the default layer, its animation at the start |
| Entities.NewEnvelope | src/objects.py:486-489 | a new envelope stays put on the default layer and carries its message |
| Entities.NewPortal | src/objects.py:518-531 | a new portal stays put on the default layer, leads to its destination, its animation at the start and no alert showing |
| Entities.NewCannonball | src/objects.py:568-571 | a new cannonball on the default layer is already committed to its direction, with zero offsets and its speed |
| Entities.NewCannon | src/objects.py:618-626 | a cannon is built exactly for a valid direction name; it faces that direction, is on the default layer, has fired no shot, and waits the level's delay for shot 0 first |
| Entities.NewDoor | src/objects.py:650-655 | a new door stays put on the default layer, with the level's script and each condition present or absent as given |
| Entities.NewLittleDevil | src/objects.py:667-671 | a new devil is a mover at rest on the default layer with the given health and speed and no reservation |
| Entities.NewGhost | src/objects.py:733-739 | a ghost's path starts at its own cell and it targets waypoint 0 |
| Entities.NewHellEntrance | src/objects.py:766-773 | a new entrance stays put on layer 0 with the given frequency, speed and health, its counter at 0 |
| Entities.Countdown | src/objects.py:102-108 | a counter is removed exactly when it falls from 1, and otherwise decreases by one |
| Entities.CountdownLasts | src/objects.py:18-22 | a counter starting at n >= 1 removes its owner on exactly the n-th decrement; one starting at 0 or below never does |
| Entities.MockupLifetime | src/objects.py:95-108 | a reservation left alone is removed on exactly its 150th update |
| Entities.DefaultEventFiresOnce | src/objects.py:12-22 | an event made with the default count fires once and is then gone |
| Entities.DrownTick | src/objects.py:274-282 | a drowning box is removed exactly when its counter reaches 36 |
| Entities.DrowningTakes | src/objects.py:274-282 | a box that started drowning at d is removed on exactly its (36 - d)-th further update |
| Entities.DevilHit | src/objects.py:722-729 | a hit lowers positive health by one and removes the devil only when its health was 1; health 0 or below is unchanged |
| Entities.DevilHitsToRemove | src/objects.py:722-729 | a devil with health h > 0 is removed on exactly the h-th hit; one with health 0 or below never is |
| Entities.Animate | src/objects.py:475-483 | the animation time counts up to its maximum and wraps, and the sprite advances, also wrapping, exactly when the time wraps |
| Entities.AlertTick | src/objects.py:555-560 | the portal alert stays within 0..60, climbs by one while raised, and falls back to 0 after 60 |
| Entities.AlertRuns | src/objects.py:555-560 | a raised alert climbs by one per render pass and is cleared on the pass after 60 |
| Entities.ChaseOrder | src/objects.py:685-713 | the devil tries the axis with the larger distance to the player first, x on a tie |
| Entities.ChaseApproaches | src/objects.py:685-713 | each direction the devil tries brings it one step closer to the player; it tries none exactly on the player's cell; its two tries are on different axes |
| Entities.GhostHeading | src/objects.py:741-752 | the ghost heads vertically when the rows differ, and horizontally otherwise |
| Entities.GhostReachesAlignedWaypoint | src/objects.py:741-762 | an aligned waypoint is reached by following the heading for exactly the distance, and not before |
| Entities.NextWaypoint | src/objects.py:754-762 | the next waypoint index is within the path |
| Entities.WaypointCycle | src/objects.py:754-762 | going round the path visits the following waypoints in order and then wraps to waypoint 0 |
| Entities.Cycle | src/objects.py:754-762 | every waypoint index reached is within the path |
| World.Repeat | src/game.py:18-23 | the border row has the requested length and consists of walls only |
| World.BuildTilesMap | src/game.py:18-23 | the map has a wall row above and below the level, and each level row is framed by a wall on both sides |
| World.BorderedMap | src/game.py:18-23 | a cell of the bordered map is the level's tile inside the frame and a wall everywhere else |
| World.Player.constructor | src/objects.py:286-310 | a new player is at its cell, at rest with the player speed, alive, facing down, with an empty inventory and HUD 1 |
| World.Player.Reset | src/objects.py:286-310 | re-placing the player restores every constructor value |
| World.Player.ModifySpeed | src/objects.py:130-135 | the step size grows by TILE_SIZE * delta / CLOCK_TICK, and nothing else changes |
| World.Player.OnHit | src/objects.py:333-334 | a hit player is dead |
| World.Player.SelectPreviousItem | src/objects.py:362-364 | with items, the selection moves to (i + 1) mod n; with none, it stays |
| World.Player.SelectNextItem | src/objects.py:366-368 | with items, the selection moves to (i - 1) mod n with Python's floored modulo; with none, it stays |
| World.SelectionStepsAreInverse | src/objects.py:362-368 | the two selection moves undo each other |
| World.Player.AddItem | src/objects.py:381-393 | adding raises exactly this item's count by the amount, adds an entry only for a new item, keeps the inventory well formed, and keeps the selected item selected |
| World.Player.AddItems | src/objects.py:381-392 | each grant in turn through `add_item`: every kind's count rises by exactly the total amount granted of it, and the inventory stays well formed |
| World.Player.SpendSelected | src/objects.py:373-379 | `Spent`: only the selected item's count drops, by one; an item used up loses its entry in both lists and the selection steps back unless it was at 0; otherwise the lists keep their entries and the selection stays |
| World.Player.SwitchHud | src/objects.py:395-396 | the HUD index moves to (h + 1) mod the number of HUDs |
| World.HudCycle | src/objects.py:395-396 | three switches give the HUD back, and a switch always changes it |
| World.Game.constructor | src/game.py:12-43 | the map is the bordered level; the unseated-ball count per colour, the diamond count and the ids are those of the level's objects; no arrow is held; the update log is empty |
| World.Game.RegisterAll | src/game.py:42-43 | registering a list adds its unseated balls per colour, its diamonds and one id per entity to the counters |
| World.Game.RegisterObject | src/game.py:57-70 | a player entry re-places the player; an event entry is stored at its cell; an entity is stored on its layer with a fresh id, seated when on its own pad, and counted as an unseated ball or a diamond |
| World.Game.Spawn | src/game.py:57-70 | a spawned entity is registered as a level entity would be |
| World.Game.SetTile | src/items.py:81-88 | writing a cell of the map changes that cell only and keeps the map's shape |
| World.Game.TileIsFree | src/game.py:97-106 | a cell is free on a layer exactly when nothing on that layer and not the player occupies it |
| Behaviour.BlockedIffNotFree | src/game.py:97-106 | a cell blocks a move exactly when `tile_is_free` fails for it on the layer or it is a wall; an unblocked cell is empty on the layer, not the player's and not a wall |
| World.Game.ResetArrowKeys | src/game.py:108-110 | afterwards no arrow is held |
| Behaviour.PlaceMockup | src/objects.py:95-100 | the cell is reserved on the default layer with a fresh id and is no longer free |
| Behaviour.MockupUpdate | src/objects.py:102-111 | a reservation's lifetime drops by one, and the reservation is removed when it runs out |
| Behaviour.Collide | src/objects.py:606-608 | the collision found is empty exactly for an empty cell and the player exactly for the player's reservation; an entity that is not a reservation is itself the collision; another reservation resolves to the entity on the layer with its owner's identity, or to a detached owner when no such entity is left |
| Behaviour.DevilOnHit | src/objects.py:722-729 | the default layer becomes the hurt-devil layer: one health less, and at the last health the devil and its reservation are gone; a devil without health ignores the hit |
| Behaviour.Hit | src/objects.py:609-611 | the player is dead afterwards exactly when it was already or the collision is the player; the default layer is the one the hit leaves (only a little devil reacts); layers 0 and 2 are untouched |
| Behaviour.DevilHurt | src/objects.py:722-729 | a devil with more than one health is the only change, with one health less; at health 1 the layer loses exactly the devil and its reservation; at 0 or below nothing changes |
| Behaviour.HitLayer | src/objects.py:61-67 | a hit adds no cell, and every collision but one with a little devil leaves the layer as it was |
| Behaviour.Shift | src/objects.py:137-174 | a mover's offset advances; on arrival it moves to the next cell and is still committed for its after-step |
| Behaviour.BallBeforeStep | src/objects.py:198-213 | the layer, ball counts and next identity become exactly `BallLaunch` on the old state, in the direction pushed |
| Behaviour.BallLaunch | src/objects.py:198-213 | on a magnetic tile only the ball's direction is cleared; a blocked next cell changes nothing; otherwise the ball is committed to the push with a zero offset, leaves its pad when it sat on its own pad, the next cell is reserved in its name with one identity drawn, and its colour count rises by one exactly when it left its pad |
| Behaviour.BallAfterStep | src/objects.py:215-234 | the layer, ball counts and next identity become exactly `BallLanding` on the old state |
| Behaviour.BallLanding | src/objects.py:215-234 | a ball that stops (sand, or the next cell blocked) on its own or the universal pad, or arrives on its own or the universal magnetic pad, is seated at rest and its colour count alone drops by one; any other stopped ball comes to rest with nothing else changed; a rolling ball is launched on in the same direction |
| Behaviour.BallUpdate | src/objects.py:137-174 | the offset advances; without arrival nothing else changes; on arrival the ball leaves its cell for the next one and the whole state is the landing computed there |
| Behaviour.BoxBeforeStep | src/objects.py:248-258 | a drowning or blocked box stays; otherwise it commits and reserves the next cell |
| Behaviour.BoxAfterStep | src/objects.py:260-269 | a box stops; on water or a lily it starts drowning, and a lily under it turns to water; no other cell changes |
| Behaviour.BoxUpdate | src/objects.py:274-282 | a sinking box sinks one frame further and is removed once fully sunk; a floating box advances, and on arrival moves to the next cell and stops there, starting to sink on water or a lily, which turns to water; no other cell of the terrain changes |
| Behaviour.DiamondOnTouch | src/objects.py:471-473 | a touched diamond is removed and the diamond count drops by one |
| Behaviour.DiamondUpdate | src/objects.py:475-483 | a diamond advances its animation |
| Behaviour.EnvelopeOnTouch | src/objects.py:491-496 | a touched envelope is removed and no arrow is held afterwards |
| Behaviour.DoorUpdate | src/objects.py:657-659 | a door with an update condition is removed exactly when that condition holds |
| Behaviour.DoorOnTouch | src/objects.py:661-663 | a door with a touch condition is removed exactly when that condition holds for the game as it is touched; nothing else changes |
| Behaviour.TriggerEvent | src/objects.py:18-22 | the event's effect is applied to the game, and its count drops, removing it at the last firing |
| Behaviour.PlayerAfterStep | src/objects.py:324-331 | the player stops; an event on its new cell fires |
| Behaviour.PlayerUpdate | src/objects.py:336-360 | `PlayerMoved`: the player's offset advances and without arrival nothing else changes; on arrival the player moves one cell, its reservation is cleared, it comes to rest, and the whole game is the after-step on the new cell, with that cell's event fired if it has one |
| Behaviour.PlayerBeforeStep | src/objects.py:312-322 | `PlayerSetOff`: the player turns to the direction; towards an empty cell it stays, sets off and reserves that cell with the next identity unless it is wall or water, where nothing else changes; towards an occupied cell the occupant's own touch rule takes effect, as seen facing that direction |
| Behaviour.PortalOnTouch | src/objects.py:533-541 | an open destination puts the player there at rest with a step counted and the event there fired, and releases the arrows; a blocked one raises the alert and changes nothing else |
| Behaviour.PortalUpdate | src/objects.py:543-553 | a portal animates only while no alert is shown |
| Behaviour.PortalRenderAlert | src/objects.py:555-560 | each render pass advances the alert counter |
| Behaviour.CannonballAfterStep | src/objects.py:603-614 | the player is dead exactly when it was already, stands on the cell or holds it reserved; an empty cell that is not a wall takes the ball, a wall takes nothing; an occupied cell is hit as its collision resolves and the ball is gone |
| Behaviour.CannonballUpdate | src/objects.py:573-601 | the offset advances; on arrival the ball leaves its cell, kills a player on or reserving the next cell, lands on it when it is empty and not a wall, is gone at a wall, and otherwise hits what is there and is gone |
| Behaviour.CannonUpdate | src/objects.py:628-646 | a waiting cannon counts its delay down; a ready one kills a player in front and keeps its schedule; otherwise it hits what is in front (resolving reservations), or fires a ball with the next identity onto an empty cell, or does nothing at a wall, and then reloads with the level's delay for its next shot; ball and diamond counts are unchanged |
| Behaviour.CannonShoots | src/objects.py:634-644 | a ready cannon with no player in front hits what is in front (resolving reservations), fires a ball with the next identity onto an empty cell, or does nothing at a wall; then it reloads with the level's delay for its next shot |
| Behaviour.DevilTry | src/objects.py:673-683 | a devil commits to a direction and reserves the cell exactly when that cell is not a wall and nothing stands on the default layer there |
| Behaviour.DevilCommitted | src/objects.py:673-683 | a committed devil records the reservation, is committed to the direction, and the next cell holds its reservation; no other cell changes |
| Behaviour.DevilChosen | src/objects.py:685-711 | a moving devil changes nothing; an idle devil commits to its first chase direction when it can take it, else to its second when it can take that, drawing one identity; when it can take neither nothing changes |
| Behaviour.DevilChoose | src/objects.py:685-711 | the default layer and next identity become the chosen ones: an idle devil commits to its first chase direction when it can go there, else to its second, else it stays |
| Behaviour.DevilAfterStep | src/objects.py:715-720 | a devil arriving on the player kills it; otherwise it stops; its reservation is forgotten either way |
| Behaviour.DevilUpdate | src/objects.py:685-713 | the devil first chooses as `DevilChosen` decides, then advances; on arrival it moves to the next cell, forgets its reservation, and kills the player there or else stops |
| Behaviour.GhostChoose | src/objects.py:741-752 | layer 2 becomes the ghost layer after the choice: an idle ghost moves on to its next waypoint and heads for it; nothing else changes |
| Behaviour.GhostAfterStep | src/objects.py:754-762 | a ghost reaching the player or the player's reservation kills the player; at its waypoint it stops |
| Behaviour.GhostChosen | src/objects.py:741-752 | a choice keeps the cells, the ghost's identity and path, and a valid waypoint index; a moving ghost is unchanged; an idle one targets the next waypoint and heads for it |
| Behaviour.GhostUpdate | src/objects.py:741-762 | the ghost first chooses as `GhostChosen` decides, then advances; on arrival it moves to the next cell, kills a player on or reserving that cell, and otherwise stops when the cell is its waypoint |
| Behaviour.HellEntranceUpdate | src/objects.py:775-790 | the frame counter runs down; at zero the entrance kills a player on it, waits while its cell is occupied, or spawns a devil and restarts its counter |
| Behaviour.GunOnUse | src/items.py:49-61 | the gun is used exactly when the cell ahead is not a wall; then an empty cell gets a cannonball with the next identity and an occupied one is hit as its collision resolves; the player dies exactly when it holds that cell reserved; unused, nothing changes; ball and diamond counts never change |
| Behaviour.SpeedPillOnUse | src/items.py:70-72 | the pill is always used and adds 2 tiles per second to the player's speed |
| Behaviour.LilyPlantOnUse | src/items.py:81-88 | the plant is used exactly on water ahead, which then becomes a lily; no other cell changes |
| Behaviour.ItemOnUse | src/objects.py:372 | the item's own `on_use` runs: it reports use exactly when the item is usable there; the gun has the effect `GunFired`, the speed pill adds 2 tiles per second to the speed, the lily plant has the effect `LilyPlanted`; what another kind would change stays unchanged, and ball and diamond counts never change |
| Behaviour.UseItem | src/objects.py:370-379 | `ItemUsed`: an idle player with items uses the selected one with exactly that kind's effect (`ItemActed`) and, when the use succeeded, the inventory is `Spent`, else it is unchanged; a moving player or an empty inventory changes nothing; the inventory stays well formed |
| Behaviour.OnTouch | src/objects.py:53-59 | the touched object's own rule takes effect (ball, box, diamond, envelope, portal, door), every other kind changes nothing, and only the rules that own a counter, the arrows, the terrain or the player change them |
| Behaviour.UpdateEntity | src/objects.py:69-74 | each kind's update rule takes effect (an envelope's changes nothing); no update changes the diamond count; only a ball changes the ball counts, only a box the terrain, and only the hostile kinds can kill the player |
| Engine.SetHeld | src/game.py:135-139 | one arrow's held state is set and the others are kept |
| Engine.ChooseDirection | src/game.py:140-151 | no direction is chosen exactly when no arrow is held; otherwise the chosen arrow is held and has the highest priority (up, down, left, right) |
| Engine.ResetStopsTheChoice | src/game.py:140-151 | after the arrows are reset, no direction is chosen |
| Engine.StopKey | src/game.py:123-134 | a frame's events end the loop only with quit or retry |
| Engine.LastArrowEvent | src/game.py:135-139 | the index found is that of the last event on the arrow, or there is none |
| Engine.ArrowsFollowLastEvent | src/game.py:135-139 | after a frame's events, an arrow is held exactly when its last event was a press, and is unchanged when it had none |
| Engine.StopKeyIsFirst | src/game.py:119-134 | the loop ends with the action of the first quit or retry key of the frame, and it does not end without one |
| Engine.StopKeyKeepsPrefix | src/game.py:119-134 | keys after the first ending key do not change the result |
| Engine.HandleEvents | src/game.py:119-139 | the loop ends with the first ending key; otherwise the held arrows follow the events, the HUD has moved on once per h, and a run without space moves the selection by z and x and changes nothing else; the inventory stays well formed |
| Engine.HandleKey | src/game.py:122-139 | one key event: q or Escape and r end the loop, h switches the HUD, z and x move the selection, space uses the selected item, arrows are held and released; every other key changes nothing |
| Engine.HudAfterCountsPresses | src/game.py:125-126 | after a run of events the HUD has moved on by the number of h presses, modulo three |
| Engine.SelectionBackAndForth | src/game.py:127-130 | z then x, or x then z, leaves the selection where it was |
| Engine.Visits | src/game.py:153-156 | the list of entities to update holds each cell of the layer once, with its id |
| Engine.TakeTurn | src/game.py:155-156 | an entity takes its turn, updated by its rule, exactly when it is still registered at its cell when its turn comes; the turn is logged either way |
| Engine.UpdateLayer | src/game.py:155-156 | the turns of a pass are the layer's entities at its start, each cell once, logged in one order |
| Engine.PlayerCommits | src/game.py:140-151 | an idle player runs its before-step (`PlayerSetOff`) towards the first held arrow in the order up, down, left, right; a moving player or one with no arrow held leaves the whole game unchanged |
| Engine.PlayerTakesTurn | src/game.py:153 | the player's update runs with the effect `PlayerMoved` states, and the player's turn is logged |
| Engine.Turns | src/game.py:140-156 | the player commits and updates, then layers 0, 1 and 2 take their passes, and the log records exactly that frame |
| Engine.FrameOrder | src/game.py:153-156 | in a frame's log the player's turn comes first, then every entity turn, with layer 0 before layer 1 before layer 2 |
| Engine.RenderAlerts | src/game.py:80-83 | every portal of the default layer has its alert counter moved on once, and nothing else changes |
| Engine.Frame | src/game.py:112-161 | an ending key ends the frame before any update; otherwise the log gains the player's turn and then passes over layers 0, 1 and 2, in that order; a win needs every ball seated and is tested before a loss; a loss needs a dead player with balls left; the frame carries on only with a live player and balls left |
| Engine.StartLevel | src/game.py:113 | the player's init function runs before the first frame: the game becomes its effect on the snapshot, and every kind's count rises by the amount of it that the function grants |
| Engine.GameLoop | src/game.py:112-161 | the loop reports a win only when every ball is seated, and a loss only with a dead player |
| Engine.Stars | src/game.py:45-55 | a win earns one star, a second for no diamond left and a third for finishing within the level's steps; a retry and a loss are reported as such; quitting earns three empty stars; every result is a valid outcome |
| Engine.Play | src/game.py:12-55 | a missing level reports "level not found"; a level that was found reports a valid outcome |
| Menu.WonStarCount | src/RGBalls.py:70-82 | a won result has 1, 2 or 3 stars, and 1 and 3 stars are the results [*, -, -] and [*, *, *] |
| Menu.KeptIsBest | src/RGBalls.py:71-77 | the stored result after a repeat win is a win with the larger star count of the old and new results |
| Menu.Kept | src/RGBalls.py:71-77 | the new result replaces the stored one exactly when the new one has three stars or the stored one only one star; otherwise the stored one stays |
| Menu.Select | src/RGBalls.py:215-224 | the selection stays between 0 and the last playable level; arrows move it by one when possible; page up moves to the least of selected + 5, unlocked and the last level; page down to the greater of selected - 5 and 0; other keys leave it |
| Menu.StepsAreInverse | src/RGBalls.py:215-220 | an arrow move that changes the selection is undone by the opposite arrow |
| Menu.PageUpsReachTop | src/RGBalls.py:221-222 | enough page-ups reach the last playable level |
| Menu.PageUpsStayAtTop | src/RGBalls.py:221-222 | page up at the last playable level stays there |
| Menu.GameMenu.constructor | src/RGBalls.py:29-33 | levels are unlocked up to the number of saved results; the selection is the first unbeaten level, or the last level when all are beaten |
| Menu.GameMenu.Record | src/RGBalls.py:67-90 | a first win is appended and unlocks the next level; a repeat win keeps the better result; retry and a loss with retry repeat the level; a missing level returns to the menu one level back; the menu state stays consistent |
| Menu.GameMenu.PlayGame | src/RGBalls.py:67-90 | a level is played and recorded; a stored result never loses stars, and at most one result is added |
| Menu.GameMenu.Enter | src/RGBalls.py:225-233 | the play, replay and next loop keeps the menu state consistent, never drops a saved result, and ends at the menu unless the runs are used up |
| Menu.GameMenu.MoveSelection | src/RGBalls.py:215-224 | a menu key sets the selection as Select computes it, and stays at the menu |
| Menu.GameMenu.MainLoop | src/RGBalls.py:208-233 | the main menu keeps its state consistent and never drops a saved result |

## Left out

- Rendering: drawing tiles, sprites, the HUD, stars and text, plus fonts and images. Only the portal alert counter, which the render pass advances, is kept.
- Input polling, `pygame.QUIT`, the clock and the frame rate. A frame's key events are a parameter. The frames form a finite sequence, so `Engine.GameLoop` and `Engine.Play` report `None` when the frames run out before the level ends.
- Saving and loading results with pickle, and counting level files in a directory. The `GameMenu` constructor takes the saved results and the number of levels as arguments.
- Reading and building level files (`unpack_level`, `generate_levels`). A level is given as a `Level` value.
- Floating-point arithmetic is modelled with Dafny reals, so rounding in offsets and speeds is not modelled.
- The envelope's message screen. Only removing the envelope and resetting the arrow keys are modelled.
- Level scripts are uninterpreted fields of a `Scripts` value. An event effect or the player's init function acts on the terrain, the layers, the counters and the player's position and state. Neither can change the event registry. The init function can also grant items (`Scripts.playerItems`), which `Engine.StartLevel` hands to `add_item` in turn.
- World.Player.AddItem: it is reached only through the init function's grants at the start of a level. An event callback that calls `add_item` is not modelled, because an event effect cannot change the inventory. So in a modelled game the inventory grows only once, before the first frame; after that it only shrinks as items are used.
- Behaviour.UpdateEntity: an entity that a level script stores on a layer other than its own is skipped by that layer's pass. Python would still call its `update`.
- Engine.UpdateLayer: the order in which a layer's entities take their turns is left open, where Python visits a dictionary in insertion order. The proved properties hold for every order.
- Engine.TakeTurn: an entity removed earlier in an update pass is skipped later in that pass. The Python loop iterates over a copy of the layer and would still call its `update`.
- Behaviour.PlayerUpdate: clearing a reservation that has already run out is a no-op, where the `pop` at src/objects.py:341 raises `KeyError`. A reservation runs out after 150 updates, so this needs a player slower than 0.4 tiles per second, which only a level script lowering its step size can cause.
- Behaviour.DevilOnHit: removing a reservation that has already run out is a no-op, where `MockupObject.destroy` (src/objects.py:110-111, called at 727-728) raises `KeyError`. This happens when a devil slower than 0.4 tiles per second is hit at its last health after its reservation has run out.
- Behaviour.Hit: a reservation whose owner is no longer on the layer (a level script removed it, or it was overwritten after its reservation ran out) resolves to `DetachedOwner`. A hit on it changes nothing but still counts as a hit: the cannonball is gone, the gun is used, the cannon reloads, the hell entrance waits. Python calls `on_hit` on the owner object itself (src/objects.py:97, 609-611), which for every kind but the little devil also does nothing. A detached little devil with health would lose one health there, and at its last health pop whatever now stands on its old cell; the model does not keep objects that have left their layer.
- Behaviour.GhostUpdate: requires a non-empty path and a waypoint index within it, which `Ghost.__init__` always establishes.
- World.Game.TileAt: reads a wall outside the map, where Python would index out of range or wrap around with a negative index. Rows are framed by walls, so movement never reaches such cells.
- World.Game.constructor: the count of unseated balls equals the balls on the wrong pad, but only at load time. It is not carried through play as an invariant. Two reasons:
  - a ball loaded on a universal pad counts as unseated (src/game.py:63-67);
  - leaving a universal pad does not raise the counter (src/objects.py:207).
- The possible double firing of `MovingObject.update`'s if-chain within one call is not modelled. An after-step either keeps the mover's direction or clears it, so a later branch of the chain never fires in the same call.
- The entrance, summary and lose screens are left out. Their key choice is the `Reply` and `retryAfterLoss` of each `Attempt`.
- Engine.HandleEvents: the effects of space are stated key by key (`Engine.HandleKey` ensures the item use of `Behaviour.UseItem`), but not composed over a run of events; over a whole run the selection and the rest of the state are stated only for runs without space.
- Engine.Play: requires a level with a player entry (`Playable`). Without one, `Game.__init__` leaves `player` as `None` (src/game.py:27) and the first use of the player raises an error.
- At the main menu, q and Esc quit; `Menu.GameMenu.MainLoop` returns.
- Behaviour.DoorOnTouch: consults the door's touch condition. The source calls `condition_on_update` with three arguments at src/objects.py:662.
- Behaviour.HellEntranceUpdate: the source calls `Player.on_hit` with three arguments at src/objects.py:786-787, which raises `TypeError`. It is modelled as the intended kill.
- Behaviour.BoxAfterStep: a box that sinks on a lily turns the cell to water.
