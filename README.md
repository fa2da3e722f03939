# Luigi's Ghost Mansion: the game server's core, in Dafny

This project models the server side of a small multiplayer browser game.
One player is a ghost, one is a luigi, and everyone after them is a
spectator. The server keeps the game state, and the client polls it for
frames to paint. The model covers:

- **`ServerGame`** (`game.dfy`, module `Game`) holds per-player
  dictionaries: role, readiness, configuration, last-seen time and latest
  pressed keys. It keys them by id in insertion order. The model covers:
  - player registration and configuration updates;
  - the once-a-second pre-game check that starts the game;
  - the scan that finds the ghost;
  - the frame a player receives: the map's walls, the ghost sprite when the
    requester is the ghost or the ghost sprints, then one sprite per luigi.
- **Player handles** (`player.dfy`, module `Players`) read a player's
  configuration and pressed keys, including the ghost's sprint test.
- **`GameMap`** (`maps.dfy`, module `Maps`) is the `Basic` map with its four
  border walls. `getRenderData` copies them through their JSON encoding.
- **`PositionTracker` and `StartingPositions`** (`position.dfy`, module
  `Positions`): a point that moves in four screen directions, and one
  starting tracker per playing role.
- **The drawable wire format** (`drawable.dfy`, module `Drawables`):
  `toJSON` and `Drawable.fromJSON` for walls and images.
- **`ptInTriangle`** (`math_utils.dfy`, module `MathUtils`): the
  sign-normalised barycentric point-in-triangle test.

`roles.dfy` defines the six roles. `wrappers.dfy` defines `Option` and
`Result`.

JavaScript failures are modelled as values:
- a read through `undefined` is `Err(TypeError(..))`;
- a missing rotation is `None`;
- an object's key order is the sequence `ids`. This relies on ids never being array-index strings such as "0": JavaScript lists those keys first, in numeric order. The source's `randomUUID` ids never are.

The class invariant `ServerGame.Valid` states:
- `ids` lists every dictionary's keys, each once;
- every player holds the role its join position gave it;
- readiness, configuration and last-seen time exist for every registered
  player;
- the start notification has been sent once exactly when the pre-game check
  is no longer scheduled.

Every state-changing method preserves it.

## Model

| member | source | states |
|---|---|---|
| MathUtils.PtInTriangle | src/common/math.mjs:17-24 | the source's expression over reals: signed area A, sign flip, then s > 0, t > 0 and s + t < 2·A·sign, all strict; so a point is inside only for a non-degenerate triangle with both sign-corrected coordinates positive (InsideIffBarycentric and DegenerateContainsNothing characterise it) |
| MathUtils.RawCoordinatesOfAffine | src/common/math.mjs:18-21 | the unnormalised coordinates s and t of p0 + a(p1-p0) + b(p2-p0) are 2A·a and 2A·b |
| MathUtils.InsideIffBarycentric | src/common/math.mjs:17-24 | a point in barycentric form is reported inside iff the triangle is non-degenerate and a > 0, b > 0, a + b < 1 (both directions) |
| MathUtils.DegenerateContainsNothing | src/common/math.mjs:17-24 | a zero-area triangle contains no point |
| MathUtils.VerticesOutside | src/common/math.mjs:17-24 | no vertex is reported inside (the test is strict) |
| MathUtils.EdgesOutside | src/common/math.mjs:17-24 | no point on any of the three edges is reported inside |
| MathUtils.CentroidInside | src/common/math.mjs:17-24 | the centroid of a non-degenerate triangle is inside |
| MathUtils.SwapInvariant | src/common/math.mjs:17-24 | the answer does not depend on winding order (p1 and p2 swapped) |
| MathUtils.RotationInvariant | src/common/math.mjs:17-24 | the answer does not change when the vertices are rotated |
| Drawables.ToJson | src/common/drawable.mjs:1-6 | the record's type tag names the variant, it carries four arguments, and which of them are numbers |
| Drawables.FromJson | src/common/drawable.mjs:15-28 | an unknown type tag, and only that, is refused as unknown; a decoded drawable has the tag it was decoded from; a decoded wall re-encodes to the first four arguments |
| Drawables.DecodeEncode | src/common/drawable.mjs:48-61 | decoding the encoding of any wall or image gives back the same drawable |
| Drawables.EncodeDecode | src/common/drawable.mjs:64-108 | a decodable record with four arguments is exactly the encoding of what it decodes to |
| Drawables.UnknownTagRefused | src/common/drawable.mjs:24-26 | any tag other than DrawableWall and DrawableImage yields no drawable |
| Drawables.EncodingInjective | src/common/drawable.mjs:59-61 | two drawables with the same encoding are equal |
| Positions.PositionTracker.constructor | src/server/game/position.mjs:14-17 | the tracker starts at the given point |
| Positions.PositionTracker.Move | src/server/game/position.mjs:19-36 | UP/DOWN change only y by ∓distance, LEFT/RIGHT only x by ∓/±distance; any other direction is refused and nothing moves |
| Positions.OppositeMovesCancel | src/server/game/position.mjs:19-36 | a move followed by the opposite move of the same distance returns to the start |
| Positions.ZeroMoveIsIdentity | src/server/game/position.mjs:19-36 | a zero-distance move in a valid direction changes nothing |
| Positions.OnlyFourDirections | src/server/game/position.mjs:19-36 | a move succeeds iff the direction is one of the four, otherwise it is the invalid-direction error |
| Positions.StartingPositions.constructor | src/server/game/position.mjs:48-54 | exactly the five playing roles get a tracker, each the matching argument |
| Positions.StartingPositions.Snapshot | src/server/game/position.mjs:48-54 | the snapshot has a point for exactly the roles in the table, each the current point of that role's tracker |
| Maps.BasicWalls | src/server/game/maps.mjs:3-12 | the Basic map has four walls, each inside the 300 × 300 square and 30 thick |
| Maps.BasicWallsAreTheBorder | src/server/game/maps.mjs:7-12 | the four walls are the top, right, left and bottom border rectangles |
| Maps.GameMap.constructor | src/server/game/maps.mjs:25-28 | the map keeps its name and walls |
| Maps.GameMap.GetRenderData | src/server/game/maps.mjs:30-37 | the copy made through encode/decode equals the map's walls element for element |
| Maps.RandomMap | src/server/game/maps.mjs:7-16 | the map chosen is always Basic, with its four walls |
| Players.MakePlayer | src/server/game/player.mjs:7-10 | a handle has the id and holds a configuration iff one is stored for that id, and then that one |
| Players.KeyFor | src/server/game/player.mjs:22-24 | the key of a configured action, or "undefined" when the action is missing |
| Players.IsPressing | src/server/game/player.mjs:12-14 | fails iff the player has no pressed-key snapshot; otherwise true iff the key is present and pressed |
| Players.IsSprinting | src/server/game/player.mjs:22-24 | fails without a configuration; otherwise it is the pressed test of the configured sprint key |
| Players.SprintingFailsOnlyWithoutData | src/server/game/player.mjs:12-24 | the sprint test fails iff there is no configuration or no snapshot; otherwise it tells whether the sprint key is held |
| Game.DistinctCardinality | src/server/game/main.mjs:124-126 | a sequence of distinct ids has as many elements as its set of ids |
| Game.KeyCount | src/server/game/main.mjs:124-126 | a dictionary has as many keys as its key order lists |
| Game.JoinKeepsInvariant | src/server/game/main.mjs:80-99 | appending a fresh id with the role for the current count keeps the key order and the join-order roles |
| Game.JoinKeepsRegistry | src/server/game/main.mjs:80-99 | newPlayer's insertions for a fresh id (ready false, last-seen time, role by count, configuration) keep the key order, the join-order roles and the per-player entries complete |
| Game.ExactlyOneGhost | src/server/game/main.mjs:88-94 | with at least one player, exactly one player, the first, is the ghost |
| Game.GhostIsFirstJoiner | src/server/game/main.mjs:109-122 | the ghost scan settles on the first player to join, and that player's role is the ghost |
| Game.LuigiIds | src/server/game/main.mjs:172-185 | the luigi list is no longer than the registered ids and holds only registered luigi-role ids |
| Game.LuigiIdsMembership | src/server/game/main.mjs:172-185 | an id is listed as a luigi iff it is registered with a luigi role |
| Game.LuigiIdsByJoinOrder | src/server/game/main.mjs:88-94 | with join-order roles the only luigi is the second player to join |
| Game.PlayerSpritesOfLuigis | src/server/game/main.mjs:172-185 | one luigi.png sprite per luigi id, in registration order, at that role's starting position |
| Game.FrameShape | src/server/game/main.mjs:141-157 | a frame starts with the walls; its length is the walls, plus one if the ghost is visible, plus one per luigi; a ghost sprite is in it iff the ghost is visible |
| Game.FrameLengthByJoinOrder | src/server/game/main.mjs:141-157 | with join-order roles a frame has the walls, the ghost if visible, and one luigi sprite once two players have joined |
| Game.FrameAsWritten | src/server/game/main.mjs:166-185 | as written, the frame fails iff the ghost is visible or some player is a luigi; otherwise it is the walls |
| Game.FrameAsWrittenFails | src/server/game/main.mjs:166-185 | as written, every frame fails once two players have joined, and the ghost's own frame always fails |
| Game.FrameAgreesWhereSourceSucceeds | src/server/game/main.mjs:166-185 | wherever the as-written frame succeeds, the corrected frame is the same list |
| Game.Merge | src/server/game/main.mjs:101-103 | the merged configuration has the keys of both, and the update's value wins on every shared key |
| Game.SprintKeyFollowsConfigUpdate | src/server/game/main.mjs:101-103 | after an update that names a sprint key, a handle for that player tests that key |
| Game.GhostSprintFailsOnlyWithoutInput | src/server/game/main.mjs:145-147 | with players registered, the ghost's sprint test fails iff the first player has not yet reported its keys |
| Game.ServerGame.constructor | src/server/game/main.mjs:17-41 | a new game has empty dictionaries, the Basic map and the pre-game check scheduled |
| Game.ServerGame.GetPlayerCount | src/server/game/main.mjs:124-126 | the count is the number of registered ids |
| Game.ServerGame.GetPlayerRole | src/server/game/main.mjs:105-107 | a role exists iff the id is registered, and it is the role for that id's join position |
| Game.ServerGame.NewPlayer | src/server/game/main.mjs:80-99 | appends the id as ghost, luigi1 or spectator by the count, not ready, with the default configuration and the time; nothing else changes; the invariant holds |
| Game.ServerGame.UpdateConfig | src/server/game/main.mjs:101-103 | the player's configuration becomes the shallow merge of the stored one and the update; nothing else changes |
| Game.ServerGame.AreAllReady | src/server/game/main.mjs:51-56 | true iff every registered player is ready |
| Game.ServerGame.Begin | src/server/game/main.mjs:69-78 | cancels the pre-game check and notifies once; player state is unchanged |
| Game.ServerGame.PreGameLoop | src/server/game/main.mjs:45-63 | the game begins iff there are at least two players and all are ready; otherwise nothing changes |
| Game.ServerGame.PreGameTimerTick | src/server/game/main.mjs:17-22 | once begun, a tick changes nothing; the start notification is sent at most once |
| Game.ServerGame.GetGhostPlayer | src/server/game/main.mjs:109-122 | the handle of the last ghost-role id in key order ("NONE" if none); with players, the first joiner, with a configuration |
| Game.ServerGame.RenderGhost | src/server/game/main.mjs:166-170 | appends exactly one ghost.jpg sprite at the ghost's starting position |
| Game.ServerGame.RenderPlayers | src/server/game/main.mjs:172-185 | appends the player sprites of all luigi-role ids in key order |
| Game.ServerGame.BuildUpdate | src/server/game/main.mjs:137-159 | the answer is the expected update; its count is the player count; with players, it fails iff the first player has not reported its keys |
| Game.ServerGame.GetUpdateData | src/server/game/main.mjs:128-160 | stamps time and pressed keys even when the frame then fails; the answer is the expected update; with players, it fails iff the first player has no snapshot; the ghost always gets a frame; the invariant holds |

## Left out

- Drawing is left out: the draw closures, `Drawable.setContext`, `DrawableImage.getOrCreateImage` and all client files are DOM and canvas code.
- `MathUtils.findPointFromRotation` is left out: it uses `cos`, `sin` and π, which have no exact model over reals.
- Numbers are unbounded reals, not IEEE doubles: the point-in-triangle test is exact here, and rounding in the source may flip results on edges.
- Timers are not modelled. `setInterval` and `clearInterval` become the flag `preGameLoopActive`, and one firing is `PreGameTimerTick`.
- Sockets are not modelled. `playerSockets` and the `gameStart` messages that `begin` sends become the counter `gameStartBroadcasts`. So the model misses one failure: `server/websocket.mjs` registers players without a socket, and `begin` would then throw a TypeError at `playerSockets[id].send`. If `begin` ran, the TypeError would escape the interval callback after `clearInterval`. With no uncaughtException handler (server/index.mjs), Node would end the server process. Nothing shown ever sets a player ready, so this path is not reached.
- `randomUUID` is not modelled: the caller supplies a fresh id to `NewPlayer`.
- `Date.now` is not modelled: the caller supplies the time.
- The singleton `ServerGame.currentGame` and `getCurrent` are left out: handles receive the game's dictionaries as arguments.
- `gameLoop` is left out: its body is empty.
- The `console.assert` and `console.log` calls are left out: they never change the result.
- The JSON text layer is left out: `JSON.stringify` and `JSON.parse` become the `Encoded` record directly.
- `common/default-config.mjs` is not part of this model: the default configuration is a constructor parameter.
- `common/role.mjs` is not part of this model: roles are a datatype, so the string values of roles are not modelled.
- `common/messages.mjs` is not part of this model.
- `server/websocket.mjs` is left out, so readiness changes only by assigning `playerReady`. The message routing is transport code.
- `Maps.GameMap.constructor` additionally stores a `StartingPositions` table: the source reads `map.positions` but never defines it (see Findings). The trackers in it are supplied by the caller.
- `Drawables.FromJson` refuses records whose arguments have the wrong JSON kinds or are too few. The source spreads whatever it is given into the constructor and stores it as given: `["a", null, 1, 2]` makes a wall with x = "a" and y = null. Fields are `undefined` only where arguments are missing. For an unknown tag the source returns `undefined`.
- `Drawables.DecodeEncode` counts a rotation that was never given (`undefined`) and a `null` rotation as the same `None`. Through JSON text, an image made without a rotation comes back with `rot === null` rather than `undefined`, so the round trip is exact only up to that difference.
- `Players.IsPressing` answers `false` for a key missing from the snapshot, where the source yields `undefined`. The two are equally falsy wherever the result is used.
- `Game.ServerGame.NewPlayer` accepts any fresh string as an id. `ids` matches JavaScript's key order only when no id is an array-index string such as "0" or "42": JavaScript lists such keys first, in numeric order. The source's `randomUUID` ids never are.
- `Game.ServerGame.GetUpdateData` is modelled without its empty awareness-overlay branch.
- `Game.ServerGame.GetUpdateData` does not check that the id is registered, as in the source.
- Aliasing between a game's dictionaries and the objects handed to callers is not modelled: the model's dictionaries are values.

## Findings

| source | as written | input that shows it | evidently intended | confidence | as-written member | corrected member |
|---|---|---|---|---|---|---|
| src/server/game/main.mjs:168 | `renderGhost` and `renderPlayers` read `this.map.positions[role]`, but `GameMap` (src/server/game/maps.mjs:18-28) has no `positions` property, so the read fails with a TypeError | two players registered, the ghost has reported its keys, either player requests a frame: `renderPlayers` fails on the luigi; the ghost's own request already fails in `renderGhost` | the map carries a starting position per playing role, and the frame holds the walls, the ghost when visible, and a sprite per luigi | high, not executed | Game.FrameAsWrittenFails | Game.FrameShape |
