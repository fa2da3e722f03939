/**
  The server's game state (`server/game/main.mjs`): a table of per-player
  dictionaries (role, readiness, configuration, last-seen time, latest
  pressed keys), the map, and the pre-game check that starts the game.

  The source keeps one process-wide instance and identifies players by
  random UUIDs; here the caller supplies a fresh id to `NewPlayer` and the
  current time to every operation that stamps it. The source's dictionaries
  are JavaScript objects with string keys. Keys that are not array indices
  (such as UUIDs) iterate in insertion order, and `ids` records that order;
  ids are assumed never to be array-index strings such as "0" or "42",
  which JavaScript would list first, in numeric order.
 */
module Game {
  import opened Wrappers
  import opened Roles
  import opened MathUtils
  import opened Drawables
  import opened Positions
  import opened Maps
  import opened Players

  /** The id `getGhostPlayer` starts from, and returns when no player is the ghost. */
  const NoGhostId: Id := "NONE"
  const GhostImage: string := "ghost.jpg"
  const LuigiImage: string := "luigi.png"

  // ---------------------------------------------------------------------------
  // Registration order and roles
  // ---------------------------------------------------------------------------

  /** The role `newPlayer` gives a player that joins when `count` players are registered. */
  function RoleForJoin(count: nat): Role
  {
    if count == 0 then Ghost else if count == 1 then Luigi1 else Spectator
  }

  predicate Distinct(ids: seq<Id>)
  {
    forall i, j | 0 <= i < j < |ids| :: ids[i] != ids[j]
  }

  /** `ids` lists the keys of `m`, each once: the object's key order. */
  ghost predicate KeyOrder<V>(ids: seq<Id>, m: map<Id, V>)
  {
    Distinct(ids) && forall id :: id in m <==> id in ids
  }

  /** Every registered player holds the role its join position gave it. */
  predicate RolesByJoinOrder(ids: seq<Id>, roles: map<Id, Role>)
  {
    forall i | 0 <= i < |ids| :: ids[i] in roles && roles[ids[i]] == RoleForJoin(i)
  }

  /** The ids whose role is the ghost. */
  function GhostIds(roles: map<Id, Role>): set<Id>
  {
    set id | id in roles && roles[id] == Ghost
  }

  /** The ids whose role is a luigi: neither the ghost nor a spectator. */
  predicate IsLuigi(r: Role)
  {
    r != Ghost && r != Spectator
  }

  lemma {:induction false} DistinctCardinality(ids: seq<Id>)
    requires Distinct(ids)
    ensures |set id | id in ids| == |ids|
  {
    if ids != [] {
      var init := ids[..|ids| - 1];
      var last := ids[|ids| - 1];
      DistinctCardinality(init);
      assert (set id | id in ids) == (set id | id in init) + {last};
      assert last !in init;
    }
  }

  /** A dictionary has as many keys as its key order lists. */
  lemma KeyCount<V>(ids: seq<Id>, m: map<Id, V>)
    ensures KeyOrder(ids, m) ==> |m| == |ids|
  {
    if KeyOrder(ids, m) {
      assert m.Keys == set id | id in ids;
      DistinctCardinality(ids);
    }
  }

  /** Registering a fresh id at the end keeps the key order and the join-order roles. */
  lemma JoinKeepsInvariant(ids: seq<Id>, roles: map<Id, Role>, id: Id)
    requires KeyOrder(ids, roles) && RolesByJoinOrder(ids, roles)
    requires id !in roles
    ensures KeyOrder(ids + [id], roles[id := RoleForJoin(|ids|)])
    ensures RolesByJoinOrder(ids + [id], roles[id := RoleForJoin(|ids|)])
  {
    var ids' := ids + [id];
    var roles' := roles[id := RoleForJoin(|ids|)];
    forall i, j | 0 <= i < j < |ids'| ensures ids'[i] != ids'[j] {
      if j < |ids| {
        assert ids'[i] == ids[i] && ids'[j] == ids[j];
      } else {
        assert ids'[i] in roles;
      }
    }
    forall x ensures x in roles' <==> x in ids' {
      assert x in ids' <==> x in ids || x == id;
    }
    forall i | 0 <= i < |ids'| ensures ids'[i] in roles' && roles'[ids'[i]] == RoleForJoin(i) {
      if i < |ids| {
        assert ids'[i] == ids[i];
        assert ids[i] in roles;
      }
    }
  }

  /**
    The registry part of the game state: `ids` is the key order of the roles,
    roles follow join order, and every registered player has a readiness, a
    configuration and a last-seen time.
   */
  ghost predicate Registry(ids: seq<Id>, roles: map<Id, Role>, ready: map<Id, bool>,
                           config: map<Id, Config>, lastUpdate: map<Id, int>)
  {
    && KeyOrder(ids, roles)
    && RolesByJoinOrder(ids, roles)
    && ready.Keys == roles.Keys
    && roles.Keys <= config.Keys
    && roles.Keys <= lastUpdate.Keys
  }

  /** `newPlayer`'s five insertions for a fresh id keep the registry well formed. */
  lemma JoinKeepsRegistry(ids: seq<Id>, roles: map<Id, Role>, ready: map<Id, bool>,
                          config: map<Id, Config>, lastUpdate: map<Id, int>,
                          id: Id, c: Config, now: int)
    requires Registry(ids, roles, ready, config, lastUpdate)
    requires id !in roles
    ensures Registry(ids + [id], roles[id := RoleForJoin(|ids|)], ready[id := false],
                     config[id := c], lastUpdate[id := now])
  {
    JoinKeepsInvariant(ids, roles, id);
  }

  /** Under join-order roles exactly one registered player is the ghost: the first. */
  lemma ExactlyOneGhost(ids: seq<Id>, roles: map<Id, Role>)
    requires KeyOrder(ids, roles) && RolesByJoinOrder(ids, roles) && |ids| >= 1
    ensures GhostIds(roles) == {ids[0]}
    ensures |GhostIds(roles)| == 1
  {
    forall id | id in GhostIds(roles)
      ensures id == ids[0]
    {
      var i :| 0 <= i < |ids| && ids[i] == id;
      assert RoleForJoin(i) == Ghost;
    }
  }

  /**
    The id `getGhostPlayer` settles on: scanning the registered ids in order,
    the last one whose role is the ghost, or `NoGhostId` when there is none.
   */
  function LastGhost(ids: seq<Id>, roles: map<Id, Role>): Id
    requires forall id | id in ids :: id in roles
  {
    if ids == [] then NoGhostId
    else if roles[ids[|ids| - 1]] == Ghost then ids[|ids| - 1]
    else LastGhost(ids[..|ids| - 1], roles)
  }

  /** Under join-order roles the ghost found is the first player to join. */
  lemma {:induction false} GhostIsFirstJoiner(ids: seq<Id>, roles: map<Id, Role>)
    requires RolesByJoinOrder(ids, roles) && |ids| >= 1
    ensures LastGhost(ids, roles) == ids[0]
    ensures roles[ids[0]] == Ghost
  {
    if |ids| > 1 {
      var init := ids[..|ids| - 1];
      assert RolesByJoinOrder(init, roles);
      GhostIsFirstJoiner(init, roles);
    }
  }

  /** The registered luigi-role ids, in registration order. */
  function LuigiIds(ids: seq<Id>, roles: map<Id, Role>): (luigis: seq<Id>)
    requires forall id | id in ids :: id in roles
    ensures |luigis| <= |ids|
    ensures forall id | id in luigis :: id in ids && IsLuigi(roles[id])
  {
    if ids == [] then []
    else
      var last := ids[|ids| - 1];
      LuigiIds(ids[..|ids| - 1], roles) + (if IsLuigi(roles[last]) then [last] else [])
  }

  /** An id is listed as a luigi exactly when it is registered with a luigi role. */
  lemma {:induction false} LuigiIdsMembership(ids: seq<Id>, roles: map<Id, Role>, id: Id)
    requires forall x | x in ids :: x in roles
    ensures id in LuigiIds(ids, roles) <==> id in ids && IsLuigi(roles[id])
  {
    if ids != [] {
      var init := ids[..|ids| - 1];
      LuigiIdsMembership(init, roles, id);
      assert id in ids <==> id in init || id == ids[|ids| - 1];
    }
  }

  /** Under join-order roles the only luigi is the second player to join. */
  lemma {:induction false} LuigiIdsByJoinOrder(ids: seq<Id>, roles: map<Id, Role>)
    requires RolesByJoinOrder(ids, roles)
    ensures LuigiIds(ids, roles) == if |ids| >= 2 then [ids[1]] else []
  {
    if ids != [] {
      var init := ids[..|ids| - 1];
      assert RolesByJoinOrder(init, roles);
      LuigiIdsByJoinOrder(init, roles);
    }
  }

  // ---------------------------------------------------------------------------
  // Frames
  // ---------------------------------------------------------------------------

  /** What `getUpdateData` returns: the player count and the list to paint. */
  datatype UpdateData = UpdateData(playerCount: nat, renderData: seq<Drawable>)

  /** `new DrawableImage(name, pos.x, pos.y)`: no rotation is passed. */
  function Sprite(name: string, p: Point): Drawable
  {
    Image(name, p.x, p.y, None)
  }

  predicate CoversPlaying(pts: map<Role, Point>)
  {
    forall r: Role :: IsPlaying(r) ==> r in pts
  }

  function GhostSprite(pts: map<Role, Point>): Drawable
    requires CoversPlaying(pts)
  {
    Sprite(GhostImage, pts[Ghost])
  }

  predicate IsGhostSprite(d: Drawable)
  {
    d.Image? && d.imgName == GhostImage
  }

  /** The sprites `renderPlayers` appends: one per luigi-role id, in registration order. */
  function PlayerSprites(ids: seq<Id>, roles: map<Id, Role>, pts: map<Role, Point>): seq<Drawable>
    requires forall id | id in ids :: id in roles
    requires CoversPlaying(pts)
  {
    if ids == [] then []
    else
      var last := ids[|ids| - 1];
      PlayerSprites(ids[..|ids| - 1], roles, pts)
        + (if IsLuigi(roles[last]) then [Sprite(LuigiImage, pts[roles[last]])] else [])
  }

  /** The player sprites are the luigi-role ids' sprites, one each, at their role's position. */
  lemma {:induction false} PlayerSpritesOfLuigis(ids: seq<Id>, roles: map<Id, Role>, pts: map<Role, Point>)
    requires forall id | id in ids :: id in roles
    requires CoversPlaying(pts)
    ensures |PlayerSprites(ids, roles, pts)| == |LuigiIds(ids, roles)|
    ensures forall k | 0 <= k < |LuigiIds(ids, roles)| ::
              PlayerSprites(ids, roles, pts)[k] == Sprite(LuigiImage, pts[roles[LuigiIds(ids, roles)[k]]])
  {
    if ids != [] {
      PlayerSpritesOfLuigis(ids[..|ids| - 1], roles, pts);
    }
  }

  /** The ghost is drawn for the ghost itself, and for everyone while it sprints. */
  predicate GhostVisible(requesterRole: Option<Role>, sprinting: bool)
  {
    requesterRole == Some(Ghost) || sprinting
  }

  /** The frame: the walls, then the ghost if visible, then the player sprites. */
  function Frame(walls: seq<Drawable>, visible: bool, ids: seq<Id>, roles: map<Id, Role>,
                 pts: map<Role, Point>): seq<Drawable>
    requires forall id | id in ids :: id in roles
    requires CoversPlaying(pts)
  {
    walls + (if visible then [GhostSprite(pts)] else []) + PlayerSprites(ids, roles, pts)
  }

  /**
    The shape of a frame: it starts with the walls; its length is the walls,
    one more if the ghost is visible, and one per luigi-role id; and when the
    walls are all walls, a ghost sprite appears in it exactly when the ghost
    is visible.
   */
  lemma FrameShape(walls: seq<Drawable>, visible: bool, ids: seq<Id>, roles: map<Id, Role>,
                   pts: map<Role, Point>)
    requires forall id | id in ids :: id in roles
    requires CoversPlaying(pts)
    ensures |Frame(walls, visible, ids, roles, pts)| == |walls| + (if visible then 1 else 0) + |LuigiIds(ids, roles)|
    ensures Frame(walls, visible, ids, roles, pts)[..|walls|] == walls
    ensures (forall d | d in walls :: d.Wall?) ==>
              ((exists k | 0 <= k < |Frame(walls, visible, ids, roles, pts)| ::
                  IsGhostSprite(Frame(walls, visible, ids, roles, pts)[k])) <==> visible)
  {
    var f := Frame(walls, visible, ids, roles, pts);
    var g := if visible then [GhostSprite(pts)] else [];
    PlayerSpritesOfLuigis(ids, roles, pts);
    var sprites := PlayerSprites(ids, roles, pts);
    assert f == walls + g + sprites;
    assert forall k | 0 <= k < |sprites| :: !IsGhostSprite(sprites[k]);
    if forall d | d in walls :: d.Wall? {
      if visible {
        assert IsGhostSprite(f[|walls|]);
      } else {
        forall k | 0 <= k < |f| ensures !IsGhostSprite(f[k]) {
          if k < |walls| {
            assert f[k] == walls[k] && walls[k] in walls;
          } else {
            assert f[k] == sprites[k - |walls|];
          }
        }
      }
    }
  }

  /**
    With roles given by join order, a frame holds the walls, the ghost when
    visible, and one luigi sprite once a second player has joined.
   */
  lemma FrameLengthByJoinOrder(walls: seq<Drawable>, visible: bool, ids: seq<Id>, roles: map<Id, Role>,
                               pts: map<Role, Point>)
    requires KeyOrder(ids, roles) && RolesByJoinOrder(ids, roles)
    requires CoversPlaying(pts)
    ensures |Frame(walls, visible, ids, roles, pts)|
            == |walls| + (if visible then 1 else 0) + (if |ids| >= 2 then 1 else 0)
  {
    FrameShape(walls, visible, ids, roles, pts);
    LuigiIdsByJoinOrder(ids, roles);
  }

  /**
    The frame as the source builds it. Its `GameMap` has no `positions`
    property, so `renderGhost` and `renderPlayers` read `positions[role]` from
    `undefined` and fail: on the ghost sprite when the ghost is visible, and
    otherwise on the first luigi sprite. Only a frame without either succeeds,
    and it is the walls alone.
   */
  function FrameAsWritten(walls: seq<Drawable>, visible: bool, ids: seq<Id>, roles: map<Id, Role>)
    : (r: Result<seq<Drawable>, Fault>)
    requires forall id | id in ids :: id in roles
    ensures r.Err? <==> visible || exists id | id in ids :: IsLuigi(roles[id])
    ensures r.Ok? ==> r.value == walls
  {
    if visible then Err(TypeError("map.positions is undefined"))
    else if LuigiIds(ids, roles) != [] then
      assert LuigiIds(ids, roles)[0] in LuigiIds(ids, roles);
      Err(TypeError("map.positions is undefined"))
    else
      assert forall id | id in ids :: id !in LuigiIds(ids, roles);
      assert forall id | id in ids :: !IsLuigi(roles[id]) by {
        forall id | id in ids ensures !IsLuigi(roles[id]) {
          LuigiIdsMembership(ids, roles, id);
        }
      }
      Ok(walls)
  }

  /**
    As written, once a second player has joined every frame fails, and the
    ghost's own frame always fails.
   */
  lemma {:induction false} FrameAsWrittenFails(walls: seq<Drawable>, visible: bool, ids: seq<Id>, roles: map<Id, Role>)
    requires KeyOrder(ids, roles) && RolesByJoinOrder(ids, roles)
    requires |ids| >= 2 || visible
    ensures FrameAsWritten(walls, visible, ids, roles).Err?
  {
    if !visible {
      assert ids[1] in ids && roles[ids[1]] == RoleForJoin(1);
    }
  }

  /** Wherever the source's frame succeeds, the corrected frame is the same list. */
  lemma FrameAgreesWhereSourceSucceeds(walls: seq<Drawable>, visible: bool, ids: seq<Id>, roles: map<Id, Role>,
                                       pts: map<Role, Point>)
    requires forall id | id in ids :: id in roles
    requires CoversPlaying(pts)
    ensures FrameAsWritten(walls, visible, ids, roles).Ok? ==>
              FrameAsWritten(walls, visible, ids, roles).value == Frame(walls, visible, ids, roles, pts)
  {
    if FrameAsWritten(walls, visible, ids, roles).Ok? {
      PlayerSpritesOfLuigis(ids, roles, pts);
    }
  }

  /**
    The answer to a frame request: the ghost's sprint test failing is the
    answer; otherwise the player count and the frame the requester sees.
   */
  function UpdateFor(walls: seq<Drawable>, requesterRole: Option<Role>, sprint: Result<bool, Fault>,
                     ids: seq<Id>, roles: map<Id, Role>, pts: map<Role, Point>): Result<UpdateData, Fault>
    requires forall id | id in ids :: id in roles
    requires CoversPlaying(pts)
  {
    match sprint
    case Err(e) => Err(e)
    case Ok(sprinting) =>
      Ok(UpdateData(|roles|, Frame(walls, GhostVisible(requesterRole, sprinting), ids, roles, pts)))
  }

  // ---------------------------------------------------------------------------
  // Configuration
  // ---------------------------------------------------------------------------

  /** `{ ...base, ...update }`: a shallow merge in which the update's keys win. */
  function Merge(base: Config, update: Config): (merged: Config)
    ensures merged.Keys == base.Keys + update.Keys
    ensures forall k | k in merged :: merged[k] == if k in update then update[k] else base[k]
  {
    base + update
  }

  /** The configuration `updateConfig` merges into: `undefined` spreads to nothing. */
  function StoredConfig(playerConfig: map<Id, Config>, id: Id): Config
  {
    if id in playerConfig then playerConfig[id] else map[]
  }

  /**
    After `updateConfig(id, c)` with a sprint key in `c`, a ghost handle made
    for `id` tests that key, whatever the key was before.
   */
  lemma SprintKeyFollowsConfigUpdate(playerConfig: map<Id, Config>, id: Id, c: Config)
    requires SprintAction in c
    ensures var updated := playerConfig[id := Merge(StoredConfig(playerConfig, id), c)];
            var g := MakePlayer(id, updated);
            g.config.Some? && KeyFor(g.config.value, SprintAction) == c[SprintAction]
  {
  }

  /**
    With join-order roles, at least one player, and a configuration for
    every registered player, the sprint test of the ghost found by the scan
    fails exactly when the first player has not yet reported its keys.
   */
  lemma GhostSprintFailsOnlyWithoutInput(ids: seq<Id>, roles: map<Id, Role>,
                                         playerConfig: map<Id, Config>, pressedKeys: map<Id, KeySnapshot>)
    requires KeyOrder(ids, roles) && RolesByJoinOrder(ids, roles) && |ids| >= 1
    requires roles.Keys <= playerConfig.Keys
    ensures IsSprinting(MakePlayer(LastGhost(ids, roles), playerConfig), pressedKeys).Err?
            <==> ids[0] !in pressedKeys
  {
    GhostIsFirstJoiner(ids, roles);
  }

  // ---------------------------------------------------------------------------
  // The game state
  // ---------------------------------------------------------------------------

  /** The pre-game check's condition: at least two players, all of them ready. */
  predicate ShouldBegin(playerCount: nat, playerReady: map<Id, bool>)
  {
    playerCount >= 2 && forall id | id in playerReady :: playerReady[id]
  }

  class ServerGame {
    /** `DefaultConfig`; its module (`common/default-config.mjs`) is not part of this model. */
    const defaultConfig: Config
    const gameMap: GameMap

    /** The registered ids in join order: the key order of the dictionaries below. */
    var ids: seq<Id>
    var playerRoles: map<Id, Role>
    var playerReady: map<Id, bool>
    var playerLastUpdate: map<Id, int>
    var playerConfig: map<Id, Config>
    var pressedKeys: map<Id, KeySnapshot>
    /** Whether the once-a-second pre-game interval is still scheduled. */
    var preGameLoopActive: bool
    /** How many times `begin` has notified all clients that the game started. */
    var gameStartBroadcasts: nat

    ghost predicate Valid()
      reads this
    {
      && Registry(ids, playerRoles, playerReady, playerConfig, playerLastUpdate)
      && gameMap.positions.Complete()
      && gameStartBroadcasts == (if preGameLoopActive then 0 else 1)
    }

    /** A new game on the `BASIC` map, with the pre-game check scheduled. */
    constructor (defaultConfig: Config, starts: StartingPositions)
      requires starts.Complete()
      ensures Valid()
      ensures this.defaultConfig == defaultConfig
      ensures gameMap.name == BasicName && gameMap.renderData == BasicWalls() && gameMap.positions == starts
      ensures ids == [] && playerRoles == map[] && playerReady == map[] && playerLastUpdate == map[]
      ensures playerConfig == map[] && pressedKeys == map[]
      ensures preGameLoopActive && gameStartBroadcasts == 0
    {
      this.defaultConfig := defaultConfig;
      var m := RandomMap(starts);
      gameMap := m;
      ids := [];
      playerRoles := map[];
      playerReady := map[];
      playerLastUpdate := map[];
      playerConfig := map[];
      pressedKeys := map[];
      preGameLoopActive := true;
      gameStartBroadcasts := 0;
    }

    /** The current point of each role's starting position. */
    function StartPoints(): map<Role, Point>
      reads gameMap.positions.table.Values
    {
      gameMap.positions.Snapshot()
    }

    /** `getPlayerCount()`: the number of registered players. */
    function GetPlayerCount(): (n: nat)
      reads this
      ensures Valid() ==> n == |ids|
    {
      KeyCount(ids, playerRoles);
      |playerRoles|
    }

    /** `getPlayerRole(id)`: the role of a registered id, the role its join position gave it. */
    function GetPlayerRole(id: Id): (r: Option<Role>)
      reads this
      ensures Valid() ==> (r.Some? <==> id in ids)
      ensures Valid() ==> forall i | 0 <= i < |ids| && ids[i] == id :: r == Some(RoleForJoin(i))
    {
      if id in playerRoles then Some(playerRoles[id]) else None
    }

    /**
      `newPlayer()`: registers a fresh id with the role for the current player
      count, not ready, the default configuration and `now` as last-seen time.
      No other player's entries change.
     */
    method NewPlayer(id: Id, now: int)
      requires Valid()
      requires id !in playerRoles
      modifies this
      ensures Valid()
      ensures ids == old(ids) + [id]
      ensures playerRoles == old(playerRoles)[id := RoleForJoin(old(GetPlayerCount()))]
      ensures playerReady == old(playerReady)[id := false]
      ensures playerConfig == old(playerConfig)[id := defaultConfig]
      ensures playerLastUpdate == old(playerLastUpdate)[id := now]
      ensures pressedKeys == old(pressedKeys)
      ensures preGameLoopActive == old(preGameLoopActive) && gameStartBroadcasts == old(gameStartBroadcasts)
    {
      var playerCount := GetPlayerCount();
      KeyCount(ids, playerRoles);
      JoinKeepsRegistry(ids, playerRoles, playerReady, playerConfig, playerLastUpdate, id, defaultConfig, now);
      playerReady := playerReady[id := false];
      playerLastUpdate := playerLastUpdate[id := now];
      playerRoles := playerRoles[id := RoleForJoin(playerCount)];
      ids := ids + [id];
      playerConfig := playerConfig[id := defaultConfig];
    }

    /**
      `updateConfig(id, config)`: the player's configuration becomes the
      shallow merge of the stored one (none for an unknown id) and `config`.
     */
    method UpdateConfig(id: Id, config: Config)
      requires Valid()
      modifies this
      ensures Valid()
      ensures playerConfig == old(playerConfig)[id := Merge(StoredConfig(old(playerConfig), id), config)]
      ensures ids == old(ids) && playerRoles == old(playerRoles) && playerReady == old(playerReady)
      ensures playerLastUpdate == old(playerLastUpdate) && pressedKeys == old(pressedKeys)
      ensures preGameLoopActive == old(preGameLoopActive) && gameStartBroadcasts == old(gameStartBroadcasts)
    {
      playerConfig := playerConfig[id := Merge(StoredConfig(playerConfig, id), config)];
    }

    /** The readiness scan of `preGameLoop`: whether every registered player is ready. */
    method AreAllReady() returns (areAllReady: bool)
      requires Valid()
      ensures areAllReady <==> forall id | id in playerReady :: playerReady[id]
    {
      areAllReady := true;
      var i := 0;
      while i < |ids|
        invariant 0 <= i <= |ids|
        invariant areAllReady <==> forall j | 0 <= j < i :: playerReady[ids[j]]
      {
        areAllReady := areAllReady && playerReady[ids[i]];
        i := i + 1;
      }
    }

    /**
      `begin()`: cancels the pre-game interval and notifies every client once.
      Only the interval calls it, so it runs while the interval is scheduled.
     */
    method Begin()
      requires Valid() && preGameLoopActive
      modifies this
      ensures Valid()
      ensures !preGameLoopActive && gameStartBroadcasts == 1
      ensures ids == old(ids) && playerRoles == old(playerRoles) && playerReady == old(playerReady)
      ensures playerConfig == old(playerConfig) && playerLastUpdate == old(playerLastUpdate)
      ensures pressedKeys == old(pressedKeys)
    {
      preGameLoopActive := false;
      gameStartBroadcasts := gameStartBroadcasts + 1;
    }

    /**
      `preGameLoop()`: begins the game when at least two players are
      registered and all are ready; otherwise changes nothing.
     */
    method PreGameLoop()
      requires Valid() && preGameLoopActive
      modifies this
      ensures Valid()
      ensures preGameLoopActive == !ShouldBegin(|ids|, playerReady)
      ensures gameStartBroadcasts == if ShouldBegin(|ids|, playerReady) then 1 else 0
      ensures ids == old(ids) && playerRoles == old(playerRoles) && playerReady == old(playerReady)
      ensures playerConfig == old(playerConfig) && playerLastUpdate == old(playerLastUpdate)
      ensures pressedKeys == old(pressedKeys)
    {
      if !(GetPlayerCount() >= 2) {
        return;
      }
      var areAllReady := AreAllReady();
      if !areAllReady {
        return;
      }
      Begin();
    }

    /**
      One firing of the once-a-second interval: it runs `preGameLoop` while it
      is still scheduled. Once the game has begun, nothing changes, so the
      game starts at most once and never returns to the pre-game phase.
     */
    method PreGameTimerTick()
      requires Valid()
      modifies this
      ensures Valid()
      ensures !old(preGameLoopActive) ==> !preGameLoopActive && gameStartBroadcasts == 1
      ensures old(preGameLoopActive) ==> preGameLoopActive == !ShouldBegin(|ids|, playerReady)
      ensures gameStartBroadcasts <= 1
      ensures ids == old(ids) && playerRoles == old(playerRoles) && playerReady == old(playerReady)
      ensures playerConfig == old(playerConfig) && playerLastUpdate == old(playerLastUpdate)
      ensures pressedKeys == old(pressedKeys)
    {
      if preGameLoopActive {
        PreGameLoop();
      }
    }

    /**
      `getGhostPlayer()`: scans the registered ids in order and makes a ghost
      handle for the last one whose role is the ghost (`NoGhostId` if none).
     */
    method GetGhostPlayer() returns (ghostPlayer: Player)
      requires Valid()
      ensures ghostPlayer == MakePlayer(LastGhost(ids, playerRoles), playerConfig)
      ensures |ids| >= 1 ==> ghostPlayer.id == ids[0] && playerRoles[ghostPlayer.id] == Ghost && ghostPlayer.config.Some?
    {
      var ghostId := NoGhostId;
      var i := 0;
      while i < |ids|
        invariant 0 <= i <= |ids|
        invariant ghostId == LastGhost(ids[..i], playerRoles)
      {
        assert ids[..i + 1][..i] == ids[..i];
        if playerRoles[ids[i]] == Ghost {
          ghostId := ids[i];
        }
        i := i + 1;
      }
      assert ids[..i] == ids;
      if |ids| >= 1 {
        GhostIsFirstJoiner(ids, playerRoles);
      }
      ghostPlayer := MakePlayer(ghostId, playerConfig);
    }

    /** `renderGhost(renderData)`: appends the ghost sprite at the ghost's starting position. */
    method RenderGhost(renderData: seq<Drawable>) returns (extended: seq<Drawable>)
      requires Valid()
      ensures CoversPlaying(StartPoints())
      ensures extended == renderData + [GhostSprite(StartPoints())]
    {
      var posData := gameMap.positions.table[Ghost];
      extended := renderData + [Sprite(GhostImage, posData.At())];
    }

    /**
      `renderPlayers(renderData)`: appends one luigi sprite per registered id
      whose role is a luigi, in registration order.
     */
    method RenderPlayers(renderData: seq<Drawable>) returns (extended: seq<Drawable>)
      requires Valid()
      ensures CoversPlaying(StartPoints())
      ensures extended == renderData + PlayerSprites(ids, playerRoles, StartPoints())
    {
      extended := renderData;
      var i := 0;
      while i < |ids|
        invariant 0 <= i <= |ids|
        invariant extended == renderData + PlayerSprites(ids[..i], playerRoles, StartPoints())
      {
        assert ids[..i + 1][..i] == ids[..i];
        var role := playerRoles[ids[i]];
        if IsLuigi(role) {
          var posData := gameMap.positions.table[role];
          extended := extended + [Sprite(LuigiImage, posData.At())];
        }
        i := i + 1;
      }
      assert ids[..i] == ids;
    }

    /** What `getUpdateData` answers `id` in the current state. */
    ghost function ExpectedUpdate(id: Id): Result<UpdateData, Fault>
      reads this, gameMap.positions.table.Values
      requires Valid()
    {
      var ghostPlayer := MakePlayer(LastGhost(ids, playerRoles), playerConfig);
      UpdateFor(gameMap.renderData, GetPlayerRole(id), IsSprinting(ghostPlayer, pressedKeys),
                ids, playerRoles, StartPoints())
    }

    /**
      The frame-building half of `getUpdateData`: the player count, a copy of
      the walls, the ghost sprite when the requester is the ghost or the ghost
      sprints, then the luigi sprites. The ghost's sprint test fails (a
      `TypeError` in the source) when no ghost handle has a configuration or
      the ghost has no pressed-key snapshot; with a player registered, that is
      exactly when the first player has not reported its keys.
     */
    method BuildUpdate(id: Id) returns (r: Result<UpdateData, Fault>)
      requires Valid()
      ensures r == ExpectedUpdate(id)
      ensures r.Ok? ==> r.value.playerCount == |ids|
      ensures |ids| >= 1 ==> (r.Err? <==> ids[0] !in pressedKeys)
    {
      ghost var pts := StartPoints();
      var playerCount := GetPlayerCount();
      var renderData := gameMap.GetRenderData();
      var role := GetPlayerRole(id);
      var ghostPlayer := GetGhostPlayer();
      var isGhost := role == Some(Ghost);
      var sprint := IsSprinting(ghostPlayer, pressedKeys);
      if sprint.Err? {
        r := Err(sprint.error);
      } else {
        var shouldPlayersSeeGhost := sprint.value;
        var visible := isGhost || shouldPlayersSeeGhost;
        if visible {
          renderData := RenderGhost(renderData);
        }
        assert renderData == gameMap.renderData + (if visible then [GhostSprite(pts)] else []);
        renderData := RenderPlayers(renderData);
        r := Ok(UpdateData(playerCount, renderData));
      }
      if |ids| >= 1 {
        GhostSprintFailsOnlyWithoutInput(ids, playerRoles, playerConfig, pressedKeys);
      }
    }

    /**
      `getUpdateData({id, pressedKeys})`: stamps the requester's last-seen time,
      replaces its pressed-key snapshot, then builds the frame. The id is not
      checked against the registered players; the two updates have happened
      even when the frame fails. The ghost itself always gets a frame.
     */
    method GetUpdateData(id: Id, keys: KeySnapshot, now: int) returns (r: Result<UpdateData, Fault>)
      requires Valid()
      modifies this
      ensures Valid()
      ensures pressedKeys == old(pressedKeys)[id := keys]
      ensures playerLastUpdate == old(playerLastUpdate)[id := now]
      ensures ids == old(ids) && playerRoles == old(playerRoles) && playerReady == old(playerReady)
      ensures playerConfig == old(playerConfig)
      ensures preGameLoopActive == old(preGameLoopActive) && gameStartBroadcasts == old(gameStartBroadcasts)
      ensures r == ExpectedUpdate(id)
      ensures |ids| >= 1 ==> (r.Err? <==> ids[0] !in pressedKeys)
      ensures GetPlayerRole(id) == Some(Ghost) ==> r.Ok?
    {
      playerLastUpdate := playerLastUpdate[id := now];
      pressedKeys := pressedKeys[id := keys];
      r := BuildUpdate(id);
      if GetPlayerRole(id) == Some(Ghost) {
        GhostIsFirstJoiner(ids, playerRoles);
      }
    }
  }
}
