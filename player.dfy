/**
  Player handles (`server/game/player.mjs`): a handle records a player's id
  and the configuration stored for it when the handle is made, and answers
  key queries from the game's latest pressed-key snapshot for that id.
  The game's dictionaries are passed in; no query changes them.
 */
module Players {
  import opened Wrappers

  /** Player ids (random UUID strings in the source). */
  type Id = string

  /** Per-player configuration: action name -> key name. */
  type Config = map<string, string>

  /** The latest pressed-key report of one player: key name -> pressed. */
  type KeySnapshot = map<string, bool>

  /** A JavaScript `TypeError` raised by reading a property of `undefined`. */
  datatype Fault = TypeError(message: string)

  /** The configuration action holding the ghost's sprint key. */
  const SprintAction: string := "GhostSprint"

  /**
    A handle on one player. `config` is `None` when the game had no
    configuration stored for `id` when the handle was made.
   */
  datatype Player = Player(id: Id, config: Option<Config>)

  /** `new Player(id)` / `new Ghost(id)`: reads the configuration stored for `id`. */
  function MakePlayer(id: Id, playerConfig: map<Id, Config>): (p: Player)
    ensures p.id == id
    ensures p.config.Some? <==> id in playerConfig
    ensures p.config.Some? ==> p.config.value == playerConfig[id]
  {
    Player(id, if id in playerConfig then Some(playerConfig[id]) else None)
  }

  /**
    The key a configuration names for an action. A missing action reads as
    `undefined`, which as a property key is the name "undefined".
   */
  function KeyFor(config: Config, action: string): (key: string)
    ensures action in config ==> key == config[action]
    ensures action !in config ==> key == "undefined"
  {
    if action in config then config[action] else "undefined"
  }

  /**
    `isPressing(key)`: the player's latest snapshot entry for `key`; a key the
    snapshot lacks is not pressed. With no snapshot for the player the lookup
    reads a property of `undefined` and fails.
   */
  function IsPressing(p: Player, pressedKeys: map<Id, KeySnapshot>, key: string): (r: Result<bool, Fault>)
    ensures r.Err? <==> p.id !in pressedKeys
    ensures r.Ok? ==> (r.value <==> key in pressedKeys[p.id] && pressedKeys[p.id][key])
  {
    if p.id !in pressedKeys then Err(TypeError("no pressed-key snapshot"))
    else Ok(key in pressedKeys[p.id] && pressedKeys[p.id][key])
  }

  /**
    `Ghost.isSprinting()`: whether the key configured for `GhostSprint` is
    pressed. With no configuration on the handle `config.GhostSprint` fails.
   */
  function IsSprinting(g: Player, pressedKeys: map<Id, KeySnapshot>): (r: Result<bool, Fault>)
    ensures g.config.None? ==> r.Err?
    ensures g.config.Some? ==> r == IsPressing(g, pressedKeys, KeyFor(g.config.value, SprintAction))
  {
    match g.config
    case None => Err(TypeError("no configuration"))
    case Some(config) => IsPressing(g, pressedKeys, KeyFor(config, SprintAction))
  }

  /**
    The sprint test fails exactly when the handle has no configuration or the
    player has no snapshot; otherwise it reports whether the sprint key is held.
   */
  lemma SprintingFailsOnlyWithoutData(g: Player, pressedKeys: map<Id, KeySnapshot>)
    ensures IsSprinting(g, pressedKeys).Err? <==> g.config.None? || g.id !in pressedKeys
    ensures IsSprinting(g, pressedKeys).Ok? ==>
              (IsSprinting(g, pressedKeys).value <==>
                 var key := KeyFor(g.config.value, SprintAction);
                 key in pressedKeys[g.id] && pressedKeys[g.id][key])
  {
  }
}
