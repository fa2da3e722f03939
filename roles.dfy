/**
  The player roles. The module that names them (`common/role.mjs`) is not
  part of this model; only the six tags the game code uses are kept.
 */
module Roles {

  datatype Role = Ghost | Luigi1 | Luigi2 | Luigi3 | Luigi4 | Spectator

  /** The roles that have a starting position and a sprite on the map. */
  predicate IsPlaying(r: Role)
  {
    r != Spectator
  }
}
