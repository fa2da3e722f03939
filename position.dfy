/**
  Positions on the map (`server/game/position.mjs`): a mutable point that
  moves one step in one of four screen directions, and the table of starting
  positions, one per playing role.
 */
module Positions {
  import opened Wrappers
  import opened Roles
  import opened MathUtils

  /** `Directions`: screen coordinates, so UP decreases y. */
  const UP: int := 0
  const DOWN: int := 1
  const LEFT: int := 2
  const RIGHT: int := 3

  predicate IsDirection(dir: int)
  {
    dir == UP || dir == DOWN || dir == LEFT || dir == RIGHT
  }

  /** The `TypeError("Invalid direction.")` thrown by `move`. */
  datatype MoveError = InvalidDirection

  /** Where a point ends up after `move(dir, distance)`, or the error. */
  function Moved(p: Point, dir: int, distance: real): Result<Point, MoveError>
  {
    if dir == UP then Ok(Point(p.x, p.y - distance))
    else if dir == DOWN then Ok(Point(p.x, p.y + distance))
    else if dir == LEFT then Ok(Point(p.x - distance, p.y))
    else if dir == RIGHT then Ok(Point(p.x + distance, p.y))
    else Err(InvalidDirection)
  }

  class PositionTracker {
    var x: real
    var y: real

    constructor (x: real, y: real)
      ensures this.x == x && this.y == y
    {
      this.x := x;
      this.y := y;
    }

    function At(): Point
      reads this
    {
      Point(x, y)
    }

    /**
      `move(dir, distance)`: one coordinate changes by `distance`, the other is
      kept; any other direction is refused and nothing changes.
     */
    method Move(dir: int, distance: real) returns (r: Result<(), MoveError>)
      modifies this
      ensures dir == UP ==> x == old(x) && y == old(y) - distance
      ensures dir == DOWN ==> x == old(x) && y == old(y) + distance
      ensures dir == LEFT ==> x == old(x) - distance && y == old(y)
      ensures dir == RIGHT ==> x == old(x) + distance && y == old(y)
      ensures !IsDirection(dir) ==> x == old(x) && y == old(y)
      ensures r.Ok? <==> IsDirection(dir)
      ensures r.Ok? ==> Moved(old(At()), dir, distance) == Ok(At())
    {
      if dir == UP {
        y := y - distance;
      } else if dir == DOWN {
        y := y + distance;
      } else if dir == LEFT {
        x := x - distance;
      } else if dir == RIGHT {
        x := x + distance;
      } else {
        return Err(InvalidDirection);
      }
      r := Ok(());
    }
  }

  /** A move of a valid direction is undone by the move in the opposite direction. */
  lemma OppositeMovesCancel(p: Point, distance: real)
    ensures Moved(Moved(p, UP, distance).value, DOWN, distance) == Ok(p)
    ensures Moved(Moved(p, DOWN, distance).value, UP, distance) == Ok(p)
    ensures Moved(Moved(p, LEFT, distance).value, RIGHT, distance) == Ok(p)
    ensures Moved(Moved(p, RIGHT, distance).value, LEFT, distance) == Ok(p)
  {
  }

  /** Moving a distance of zero in a valid direction changes nothing. */
  lemma ZeroMoveIsIdentity(p: Point, dir: int)
    requires IsDirection(dir)
    ensures Moved(p, dir, 0.0) == Ok(p)
  {
  }

  /** Exactly the four directions are accepted. */
  lemma OnlyFourDirections(p: Point, dir: int, distance: real)
    ensures Moved(p, dir, distance).Ok? <==> IsDirection(dir)
    ensures !IsDirection(dir) ==> Moved(p, dir, distance) == Err(InvalidDirection)
  {
  }

  /**
    `StartingPositions`: one tracker per playing role, filled from the five
    constructor arguments in the order ghost, luigi1, luigi2, luigi3, luigi4.
   */
  class StartingPositions {
    const table: map<Role, PositionTracker>

    /** Every playing role, and no other, has a starting position. */
    predicate Complete()
    {
      forall r: Role :: r in table <==> IsPlaying(r)
    }

    constructor (ghostStart: PositionTracker, luigi1: PositionTracker, luigi2: PositionTracker,
                 luigi3: PositionTracker, luigi4: PositionTracker)
      ensures Complete()
      ensures table[Ghost] == ghostStart && table[Luigi1] == luigi1 && table[Luigi2] == luigi2
      ensures table[Luigi3] == luigi3 && table[Luigi4] == luigi4
    {
      table := map[Ghost := ghostStart, Luigi1 := luigi1, Luigi2 := luigi2,
                   Luigi3 := luigi3, Luigi4 := luigi4];
    }

    /** The current point of every starting-position tracker. */
    function Snapshot(): (pts: map<Role, Point>)
      reads table.Values
      ensures pts.Keys == table.Keys
      ensures forall r | r in pts :: pts[r] == table[r].At()
    {
      map r | r in table :: table[r].At()
    }
  }
}
