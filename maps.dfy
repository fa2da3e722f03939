/**
  The game map (`server/game/maps.mjs`): a name, the list of wall drawables
  the client paints, and the starting position of each playing role.

  The source's `GameMap` stores only `name` and `renderData`, while the game
  reads `positions[role]` from it; here the map carries an explicit
  `StartingPositions` table for that lookup.
 */
module Maps {
  import opened Drawables
  import opened Positions

  const BasicMapWidth: real := 300.0
  const BasicWallWidth: real := 30.0
  const BasicName: string := "Basic"

  /** A wall that lies inside the square [0, size] x [0, size]. */
  predicate WithinSquare(d: Drawable, size: real)
  {
    d.Wall? && 0.0 <= d.x && 0.0 <= d.y && d.x + d.w <= size && d.y + d.h <= size
  }

  /** The four border walls of the `BASIC` map: top, right, left, bottom. */
  function BasicWalls(): (walls: seq<Drawable>)
    ensures |walls| == 4
    ensures forall i | 0 <= i < |walls| :: WithinSquare(walls[i], BasicMapWidth)
    ensures forall i | 0 <= i < |walls| :: walls[i].Wall? && (walls[i].w == BasicWallWidth || walls[i].h == BasicWallWidth)
  {
    [ Wall(0.0, 0.0, BasicMapWidth, BasicWallWidth),
      Wall(BasicMapWidth - BasicWallWidth, 0.0, BasicWallWidth, BasicMapWidth),
      Wall(0.0, 0.0, BasicWallWidth, BasicMapWidth),
      Wall(0.0, BasicMapWidth - BasicWallWidth, BasicMapWidth, BasicWallWidth) ]
  }

  /** The four walls of `BASIC`, as the four rectangles (x, y, w, h) of its definition. */
  lemma BasicWallsAreTheBorder()
    ensures BasicWalls() == [Wall(0.0, 0.0, 300.0, 30.0), Wall(270.0, 0.0, 30.0, 300.0),
                             Wall(0.0, 0.0, 30.0, 300.0), Wall(0.0, 270.0, 300.0, 30.0)]
  {
  }

  class GameMap {
    const name: string
    const renderData: seq<Drawable>
    const positions: StartingPositions

    constructor (name: string, renderData: seq<Drawable>, positions: StartingPositions)
      ensures this.name == name && this.renderData == renderData && this.positions == positions
    {
      this.name := name;
      this.renderData := renderData;
      this.positions := positions;
    }

    /**
      `getRenderData()`: a copy of the walls made by encoding every element and
      decoding it again. The copy equals the map's own list element for
      element, and the map is left as it was.
     */
    method GetRenderData() returns (cloned: seq<Drawable>)
      ensures cloned == renderData
    {
      var raw := seq(|renderData|, i requires 0 <= i < |renderData| => ToJson(renderData[i]));
      cloned := [];
      var i := 0;
      while i < |raw|
        invariant 0 <= i <= |raw|
        invariant cloned == renderData[..i]
      {
        DecodeEncode(renderData[i]);
        cloned := cloned + [FromJson(raw[i]).value];
        i := i + 1;
      }
    }
  }

  /**
    `randomMap()`: always the `BASIC` map. The source hands out the one shared
    `GameMap.BASIC` object; a map never changes, so the contract states its
    contents and not whether the object is shared.
   */
  method RandomMap(positions: StartingPositions) returns (m: GameMap)
    ensures m.name == BasicName && m.renderData == BasicWalls() && m.positions == positions
  {
    m := new GameMap(BasicName, BasicWalls(), positions);
  }
}
