/**
 * Shape selection for wall tiles (src/TileWall.cpp, include/TileWall.h).
 * A wall looks at which neighbours are open corridors, which belong to the
 * ghost house and which are walls, and picks one of the WallType shapes in
 * two passes: a straight pass over the four sides, then an outer-corner
 * pass over all eight neighbours that refines a plain block.
 */
module TileWalls {
  import opened Tiles

  datatype WallType =
    | Block
    | Left
    | Right
    | Top
    | Bottom
    | TopLeftCorner
    | TopRightCorner
    | BottomLeftCorner
    | BottomRightCorner
    | InnerTopLeft
    | InnerTopRight
    | InnerBottomLeft
    | InnerBottomRight
    | NoShape

  /** What the classifier sees of one neighbour: nothing (a null link) or its type and ghost-house flag. */
  datatype Neighbor = Absent | Present(tileType: TileType, ghostHouse: bool)

  /** The four side neighbours of a wall. */
  datatype Sides = Sides(up: Neighbor, down: Neighbor, left: Neighbor, right: Neighbor)

  /** The four side neighbours plus the four diagonal ones. */
  datatype Ring = Ring(up: Neighbor, down: Neighbor, left: Neighbor, right: Neighbor,
                       upLeft: Neighbor, upRight: Neighbor, downLeft: Neighbor, downRight: Neighbor)
  {
    function SidesOf(): Sides
    {
      Sides(up, down, left, right)
    }
  }

  /** A side is open when a walkable tile lies there; a missing neighbour is closed. */
  predicate Open(n: Neighbor)
  {
    n.Present? && IsWalkable(n.tileType)
  }

  predicate InHouse(n: Neighbor)
  {
    n.Present? && n.ghostHouse
  }

  predicate IsWallTile(n: Neighbor)
  {
    n.Present? && n.tileType == Wall
  }

  predicate IsOuterCorner(w: WallType)
  {
    w in {TopLeftCorner, TopRightCorner, BottomLeftCorner, BottomRightCorner}
  }

  /** The number of open sides. */
  function OpenCount(s: Sides): (n: nat)
    ensures n <= 4
    ensures n == 0 <==> !Open(s.up) && !Open(s.down) && !Open(s.left) && !Open(s.right)
    ensures n == 4 <==> Open(s.up) && Open(s.down) && Open(s.left) && Open(s.right)
  {
    (if Open(s.up) then 1 else 0) + (if Open(s.down) then 1 else 0)
    + (if Open(s.left) then 1 else 0) + (if Open(s.right) then 1 else 0)
  }

  /**
   * The straight pass: the decision chain of setWallTypeStraight, checked in
   * the source's order.
   */
  function StraightWallType(s: Sides): (w: WallType)
    // all four sides open: an isolated block
    ensures Open(s.up) && Open(s.down) && Open(s.left) && Open(s.right) ==> w == Block
    // two adjacent open sides give the inner corner, whatever the ghost house says
    ensures Open(s.up) && Open(s.right) && !Open(s.down) && !Open(s.left) ==> w == InnerBottomRight
    ensures Open(s.up) && Open(s.left) && !Open(s.down) && !Open(s.right) ==> w == InnerBottomLeft
    ensures Open(s.down) && Open(s.right) && !Open(s.up) && !Open(s.left) ==> w == InnerTopRight
    ensures Open(s.down) && Open(s.left) && !Open(s.up) && !Open(s.right) ==> w == InnerTopLeft
    // exactly one open side: the thin wall of the same name
    ensures Open(s.up) && !Open(s.down) && !Open(s.left) && !Open(s.right) ==> w == Top
    ensures Open(s.down) && !Open(s.up) && !Open(s.left) && !Open(s.right) ==> w == Bottom
    ensures Open(s.left) && !Open(s.up) && !Open(s.down) && !Open(s.right) ==> w == Left
    ensures Open(s.right) && !Open(s.up) && !Open(s.down) && !Open(s.left) ==> w == Right
    // no open side falls back to a block
    ensures !Open(s.up) && !Open(s.down) && !Open(s.left) && !Open(s.right) ==> w == Block
    // the straight pass never yields an outer corner or the NONE shape
    ensures !IsOuterCorner(w) && w != NoShape
  {
    var up, down, left, right := Open(s.up), Open(s.down), Open(s.left), Open(s.right);
    if up && down && left && right then Block
    else if up && right && !down && !left then InnerBottomRight
    else if up && left && !down && !right then InnerBottomLeft
    else if down && right && !up && !left then InnerTopRight
    else if down && left && !up && !right then InnerTopLeft
    else if left && right && !up && !down && InHouse(s.left) then Right
    else if left && right && !up && !down && InHouse(s.right) then Left
    else if up && down && !left && !right && InHouse(s.up) then Bottom
    else if up && down && !left && !right && InHouse(s.down) then Top
    else if up && down && right && !left && InHouse(s.right) then Top
    else if up && down && left && !right && InHouse(s.left) then Top
    else if left && right && !up && !down then Block
    else if up && down && !left && !right then Block
    else if up && !down && !left && !right then Top
    else if down && !up && !left && !right then Bottom
    else if left && !right && !up && !down then Left
    else if right && !left && !up && !down then Right
    else Block
  }

  /**
   * An independent statement of the straight pass, organised by how many
   * sides are open rather than by the order of the source's checks.
   */
  function StraightByOpenCount(s: Sides): WallType
  {
    var up, down, left, right := Open(s.up), Open(s.down), Open(s.left), Open(s.right);
    match OpenCount(s)
    case 1 =>
      if up then Top else if down then Bottom else if left then Left else Right
    case 2 =>
      if up && right then InnerBottomRight
      else if up && left then InnerBottomLeft
      else if down && right then InnerTopRight
      else if down && left then InnerTopLeft
      else if left && right then
        (if InHouse(s.left) then Right else if InHouse(s.right) then Left else Block)
      else
        (if InHouse(s.up) then Bottom else if InHouse(s.down) then Top else Block)
    case 3 =>
      if up && down && ((!left && InHouse(s.right)) || (!right && InHouse(s.left))) then Top
      else Block
    case _ => Block
  }

  /** The source's check order and the open-count table agree on every neighbourhood. */
  lemma StraightMatchesOpenCount(s: Sides)
    ensures StraightWallType(s) == StraightByOpenCount(s)
  {
  }

  /** Ghost-house walls: only the two open sides matter, and the house side picks the shape. */
  lemma GhostHouseStraightWalls(s: Sides)
    ensures Open(s.left) && Open(s.right) && !Open(s.up) && !Open(s.down) ==>
      StraightWallType(s) == (if InHouse(s.left) then Right else if InHouse(s.right) then Left else Block)
    ensures Open(s.up) && Open(s.down) && !Open(s.left) && !Open(s.right) ==>
      StraightWallType(s) == (if InHouse(s.up) then Bottom else if InHouse(s.down) then Top else Block)
  {
  }

  /** True when every one of the eight neighbours is a wall tile. */
  predicate AllWalls(r: Ring)
  {
    IsWallTile(r.up) && IsWallTile(r.down) && IsWallTile(r.left) && IsWallTile(r.right)
    && IsWallTile(r.upLeft) && IsWallTile(r.upRight) && IsWallTile(r.downLeft) && IsWallTile(r.downRight)
  }

  /** True when none of the four diagonals is an open corridor. */
  predicate NoOpenDiagonal(r: Ring)
  {
    !Open(r.upLeft) && !Open(r.upRight) && !Open(r.downRight) && !Open(r.downLeft)
  }

  /** The outer-corner pass of setWallTypeOuterCorners, applied to the shape `current` left by the straight pass. */
  function OuterCornerType(current: WallType, r: Ring): (w: WallType)
    // only a block is refined
    ensures current != Block ==> w == current
    // a block buried in walls stays a block
    ensures current == Block && AllWalls(r) ==> w == Block
    // otherwise the first open diagonal, in the order up-left, up-right, down-right, down-left, decides
    ensures current == Block && !AllWalls(r) && Open(r.upLeft) ==> w == TopLeftCorner
    ensures current == Block && !AllWalls(r) && !Open(r.upLeft) && Open(r.upRight) ==> w == TopRightCorner
    ensures (current == Block && !AllWalls(r) && !Open(r.upLeft) && !Open(r.upRight)
             && Open(r.downRight)) ==> w == BottomRightCorner
    ensures (current == Block && !AllWalls(r) && !Open(r.upLeft) && !Open(r.upRight)
             && !Open(r.downRight) && Open(r.downLeft)) ==> w == BottomLeftCorner
    // then the wall pairs down+right, down+left, up+right, up+left
    ensures current == Block && !AllWalls(r) && NoOpenDiagonal(r) ==>
      w == (if IsWallTile(r.down) && IsWallTile(r.right) then TopLeftCorner
            else if IsWallTile(r.down) && IsWallTile(r.left) then TopRightCorner
            else if IsWallTile(r.up) && IsWallTile(r.right) then BottomLeftCorner
            else if IsWallTile(r.up) && IsWallTile(r.left) then BottomRightCorner
            else Block)
    // a block ends as a block or one of the four outer corners
    ensures current == Block ==> w == Block || IsOuterCorner(w)
  {
    if current != Block then current
    else if AllWalls(r) then Block
    else if Open(r.upLeft) then TopLeftCorner
    else if Open(r.upRight) then TopRightCorner
    else if Open(r.downRight) then BottomRightCorner
    else if Open(r.downLeft) then BottomLeftCorner
    else if IsWallTile(r.down) && IsWallTile(r.right) then TopLeftCorner
    else if IsWallTile(r.down) && IsWallTile(r.left) then TopRightCorner
    else if IsWallTile(r.up) && IsWallTile(r.right) then BottomLeftCorner
    else if IsWallTile(r.up) && IsWallTile(r.left) then BottomRightCorner
    else Block
  }

  /** Running the corner pass a second time changes nothing. */
  lemma OuterCornerIdempotent(current: WallType, r: Ring)
    ensures OuterCornerType(OuterCornerType(current, r), r) == OuterCornerType(current, r)
  {
  }

  /** setWallTypeByNeighbors: the straight pass followed by the corner pass. */
  function WallTypeByNeighbors(r: Ring): (w: WallType)
    ensures StraightWallType(r.SidesOf()) != Block ==> w == StraightWallType(r.SidesOf())
    ensures StraightWallType(r.SidesOf()) == Block ==> w == Block || IsOuterCorner(w)
    ensures w != NoShape
  {
    OuterCornerType(StraightWallType(r.SidesOf()), r)
  }

  /**
   * A final shape is an outer corner exactly when the straight pass produced
   * a block and the corner pass refined it: outer corners come only from the
   * second pass.
   */
  lemma {:induction false} OuterCornerOnlyFromBlock(r: Ring)
    ensures IsOuterCorner(WallTypeByNeighbors(r)) <==>
      StraightWallType(r.SidesOf()) == Block && OuterCornerType(Block, r) != Block
  {
    var s := StraightWallType(r.SidesOf());
    if s != Block {
      assert !IsOuterCorner(s);
    }
  }

  /** What a wall sees of a linked neighbour. */
  function View(t: Tile?): Neighbor
    reads t
  {
    if t == null then Absent else Present(t.tileType, t.ghostHouse)
  }

  function LeftOf(t: Tile?): Tile?
    reads t
  {
    if t == null then null else t.tileLeft
  }

  function RightOf(t: Tile?): Tile?
    reads t
  {
    if t == null then null else t.tileRight
  }

  /** The tiles a wall inspects: its four sides and the side links of its upper and lower neighbours. */
  function Around(t: Tile): set<Tile?>
    reads t, t.tileUp, t.tileDown
  {
    {t, t.tileUp, t.tileDown, t.tileLeft, t.tileRight,
     LeftOf(t.tileUp), RightOf(t.tileUp), LeftOf(t.tileDown), RightOf(t.tileDown)}
  }

  /** The eight-neighbour view of a tile, diagonals taken through the up and down links as the source does. */
  function RingOf(t: Tile): Ring
    reads Around(t)
  {
    Ring(View(t.tileUp), View(t.tileDown), View(t.tileLeft), View(t.tileRight),
         View(LeftOf(t.tileUp)), View(RightOf(t.tileUp)),
         View(LeftOf(t.tileDown)), View(RightOf(t.tileDown)))
  }

  /** A wall tile: the tile it extends and its current shape. */
  class TileWall {
    const base: Tile
    var wallType: WallType

    constructor (wallType: WallType, base: Tile)
      ensures this.wallType == wallType && this.base == base
    {
      this.wallType := wallType;
      this.base := base;
    }

    /** setWallTypeStraight: classifies from the four side neighbours. */
    method SetWallTypeStraight()
      modifies this`wallType
      ensures wallType == StraightWallType(old(RingOf(base)).SidesOf())
    {
      var up, down := View(base.tileUp), View(base.tileDown);
      var left, right := View(base.tileLeft), View(base.tileRight);
      var openUp, openDown, openLeft, openRight := Open(up), Open(down), Open(left), Open(right);

      if openUp && openDown && openLeft && openRight {
        wallType := Block;
        return;
      }
      if openUp && openRight && !openDown && !openLeft {
        wallType := InnerBottomRight;
        return;
      }
      if openUp && openLeft && !openDown && !openRight {
        wallType := InnerBottomLeft;
        return;
      }
      if openDown && openRight && !openUp && !openLeft {
        wallType := InnerTopRight;
        return;
      }
      if openDown && openLeft && !openUp && !openRight {
        wallType := InnerTopLeft;
        return;
      }

      var upHouse, downHouse := InHouse(up), InHouse(down);
      var leftHouse, rightHouse := InHouse(left), InHouse(right);

      if openLeft && openRight && !openUp && !openDown && leftHouse {
        wallType := Right;
        return;
      }
      if openLeft && openRight && !openUp && !openDown && rightHouse {
        wallType := Left;
        return;
      }
      if openUp && openDown && !openLeft && !openRight && upHouse {
        wallType := Bottom;
        return;
      }
      if openUp && openDown && !openLeft && !openRight && downHouse {
        wallType := Top;
        return;
      }
      if openUp && openDown && openRight && !openLeft && rightHouse {
        wallType := Top;
        return;
      }
      if openUp && openDown && openLeft && !openRight && leftHouse {
        wallType := Top;
        return;
      }
      if openLeft && openRight && !openUp && !openDown {
        wallType := Block;
        return;
      }
      if openUp && openDown && !openLeft && !openRight {
        wallType := Block;
        return;
      }
      if openUp && !openDown && !openLeft && !openRight {
        wallType := Top;
        return;
      }
      if openDown && !openUp && !openLeft && !openRight {
        wallType := Bottom;
        return;
      }
      if openLeft && !openRight && !openUp && !openDown {
        wallType := Left;
        return;
      }
      if openRight && !openLeft && !openUp && !openDown {
        wallType := Right;
        return;
      }
      wallType := Block;
    }

    /** setWallTypeOuterCorners: refines a block using all eight neighbours. */
    method SetWallTypeOuterCorners()
      modifies this`wallType
      ensures wallType == OuterCornerType(old(wallType), old(RingOf(base)))
    {
      if wallType != Block {
        return;
      }
      var tu, td, tl, tr := base.tileUp, base.tileDown, base.tileLeft, base.tileRight;
      var tul := if tu != null then tu.tileLeft else null;
      var tur := if tu != null then tu.tileRight else null;
      var tdl := if td != null then td.tileLeft else null;
      var tdr := if td != null then td.tileRight else null;

      var up, down, left, right := View(tu), View(td), View(tl), View(tr);
      var upLeft, upRight, downLeft, downRight := View(tul), View(tur), View(tdl), View(tdr);

      var upWall, downWall := IsWallTile(up), IsWallTile(down);
      var leftWall, rightWall := IsWallTile(left), IsWallTile(right);
      var ulWall, urWall := IsWallTile(upLeft), IsWallTile(upRight);
      var dlWall, drWall := IsWallTile(downLeft), IsWallTile(downRight);

      if upWall && downWall && leftWall && rightWall && ulWall && urWall && dlWall && drWall {
        return;
      }
      if Open(upLeft) {
        wallType := TopLeftCorner;
        return;
      }
      if Open(upRight) {
        wallType := TopRightCorner;
        return;
      }
      if Open(downRight) {
        wallType := BottomRightCorner;
        return;
      }
      if Open(downLeft) {
        wallType := BottomLeftCorner;
        return;
      }
      if downWall && rightWall {
        wallType := TopLeftCorner;
        return;
      }
      if downWall && leftWall {
        wallType := TopRightCorner;
        return;
      }
      if upWall && rightWall {
        wallType := BottomLeftCorner;
        return;
      }
      if upWall && leftWall {
        wallType := BottomRightCorner;
        return;
      }
    }

    /** setWallTypeByNeighbors: both passes in order. */
    method SetWallTypeByNeighbors()
      modifies this`wallType
      ensures wallType == WallTypeByNeighbors(RingOf(base))
    {
      SetWallTypeStraight();
      SetWallTypeOuterCorners();
    }
  }
}
