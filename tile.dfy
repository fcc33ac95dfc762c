/**
 * Tile types and the tile object of the Pac-Man grid (src/Tile.cpp,
 * include/Tile.h).
 */
module Tiles {

  /** The kinds of grid cell (include/Tile.h). */
  datatype TileType =
    | Empty
    | Wall
    | Pellet
    | GhostHouse
    | DoorOpen
    | DoorClosed
    | Teleport
    | SpawnPlayer
    | SpawnInky
    | SpawnBlinky
    | SpawnPinky
    | SpawnClyde
    | EmptyUnwalkable

  /** Whether an actor may stand on a tile of this type. */
  predicate IsWalkable(t: TileType)
  {
    match t
    case Pellet => true
    case Empty => true
    case _ => false
  }

  /** The cell types that block movement, listed one by one. */
  predicate IsBlocking(t: TileType)
  {
    t in {Wall, GhostHouse, DoorOpen, DoorClosed, Teleport, SpawnPlayer,
          SpawnInky, SpawnBlinky, SpawnPinky, SpawnClyde, EmptyUnwalkable}
  }

  /** Exactly the blocking types are not walkable, and the two partition all types. */
  lemma WalkableIffNotBlocking(t: TileType)
    ensures IsWalkable(t) <==> !IsBlocking(t)
    ensures IsWalkable(t) <==> t == Pellet || t == Empty
  {
  }

  /** The debug name of a tile type; only three types have one. */
  function TileTypeString(t: TileType): (s: string)
    ensures t == Empty ==> s == "EMPTY"
    ensures t == Wall ==> s == "WALL"
    ensures t == Pellet ==> s == "PELLET"
    ensures t !in {Empty, Wall, Pellet} ==> s == "NONE"
    ensures s in {"EMPTY", "WALL", "PELLET", "NONE"}
  {
    match t
    case Empty => "EMPTY"
    case Wall => "WALL"
    case Pellet => "PELLET"
    case _ => "NONE"
  }

  /** Distinct named types get distinct names: the naming is injective on them. */
  lemma TileTypeStringInjectiveOnNamed(a: TileType, b: TileType)
    requires a in {Empty, Wall, Pellet} && b in {Empty, Wall, Pellet}
    ensures TileTypeString(a) == TileTypeString(b) ==> a == b
  {
  }

  /**
   * A grid cell. Its four neighbour links are set by the map builder.
   * `ghostHouse` holds the answer of `isGhostHouseTile`, whose body is not
   * part of this model.
   */
  class Tile {
    var tileType: TileType
    var highlight: bool
    var ghostHouse: bool
    var tileUp: Tile?
    var tileDown: Tile?
    var tileLeft: Tile?
    var tileRight: Tile?

    constructor (tileType: TileType)
      ensures this.tileType == tileType
      ensures !highlight && !ghostHouse
      ensures tileUp == null && tileDown == null && tileLeft == null && tileRight == null
    {
      this.tileType := tileType;
      highlight := false;
      ghostHouse := false;
      tileUp, tileDown, tileLeft, tileRight := null, null, null, null;
    }

    /** A tile can be walked on exactly when its type is a pellet or empty, i.e. not blocking. */
    function Walkable(): (b: bool)
      reads this
      ensures b <==> tileType == Pellet || tileType == Empty
      ensures b <==> !IsBlocking(tileType)
    {
      IsWalkable(tileType)
    }

    /** The type last given to the tile; its walkability and name are the tile's own. */
    function GetTileType(): (t: TileType)
      reads this
      ensures t == tileType
      ensures IsWalkable(t) == Walkable()
    {
      tileType
    }

    /** The debug name of the current type: three types are named, every other one is "NONE". */
    function GetTileTypeString(): (s: string)
      reads this
      ensures s == "EMPTY" <==> tileType == Empty
      ensures s == "WALL" <==> tileType == Wall
      ensures s == "PELLET" <==> tileType == Pellet
      ensures s == "NONE" <==> tileType !in {Empty, Wall, Pellet}
    {
      TileTypeString(tileType)
    }

    /** Replaces the type; reading it back gives the new type and nothing else changes. */
    method SetType(t: TileType)
      modifies this`tileType
      ensures GetTileType() == t
      ensures Walkable() <==> IsWalkable(t)
    {
      tileType := t;
    }

    method SetHighlight(value: bool)
      modifies this`highlight
      ensures highlight == value
    {
      highlight := value;
    }
  }
}
