/**
 * The playable map: a grid of tile objects with bounds-checked lookup,
 * a pellet counter and searches over the tiles (src/Map.cpp).
 */
module GameMap {
  import opened Tiles
  import MapFactory

  /** How many random cells `GetRandomTile` tries before giving up. */
  const MaxAttempts: int := 100

  /** Every row of the grid has the length of row 0. */
  predicate Rectangular(g: seq<seq<Tile?>>)
  {
    forall r :: 0 <= r < |g| ==> |g[r]| == |g[0]|
  }

  /** Cell (r, c) comes strictly before cell (r2, c2) in row-major order. */
  predicate Before(r: int, c: int, r2: int, c2: int)
  {
    r < r2 || (r == r2 && c < c2)
  }

  class Map {
    var grid: seq<seq<Tile?>>
    var height: int
    var width: int
    var tileSize: real
    var totalPellets: int
    var mapCollectedPellets: int

    /** The size fields describe the grid, and the grid is rectangular. */
    ghost predicate Valid()
      reads this
    {
      height == |grid| &&
      width == (if height > 0 then |grid[0]| else 0) &&
      forall r :: 0 <= r < |grid| ==> |grid[r]| == width
    }

    /** Every tile object stored in the grid. */
    ghost function Tiles(): set<Tile>
      reads this
    {
      set r, c | 0 <= r < |grid| && 0 <= c < |grid[r]| && grid[r][c] != null :: grid[r][c] as Tile
    }

    /** (r, c) addresses a cell of the grid. */
    predicate InGrid(r: int, c: int)
      reads this
    {
      0 <= r < height && 0 <= c < width
    }

    /** The fixed MAP_HEIGHT x MAP_WIDTH window searched for spawns holds a tile in every cell. */
    ghost predicate CoversLevel()
      reads this
    {
      Valid() && MapFactory.MapHeight <= height && MapFactory.MapWidth <= width &&
      forall r, c :: 0 <= r < MapFactory.MapHeight && 0 <= c < MapFactory.MapWidth ==> grid[r][c] != null
    }

    /**
     * `tile` is the first tile of type `t` in row-major order over the level
     * window, or null when the window holds none.
     */
    ghost predicate FirstOfType(t: TileType, tile: Tile?)
      reads this, Tiles()
      requires CoversLevel()
    {
      if tile == null then
        forall r, c :: 0 <= r < MapFactory.MapHeight && 0 <= c < MapFactory.MapWidth ==> grid[r][c].tileType != t
      else
        exists r, c :: 0 <= r < MapFactory.MapHeight && 0 <= c < MapFactory.MapWidth &&
          grid[r][c] == tile && tile.tileType == t &&
          forall r2, c2 ::
            (0 <= r2 < MapFactory.MapHeight && 0 <= c2 < MapFactory.MapWidth && Before(r2, c2, r, c)) ==>
            grid[r2][c2].tileType != t
    }

    /** Takes over the grid and sizes the map from it: rows, then the length of row 0. */
    constructor (mapGrid: seq<seq<Tile?>>, tileSize: real, totalPellets: int)
      requires Rectangular(mapGrid)
      ensures Valid()
      ensures grid == mapGrid
      ensures height == |mapGrid|
      ensures width == (if |mapGrid| > 0 then |mapGrid[0]| else 0)
      ensures this.tileSize == tileSize && this.totalPellets == totalPellets
      ensures mapCollectedPellets == 0
    {
      grid := mapGrid;
      height := |mapGrid|;
      width := if |mapGrid| > 0 then |mapGrid[0]| else 0;
      this.tileSize := tileSize;
      this.totalPellets := totalPellets;
      mapCollectedPellets := 0;
    }

    /** Bounds-checked lookup: the stored tile inside the grid, null outside it. */
    function GetTileAt(row: int, col: int): (t: Tile?)
      reads this
      requires Valid()
      ensures InGrid(row, col) ==> t == grid[row][col]
      ensures !InGrid(row, col) ==> t == null
      ensures t != null ==> t in Tiles()
    {
      if 0 <= row < height && 0 <= col < width then grid[row][col] else null
    }

    /** Cell (r, c) exists and holds a walkable tile. */
    predicate WalkableAt(r: int, c: int)
      reads this, Tiles()
      requires Valid()
    {
      InGrid(r, c) && grid[r][c] != null && grid[r][c].Walkable()
    }

    /** The level is cleared once the collected counter has reached the level's pellet total. */
    function AreAllPelletsCollected(): (b: bool)
      reads this
      ensures b <==> mapCollectedPellets == totalPellets
    {
      totalPellets == mapCollectedPellets
    }

    /**
     * Counts a pellet when the tile reports one was collected; `tileCollected`
     * is the answer of the tile's own `collectPellet`.
     */
    method CollectPellet(tileCollected: bool) returns (collected: bool)
      modifies this`mapCollectedPellets
      ensures collected == tileCollected
      ensures mapCollectedPellets == old(mapCollectedPellets) + (if tileCollected then 1 else 0)
      ensures AreAllPelletsCollected() <==> totalPellets == mapCollectedPellets
    {
      if tileCollected {
        mapCollectedPellets := mapCollectedPellets + 1;
        return true;
      }
      return false;
    }

    /** Row-major search of the level window for the first tile of type `t`. */
    method GetFirstTileOfType(t: TileType) returns (tile: Tile?)
      requires CoversLevel()
      ensures FirstOfType(t, tile)
    {
      var y := 0;
      while y < MapFactory.MapHeight
        invariant 0 <= y <= MapFactory.MapHeight
        invariant forall r, c :: 0 <= r < y && 0 <= c < MapFactory.MapWidth ==> grid[r][c].tileType != t
      {
        var x := 0;
        while x < MapFactory.MapWidth
          invariant 0 <= x <= MapFactory.MapWidth
          invariant forall r, c :: 0 <= r < y && 0 <= c < MapFactory.MapWidth ==> grid[r][c].tileType != t
          invariant forall c :: 0 <= c < x ==> grid[y][c].tileType != t
        {
          if grid[y][x].GetTileType() == t {
            tile := grid[y][x];
            assert forall r2, c2 ::
              (0 <= r2 < MapFactory.MapHeight && 0 <= c2 < MapFactory.MapWidth && Before(r2, c2, y, x)) ==>
              grid[r2][c2].tileType != t;
            return;
          }
          x := x + 1;
        }
        y := y + 1;
      }
      return null;
    }

    method GetPlayerSpawn() returns (tile: Tile?)
      requires CoversLevel()
      ensures FirstOfType(SpawnPlayer, tile)
    {
      tile := GetFirstTileOfType(SpawnPlayer);
    }

    method GetBlinkySpawn() returns (tile: Tile?)
      requires CoversLevel()
      ensures FirstOfType(SpawnBlinky, tile)
    {
      tile := GetFirstTileOfType(SpawnBlinky);
    }

    method GetPinkySpawn() returns (tile: Tile?)
      requires CoversLevel()
      ensures FirstOfType(SpawnPinky, tile)
    {
      tile := GetFirstTileOfType(SpawnPinky);
    }

    method GetInkySpawn() returns (tile: Tile?)
      requires CoversLevel()
      ensures FirstOfType(SpawnInky, tile)
    {
      tile := GetFirstTileOfType(SpawnInky);
    }

    method GetClydeSpawn() returns (tile: Tile?)
      requires CoversLevel()
      ensures FirstOfType(SpawnClyde, tile)
    {
      tile := GetFirstTileOfType(SpawnClyde);
    }

    /**
     * Tries up to `MaxAttempts` random cells, given as `draws` (the row and
     * column the generator would produce), and returns the first walkable tile.
     */
    method GetRandomTile(draws: seq<(int, int)>) returns (tile: Tile?)
      requires Valid()
      requires forall i :: 0 <= i < |draws| ==> InGrid(draws[i].0, draws[i].1)
      requires height > 0 && width > 0 ==> |draws| >= MaxAttempts
      ensures height == 0 || width == 0 ==> tile == null
      ensures tile != null ==> tile in Tiles() && tile.Walkable()
      ensures tile != null ==>
        exists i :: 0 <= i < MaxAttempts && i < |draws| && GetTileAt(draws[i].0, draws[i].1) == tile &&
          forall j :: 0 <= j < i ==> !WalkableAt(draws[j].0, draws[j].1)
      ensures tile == null && height > 0 && width > 0 ==>
        forall i :: 0 <= i < MaxAttempts ==> !WalkableAt(draws[i].0, draws[i].1)
    {
      if height == 0 || width == 0 {
        return null;
      }
      var attempts := 0;
      while attempts < MaxAttempts
        invariant 0 <= attempts <= MaxAttempts
        invariant forall i :: 0 <= i < attempts ==> !WalkableAt(draws[i].0, draws[i].1)
      {
        var (row, col) := draws[attempts];
        var cell := grid[row][col];
        if cell != null && cell.Walkable() {
          return cell;
        }
        attempts := attempts + 1;
      }
      return null;
    }

    /** Clears the highlight of every tile in the grid; types, ghost-house flags and links are kept. */
    method ResetHighlightedTiles()
      requires Valid()
      modifies Tiles()
      ensures forall r, c :: 0 <= r < height && 0 <= c < width && grid[r][c] != null ==> !grid[r][c].highlight
      ensures forall t :: t in Tiles() ==> !t.highlight
      ensures forall t :: t in Tiles() ==>
        t.tileType == old(t.tileType) && t.ghostHouse == old(t.ghostHouse) &&
        t.tileUp == old(t.tileUp) && t.tileDown == old(t.tileDown) && t.tileLeft == old(t.tileLeft) && t.tileRight == old(t.tileRight)
    {
      var y := 0;
      while y < height
        invariant 0 <= y <= height
        invariant forall r, c :: 0 <= r < y && 0 <= c < width && grid[r][c] != null ==> !grid[r][c].highlight
        invariant forall t :: t in Tiles() ==>
        t.tileType == old(t.tileType) && t.ghostHouse == old(t.ghostHouse) &&
        t.tileUp == old(t.tileUp) && t.tileDown == old(t.tileDown) && t.tileLeft == old(t.tileLeft) && t.tileRight == old(t.tileRight)
      {
        ResetRow(y);
        y := y + 1;
      }
    }

    /** The inner loop of `ResetHighlightedTiles`: clears the highlights of row `y`. */
    method ResetRow(y: int)
      requires Valid() && 0 <= y < height
      modifies Tiles()
      ensures forall c :: 0 <= c < width && grid[y][c] != null ==> !grid[y][c].highlight
      ensures forall t :: t in Tiles() ==> t.highlight == old(t.highlight) || !t.highlight
      ensures forall t :: t in Tiles() ==>
        t.tileType == old(t.tileType) && t.ghostHouse == old(t.ghostHouse) &&
        t.tileUp == old(t.tileUp) && t.tileDown == old(t.tileDown) && t.tileLeft == old(t.tileLeft) && t.tileRight == old(t.tileRight)
    {
      var x := 0;
      while x < width
        invariant 0 <= x <= width
        invariant forall c :: 0 <= c < x && grid[y][c] != null ==> !grid[y][c].highlight
        invariant forall t :: t in Tiles() ==> t.highlight == old(t.highlight) || !t.highlight
        invariant forall t :: t in Tiles() ==>
        t.tileType == old(t.tileType) && t.ghostHouse == old(t.ghostHouse) &&
        t.tileUp == old(t.tileUp) && t.tileDown == old(t.tileDown) && t.tileLeft == old(t.tileLeft) && t.tileRight == old(t.tileRight)
      {
        var cell := grid[y][x];
        if cell != null {
          assert cell in Tiles();
          cell.SetHighlight(false);
        }
        x := x + 1;
      }
    }
  }
}
