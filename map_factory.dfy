/**
 * Construction of the default 24 x 31 level layout (src/MapFactory.cpp,
 * include/MapFactory.h). Each stage takes the grid of tile types by value
 * and returns the updated copy.
 */
module MapFactory {
  import opened Tiles

  const MapWidth: int := 31
  const MapHeight: int := 24
  /** The side the source intends for the ghost house. */
  const HouseSize: int := 5

  type Grid = seq<seq<TileType>>

  /** A grid of exactly MapHeight rows of MapWidth cells. */
  predicate IsMapGrid(g: Grid)
  {
    |g| == MapHeight && forall y :: 0 <= y < |g| ==> |g[y]| == MapWidth
  }

  predicate InMap(y: int, x: int)
  {
    0 <= y < MapHeight && 0 <= x < MapWidth
  }

  predicate OnBorder(y: int, x: int)
  {
    x == 0 || x == MapWidth - 1 || y == 0 || y == MapHeight - 1
  }

  // The ghost-house rectangle as the source's loop bounds give it.
  const CenterX: int := MapWidth / 2
  const CenterY: int := MapHeight / 2
  const HouseLeft: int := CenterX - HouseSize / 2
  const HouseRight: int := CenterX + HouseSize / 2 - 1
  const HouseTop: int := CenterY - HouseSize / 2
  const HouseBottom: int := CenterY + HouseSize / 2 - 1

  predicate InHouse(y: int, x: int)
  {
    HouseTop <= y <= HouseBottom && HouseLeft <= x <= HouseRight
  }

  predicate OnHouseRing(y: int, x: int)
  {
    x == HouseLeft || x == HouseRight || y == HouseTop || y == HouseBottom
  }

  /** The door: the left column of the house without its two corner cells. */
  predicate InDoor(y: int, x: int)
  {
    x == HouseLeft && HouseTop + 1 <= y < HouseBottom
  }

  /**
   * The loop bound `< center + houseSize / 2` makes the house rows 10-13 and
   * columns 13-16: a 4 x 4 block, one short of the 5 x 5 that the house size
   * names. The door is rows 11-12 of column 13.
   */
  lemma HouseExtent()
    ensures HouseTop == 10 && HouseBottom == 13 && HouseLeft == 13 && HouseRight == 16
    ensures HouseRight - HouseLeft + 1 == 4 && HouseBottom - HouseTop + 1 == 4 < HouseSize
    ensures forall y, x :: InDoor(y, x) <==> x == 13 && (y == 11 || y == 12)
    ensures forall y, x :: InHouse(y, x) ==> InMap(y, x) && !OnBorder(y, x)
  {
  }

  /** createWalls, cell by cell: border cells become walls, the rest is kept. */
  function WithWalls(g: Grid): (r: Grid)
    requires IsMapGrid(g)
    ensures IsMapGrid(r)
    ensures forall y, x :: InMap(y, x) && OnBorder(y, x) ==> r[y][x] == Wall
    ensures forall y, x :: InMap(y, x) && !OnBorder(y, x) ==> r[y][x] == g[y][x]
  {
    seq(MapHeight, y requires 0 <= y < MapHeight =>
      seq(MapWidth, x requires 0 <= x < MapWidth => if OnBorder(y, x) then Wall else g[y][x]))
  }

  /** createPellets, cell by cell: every empty cell gets a pellet. */
  function WithPellets(g: Grid): (r: Grid)
    requires IsMapGrid(g)
    ensures IsMapGrid(r)
    ensures forall y, x :: InMap(y, x) ==> r[y][x] != Empty
    ensures forall y, x :: InMap(y, x) && g[y][x] == Empty ==> r[y][x] == Pellet
    ensures forall y, x :: InMap(y, x) && g[y][x] != Empty ==> r[y][x] == g[y][x]
  {
    seq(MapHeight, y requires 0 <= y < MapHeight =>
      seq(MapWidth, x requires 0 <= x < MapWidth => if g[y][x] == Empty then Pellet else g[y][x]))
  }

  /** Filling pellets twice is the same as filling them once. */
  lemma {:induction false} WithPelletsIdempotent(g: Grid)
    requires IsMapGrid(g)
    ensures WithPellets(WithPellets(g)) == WithPellets(g)
  {
    var once := WithPellets(g);
    var twice := WithPellets(once);
    forall y | 0 <= y < MapHeight
      ensures twice[y] == once[y]
    {
      assert forall x :: 0 <= x < MapWidth ==> twice[y][x] == once[y][x];
    }
  }

  /** createGhostHouse, cell by cell: ring walls, empty inside, the door emptied, the rest kept. */
  function WithGhostHouse(g: Grid): (r: Grid)
    requires IsMapGrid(g)
    ensures IsMapGrid(r)
    ensures forall y, x :: InMap(y, x) && !InHouse(y, x) ==> r[y][x] == g[y][x]
    ensures forall y, x :: InHouse(y, x) && OnHouseRing(y, x) && !InDoor(y, x) ==> r[y][x] == Wall
    ensures forall y, x :: InHouse(y, x) && (!OnHouseRing(y, x) || InDoor(y, x)) ==> r[y][x] == Empty
  {
    seq(MapHeight, y requires 0 <= y < MapHeight =>
      seq(MapWidth, x requires 0 <= x < MapWidth => HouseCell(g, y, x)))
  }

  function HouseCell(g: Grid, y: int, x: int): TileType
    requires IsMapGrid(g) && InMap(y, x)
  {
    if !InHouse(y, x) then g[y][x]
    else if InDoor(y, x) then Empty
    else if OnHouseRing(y, x) then Wall
    else Empty
  }

  /** The starting grid of createMap: every cell empty. */
  function EmptyGrid(): (g: Grid)
    ensures IsMapGrid(g)
    ensures forall y, x :: InMap(y, x) ==> g[y][x] == Empty
  {
    seq(MapHeight, _ => seq(MapWidth, _ => Empty))
  }

  /** The layout createMap promises, stated cell by cell without reference to the stages. */
  function ExpectedCell(y: int, x: int): TileType
  {
    if OnBorder(y, x) then Wall
    else if InHouse(y, x) && OnHouseRing(y, x) && !InDoor(y, x) then Wall
    else if InHouse(y, x) then Empty
    else Pellet
  }

  /**
   * The three stages in the source's order produce the expected layout: the
   * ghost house is built last, so its interior and door stay empty rather
   * than holding pellets.
   */
  lemma {:induction false} MapLayout(y: int, x: int)
    requires InMap(y, x)
    ensures WithGhostHouse(WithPellets(WithWalls(EmptyGrid())))[y][x] == ExpectedCell(y, x)
  {
    HouseExtent();
    var walls := WithWalls(EmptyGrid());
    var pellets := WithPellets(walls);
    assert walls[y][x] == if OnBorder(y, x) then Wall else Empty;
    assert pellets[y][x] == if OnBorder(y, x) then Wall else Pellet;
  }

  /** The finished map has no empty cell outside the ghost house. */
  lemma NoEmptyOutsideHouse(y: int, x: int)
    requires InMap(y, x) && !InHouse(y, x)
    ensures ExpectedCell(y, x) in {Wall, Pellet}
  {
  }

  /** createWalls: nested loops set the border cells of the copy to WALL. */
  method CreateWalls(grid: Grid) returns (r: Grid)
    requires IsMapGrid(grid)
    ensures r == WithWalls(grid)
  {
    r := grid;
    var y := 0;
    while y < MapHeight
      invariant 0 <= y <= MapHeight
      invariant IsMapGrid(r)
      invariant forall yy :: y <= yy < MapHeight ==> r[yy] == grid[yy]
      invariant forall yy :: 0 <= yy < y ==> r[yy] == WithWalls(grid)[yy]
    {
      var x := 0;
      while x < MapWidth
        invariant 0 <= x <= MapWidth
        invariant IsMapGrid(r)
        invariant forall yy :: y < yy < MapHeight ==> r[yy] == grid[yy]
        invariant forall yy :: 0 <= yy < y ==> r[yy] == WithWalls(grid)[yy]
        invariant forall xx :: 0 <= xx < x ==> r[y][xx] == WithWalls(grid)[y][xx]
        invariant forall xx :: x <= xx < MapWidth ==> r[y][xx] == grid[y][xx]
      {
        if x == 0 || x == MapWidth - 1 || y == 0 || y == MapHeight - 1 {
          r := r[y := r[y][x := Wall]];
        }
        x := x + 1;
      }
      assert r[y] == WithWalls(grid)[y];
      y := y + 1;
    }
  }

  /** createPellets: nested loops turn every EMPTY cell of the copy into PELLET. */
  method CreatePellets(grid: Grid) returns (r: Grid)
    requires IsMapGrid(grid)
    ensures r == WithPellets(grid)
  {
    r := grid;
    var y := 0;
    while y < MapHeight
      invariant 0 <= y <= MapHeight
      invariant IsMapGrid(r)
      invariant forall yy :: y <= yy < MapHeight ==> r[yy] == grid[yy]
      invariant forall yy :: 0 <= yy < y ==> r[yy] == WithPellets(grid)[yy]
    {
      var x := 0;
      while x < MapWidth
        invariant 0 <= x <= MapWidth
        invariant IsMapGrid(r)
        invariant forall yy :: y < yy < MapHeight ==> r[yy] == grid[yy]
        invariant forall yy :: 0 <= yy < y ==> r[yy] == WithPellets(grid)[yy]
        invariant forall xx :: 0 <= xx < x ==> r[y][xx] == WithPellets(grid)[y][xx]
        invariant forall xx :: x <= xx < MapWidth ==> r[y][xx] == grid[y][xx]
      {
        if r[y][x] == Empty {
          r := r[y := r[y][x := Pellet]];
        }
        x := x + 1;
      }
      assert r[y] == WithPellets(grid)[y];
      y := y + 1;
    }
  }

  /** The grid after the first loop of createGhostHouse: ring and interior written, door not yet cut. */
  function WithHouseBlock(g: Grid): (r: Grid)
    requires IsMapGrid(g)
    ensures IsMapGrid(r)
  {
    seq(MapHeight, y requires 0 <= y < MapHeight =>
      seq(MapWidth, x requires 0 <= x < MapWidth =>
        if InHouse(y, x) then (if OnHouseRing(y, x) then Wall else Empty) else g[y][x]))
  }

  /**
   * createGhostHouse: one pass over the house rectangle writes the ring and
   * the interior, a second pass empties the door column.
   */
  method CreateGhostHouse(grid: Grid) returns (r: Grid)
    requires IsMapGrid(grid)
    ensures r == WithGhostHouse(grid)
  {
    var centerX := MapWidth / 2;
    var centerY := MapHeight / 2;
    var houseSize := 5;
    ghost var block := WithHouseBlock(grid);
    r := grid;

    var y := centerY - houseSize / 2;
    while y < centerY + houseSize / 2
      invariant HouseTop <= y <= HouseBottom + 1
      invariant IsMapGrid(r)
      invariant forall yy :: 0 <= yy < MapHeight ==> r[yy] == if HouseTop <= yy < y then block[yy] else grid[yy]
    {
      r := FillHouseRow(r, y);
      y := y + 1;
    }

    ghost var house := WithGhostHouse(grid);
    y := centerY - houseSize / 2 + 1;
    while y < centerY + houseSize / 2 - 1
      invariant HouseTop + 1 <= y <= HouseBottom
      invariant IsMapGrid(r)
      invariant forall yy :: 0 <= yy < MapHeight ==> r[yy] == if HouseTop + 1 <= yy < y then house[yy] else block[yy]
    {
      r := r[y := r[y][centerX - houseSize / 2 := Empty]];
      assert r[y] == house[y];
      y := y + 1;
    }
    assert forall yy :: 0 <= yy < MapHeight ==> r[yy] == house[yy];
  }

  /** The inner loop of createGhostHouse's first pass: row `y` of the house rectangle. */
  method FillHouseRow(grid: Grid, y: int) returns (r: Grid)
    requires IsMapGrid(grid) && HouseTop <= y <= HouseBottom
    ensures IsMapGrid(r)
    ensures r[y] == WithHouseBlock(grid)[y]
    ensures forall yy :: 0 <= yy < MapHeight && yy != y ==> r[yy] == grid[yy]
  {
    var centerX := MapWidth / 2;
    var centerY := MapHeight / 2;
    var houseSize := 5;
    ghost var block := WithHouseBlock(grid);
    r := grid;
    var x := centerX - houseSize / 2;
    while x < centerX + houseSize / 2
      invariant HouseLeft <= x <= HouseRight + 1
      invariant IsMapGrid(r)
      invariant forall yy :: 0 <= yy < MapHeight && yy != y ==> r[yy] == grid[yy]
      invariant forall xx :: 0 <= xx < MapWidth ==> r[y][xx] == if HouseLeft <= xx < x then block[y][xx] else grid[y][xx]
    {
      if x == centerX - houseSize / 2 || x == centerX + houseSize / 2 - 1
         || y == centerY - houseSize / 2 || y == centerY + houseSize / 2 - 1 {
        r := r[y := r[y][x := Wall]];
      } else {
        r := r[y := r[y][x := Empty]];
      }
      x := x + 1;
    }
    assert r[y] == block[y];
  }

  /** createMap: an all-empty grid, then walls, pellets and the ghost house, in that order. */
  method CreateMap() returns (grid: Grid)
    ensures IsMapGrid(grid)
    ensures forall y, x :: InMap(y, x) ==> grid[y][x] == ExpectedCell(y, x)
  {
    grid := seq(MapHeight, _ => seq(MapWidth, _ => Empty));
    assert grid == EmptyGrid();
    grid := CreateWalls(grid);
    grid := CreatePellets(grid);
    grid := CreateGhostHouse(grid);
    forall y, x | InMap(y, x)
      ensures grid[y][x] == ExpectedCell(y, x)
    {
      MapLayout(y, x);
    }
  }
}
