# Pac-Man game logic in Dafny

This project models the sequential core of a 3D Pac-Man game written in C++ with OpenGL/GLUT, plus the
small Python helper that prepares its sky texture. The parts modelled are:

- **Wall shapes.** A wall tile picks a `WallType` from its four side neighbours: open corridors,
  ghost-house tiles and walls. A second pass turns a plain block into an outer corner by looking at
  all eight neighbours (`tile_wall.dfy`, built on the tile types of `tile.dfy`).
- **The level.** A fixed 24 × 31 grid gets border walls, then pellets, then the ghost house
  (`map_factory.dfy`). The map of tile objects offers bounds-checked lookup, a pellet counter,
  first-of-type search for spawns, a random walkable tile and a highlight reset (`map.dfy`).
- **Input latches.** Per-key and per-button pressed / released / flag / pressed-and-released tables,
  plus mouse deltas (`game_user_input.dfy`).
- **Timers and state machines:**
  - the fade timer over unsigned 64-bit milliseconds (`fade_timer.dfy`);
  - the pending direction-change request (`dir_change_request.dfy`);
  - the rolling speed buffer (`speedo_meter.dfy`);
  - the camera and steering callbacks (`game_control.dfy`);
  - the per-tick game-state machine with its session starters and the minimum window size
    (`game.dfy`).
- **Menus.** The entry list, in which at most one entry is selected (`game_menu.dfy`), and the
  rectangle hit test with text centring of a menu item (`menu_item.dfy`).
- **Text helpers without GL.** `next_p2`, the padded two-channel glyph texture and text measurement
  over `getline` lines (`text_renderer.dfy`).
- **Axis-aligned boxes.** Intersection, translation and placement (`bounding_box.dfy`).
- **The texture enhancer.** A centred square crop, a per-channel tone curve and a clipped boost of the
  green and red channels (`enhance_ocv.dfy`).

## How the source is modelled

- C++ `float` is modelled as `real`.
- `uint64_t` durations wrap modulo 2^64.
- The `unsigned char` and `unsigned int` keys of the input tables are written as reductions modulo
  256 and 2^32.
- Python's `//` on non-negative integers is Dafny's `/`.
- Objects whose fields the source updates become classes with `modifies` frames.
- The grid stages of `MapFactory`, which take and return vectors by value, are methods on sequences.
  Each is proved equal to a specification function.
- Loops are proved against a specification function:
  - `next_p2`'s doubling loop;
  - `storeTextureData`'s nested loops;
  - `measureText`'s line loop;
  - the grid loops;
  - the menu loops;
  - the gamma loop.
- Collaborators whose bodies are not part of this model become parameters:
  - the result of `Tile::collectPellet`;
  - the random row and column draws of `getRandomTile`;
  - the lives and score computed by `GameLogic`;
  - the menu item entered by the player;
  - the clock reading;
  - the font's per-character widths;
  - the tone curve.

## Model

| member | source | states |
|---|---|---|
| Tiles.WalkableIffNotBlocking | src/Tile.cpp:7-10 | a tile type is walkable exactly when it is PELLET or EMPTY; every other type (walls, ghost house, doors, teleport, spawns, EMPTY_UNWALKABLE) is blocking |
| Tiles.TileTypeString | src/Tile.cpp:20-27 | EMPTY, WALL and PELLET map to their own names; every other type maps to "NONE" |
| Tiles.TileTypeStringInjectiveOnNamed | src/Tile.cpp:20-27 | two types with the same name are equal whenever the name is not "NONE" |
| Tiles.Tile.constructor | src/Tile.cpp:3-5 | a new tile has the given type, no highlight and no neighbour links |
| Tiles.Tile.Walkable | src/Tile.cpp:7-10 | true exactly for PELLET and EMPTY, i.e. exactly when the type is not a blocking one |
| Tiles.Tile.GetTileType | src/Tile.cpp:16-18 | the stored type, whose walkability is the tile's |
| Tiles.Tile.GetTileTypeString | src/Tile.cpp:20-27 | "EMPTY", "WALL" and "PELLET" each exactly for their own type, "NONE" exactly for every other type |
| Tiles.Tile.SetType | src/Tile.cpp:12-18 | after `setType(t)`, `getTileType` returns t and walkability is that of t |
| Tiles.Tile.SetHighlight | include/Tile.h:62 | sets the highlight flag to the given value and changes nothing else |
| TileWalls.OpenCount | src/TileWall.cpp:270-281 | counts the walkable sides: 0 exactly when no side is open, 4 exactly when all are (a null neighbour is closed) |
| TileWalls.StraightWallType | src/TileWall.cpp:270-380 | all four sides open gives BLOCK; exactly up+right, up+left, down+right or down+left open give the matching INNER shape; exactly one open side gives TOP, BOTTOM, LEFT or RIGHT; no open side gives BLOCK; the result is never an outer corner |
| TileWalls.StraightMatchesOpenCount | src/TileWall.cpp:270-380 | the straight pass equals an independent table organised by the number of open sides |
| TileWalls.GhostHouseStraightWalls | src/TileWall.cpp:317-332 | with only left and right open, a ghost-house tile on the left gives RIGHT and on the right gives LEFT; with only up and down open, ghost house above gives BOTTOM and below gives TOP; otherwise BLOCK |
| TileWalls.OuterCornerType | src/TileWall.cpp:382-453 | a non-BLOCK type is kept; BLOCK stays when all eight neighbours are walls; otherwise the first walkable diagonal in the order up-left, up-right, down-right, down-left picks the corner, then the wall pairs decide; the result is BLOCK or an outer corner |
| TileWalls.OuterCornerIdempotent | src/TileWall.cpp:382-453 | running the corner pass twice gives the same shape as running it once |
| TileWalls.WallTypeByNeighbors | src/TileWall.cpp:70-73 | the final shape is the straight shape unless that is BLOCK, in which case it is BLOCK or an outer corner |
| TileWalls.OuterCornerOnlyFromBlock | src/TileWall.cpp:70-73 | the final shape is an outer corner exactly when the straight pass gave BLOCK and the corner pass refined it |
| TileWalls.TileWall.constructor | src/TileWall.cpp:6-20 | a new wall has the given shape and base tile |
| TileWalls.TileWall.SetWallTypeStraight | src/TileWall.cpp:270-380 | the shape becomes the straight classification of the linked side neighbours |
| TileWalls.TileWall.SetWallTypeOuterCorners | src/TileWall.cpp:382-453 | the shape becomes the corner pass applied to the previous shape and the linked eight neighbours |
| TileWalls.TileWall.SetWallTypeByNeighbors | src/TileWall.cpp:70-73 | the shape becomes the two passes in sequence |
| MapFactory.HouseExtent | src/MapFactory.cpp:14-40 | with width 31 and height 24 the house occupies rows 10-13 and columns 13-16, a 4 × 4 block rather than the 5 × 5 of house size 5; the door is column 13, rows 11-12; the house lies inside the border |
| MapFactory.WithWalls | src/MapFactory.cpp:45-56 | every cell of row 0, the last row, column 0 and the last column becomes WALL; every interior cell is unchanged; the grid keeps its size |
| MapFactory.WithPellets | src/MapFactory.cpp:58-69 | every EMPTY cell becomes PELLET, every other cell is unchanged, and no EMPTY cell remains |
| MapFactory.WithPelletsIdempotent | src/MapFactory.cpp:58-69 | filling pellets a second time changes nothing |
| MapFactory.WithGhostHouse | src/MapFactory.cpp:14-43 | cells outside the house are untouched; the house ring except the door becomes WALL; the inside and the door become EMPTY |
| MapFactory.EmptyGrid | src/MapFactory.cpp:7 | the starting grid is 24 × 31 and all EMPTY |
| MapFactory.MapLayout | src/MapFactory.cpp:5-12 | the composed stages give, cell by cell, the expected layout: border WALL, house ring WALL, house inside and door EMPTY, everything else PELLET |
| MapFactory.NoEmptyOutsideHouse | src/MapFactory.cpp:5-12 | outside the ghost house the built map holds only WALL and PELLET |
| MapFactory.CreateWalls | src/MapFactory.cpp:45-56 | the loop's result equals the border specification |
| MapFactory.CreatePellets | src/MapFactory.cpp:58-69 | the loop's result equals the pellet specification |
| MapFactory.CreateGhostHouse | src/MapFactory.cpp:14-43 | the two loops' result equals the ghost-house specification |
| MapFactory.CreateMap | src/MapFactory.cpp:5-12 | the built grid is 24 × 31 and holds the expected layout in every cell |
| GameMap.Map.constructor | src/Map.cpp:20-30 | height is the number of rows, width the length of row 0 (0 without rows), and no pellet is collected yet |
| GameMap.Map.GetTileAt | src/Map.cpp:46-51 | inside 0 ≤ row < height and 0 ≤ col < width the stored tile is returned, outside it null |
| GameMap.Map.AreAllPelletsCollected | src/Map.cpp:227-232 | true exactly when the collected counter equals the level's pellet total |
| GameMap.Map.CollectPellet | src/Map.cpp:227-240 | the counter grows by exactly one when the tile reports a collected pellet and is otherwise unchanged; the result is the tile's answer; all pellets are collected exactly when the counter equals the total |
| GameMap.Map.GetFirstTileOfType | src/Map.cpp:263-272 | returns the first tile of the type in row-major order over the 24 × 31 level, or null when none has it |
| GameMap.Map.GetPlayerSpawn | src/Map.cpp:242-244 | the first SPAWN_PLAYER tile, or null |
| GameMap.Map.GetBlinkySpawn | src/Map.cpp:246-248 | the first SPAWN_BLINKY tile, or null |
| GameMap.Map.GetPinkySpawn | src/Map.cpp:250-252 | the first SPAWN_PINKY tile, or null |
| GameMap.Map.GetInkySpawn | src/Map.cpp:254-256 | the first SPAWN_INKY tile, or null |
| GameMap.Map.GetClydeSpawn | src/Map.cpp:258-260 | the first SPAWN_CLYDE tile, or null |
| GameMap.Map.GetRandomTile | src/Map.cpp:163-188 | null on an empty map; a non-null result is a walkable tile of the map and is the first walkable one among the at most 100 draws; null otherwise means none of the 100 draws was walkable |
| GameMap.Map.ResetHighlightedTiles | src/Map.cpp:140-148 | every tile in the grid ends with no highlight; types, ghost-house flags and the four neighbour links of every tile are untouched |
| GameUserInput.Input.constructor | include/GameUserInput.h:67-93 | all eight tables start empty, mouse position and deltas are zero, no movement change and no direction |
| GameUserInput.Input.IsKeyPressed | src/GameUserInput.cpp:53-55 | the key's pressed entry; a key never recorded answers false |
| GameUserInput.Input.IsKeyReleased | src/GameUserInput.cpp:57-59 | the key's released entry (set by its last key up, cleared by its last key down); a key never recorded answers false |
| GameUserInput.Input.IsKeyFlagPressed | src/GameUserInput.cpp:61-63 | the key's latched press; a key never recorded answers false |
| GameUserInput.Input.IsKeyFlagPressedAndReleased | src/GameUserInput.cpp:65-67 | the key's latched press-and-release; a key never recorded answers false |
| GameUserInput.Input.IsButtonPressed | src/GameUserInput.cpp:77-79 | the button's pressed entry, stored under the button modulo 2^32; a button never recorded answers false |
| GameUserInput.Input.IsButtonReleased | src/GameUserInput.cpp:81-83 | the button's released entry, stored under the button modulo 2^32; a button never recorded answers false |
| GameUserInput.Input.IsButtonFlagPressed | src/GameUserInput.cpp:85-87 | the button's latched press, stored under the button modulo 256; a button never recorded answers false |
| GameUserInput.Input.IsButtonFlagPressedAndReleased | src/GameUserInput.cpp:89-91 | the button's latched press-and-release, stored under the button modulo 256; a button never recorded answers false |
| GameUserInput.Input.UntrackedKeyReadsFalse | src/GameUserInput.cpp:53-67 | every query on a key outside {w, a, s, d, x, y, c, Esc} answers false |
| GameUserInput.Input.UntrackedButtonReadsFalse | src/GameUserInput.cpp:77-91 | every query on a button never recorded answers false |
| GameUserInput.Input.Keyboard | src/GameUserInput.cpp:11-18 | a tracked key down sets pressed, clears released and sets the pressed flag; an untracked key changes nothing |
| GameUserInput.Input.KeyboardUp | src/GameUserInput.cpp:21-28 | a tracked key up clears pressed, sets released, copies the previous pressed flag into pressed-and-released and clears the pressed flag; an untracked key changes nothing |
| GameUserInput.Input.MouseButton | src/GameUserInput.cpp:31-51 | an untracked button changes nothing; the wheel sets both flags whatever the state and leaves the pressed tables alone; other tracked buttons follow the key rules on down and up; any other state changes nothing |
| GameUserInput.Input.ResetKeyFlagPressed | src/GameUserInput.cpp:69-71 | clears only that key's pressed flag |
| GameUserInput.Input.ResetKeyFlagPressedAndReleased | src/GameUserInput.cpp:73-75 | clears only that key's pressed-and-released flag |
| GameUserInput.Input.ResetButtonFlagPressed | src/GameUserInput.cpp:93-95 | clears only that button's pressed flag |
| GameUserInput.Input.ResetButtonFlagPressedAndReleased | src/GameUserInput.cpp:97-99 | clears only that button's pressed-and-released flag |
| GameUserInput.Input.MouseMotion | src/GameUserInput.cpp:108-115 | the delta is the new position minus the previous one, and the previous position is remembered |
| GameUserInput.Input.ResetMouseDelta | src/GameUserInput.cpp:101-106 | both deltas become zero and the last position becomes the current one |
| GameUserInput.Input.SetMovementChanged | include/GameUserInput.h:54 | raises the movement-changed flag |
| GameUserInput.Input.ResetMovementChanged | include/GameUserInput.h:53 | clears the movement-changed flag |
| GameUserInput.Input.SetMoveDir | include/GameUserInput.h:56 | stores the direction |
| FadeTimers.PhaseAt | src/FadeTimer.cpp:27-39 | the phase is In exactly below the fade-in time, Hold below fade-in plus hold, Out below the sum of all three (sums wrap modulo 2^64), otherwise Idle |
| FadeTimers.PhaseMonotone | src/FadeTimer.cpp:28-39 | without wrap-around, a later elapsed time never gives an earlier phase in the order In, Hold, Out, Idle |
| FadeTimers.PhaseIntervals | src/FadeTimer.cpp:28-39 | without wrap-around, the phases partition time into the intervals [0, in), [in, in+hold), [in+hold, in+hold+out) and the rest |
| FadeTimers.FadeTimer.constructor | src/FadeTimer.cpp:4-11 | a new timer has durations 500, 1000 and 500 ms and is Idle |
| FadeTimers.FadeTimer.Configure | src/FadeTimer.cpp:13-17 | sets the three durations and never touches the phase |
| FadeTimers.FadeTimer.Start | src/FadeTimer.cpp:19-22 | records the start time and enters In |
| FadeTimers.FadeTimer.Update | src/FadeTimer.cpp:24-40 | an Idle timer stays Idle; otherwise the phase becomes the classification of the elapsed time |
| FadeTimers.FadeTimer.GetPhase | src/FadeTimer.cpp:60-62 | the phase the last Start or Update left |
| FadeTimers.FadeTimer.GetAlpha | src/FadeTimer.cpp:42-58 | Idle gives 0 and Hold gives 1; In and Out give the linear ramps, with no value when the duration is zero |
| GameMenus.SelectedExactlyIsUnique | include/GameMenu.h:10-18 | a menu in which exactly one index is selected has at most one selected entry |
| GameMenus.GameMenu.constructor | src/GameMenu.cpp:6-8 | a new menu shows the main menu with its first entry selected |
| GameMenus.GameMenu.InitMainMenu | src/GameMenu.cpp:10-12 | the entries are Play, Sandbox, Credits, Exit with the first selected |
| GameMenus.GameMenu.InitPauseMenu | src/GameMenu.cpp:14-16 | the entries are Resume, Restart, Exit to Main Menu with the first selected |
| GameMenus.GameMenu.SetEntries | src/GameMenu.cpp:18-26 | the entries' texts are the items in order; a non-empty list has exactly entry 0 selected; an empty list gives no entries |
| GameMenus.GameMenu.SetSelectedIndex | src/GameMenu.cpp:28-33 | an out-of-range index changes nothing; an in-range index selects exactly that entry; the texts never change |
| MenuItems.RectCornersInside | src/MenuItem.cpp:23-24 | the hit rectangle is inclusive: all four corners hit |
| MenuItems.CenteredMargins | src/MenuItem.cpp:53-54 | text that fits is placed with equal margins on both sides and stays inside the item |
| MenuItems.MenuItem.constructor | src/MenuItem.cpp:4-14 | a new item stores its geometry and text, is selectable, not selected or entered, and awaits centring |
| MenuItems.MenuItem.Select | src/MenuItem.cpp:22-41 | a miss clears selected and entered; a hit on a selectable item selects it and takes the entered argument; a hit on a non-selectable item clears both; afterwards entered implies selected |
| MenuItems.MenuItem.CalculateCenteredTextDimensions | src/MenuItem.cpp:44-56 | the text size is the measured size; the text is centred only when centring is on and it fits, otherwise its position is kept |
| MenuItems.MenuItem.Update | src/MenuItem.cpp:17-56 | on the first call the text is measured and, when centring is on and the text fits the box, placed at the centre of the box, otherwise left where it was; later calls keep size and position; the hit test always runs, and entered implies selected |
| MenuItems.MenuItem.SetSelectable | include/MenuItem.h:62-66 | sets selectable and clears selected and entered |
| TextRenderer.NextP2 | lib/glft2/src/TextRenderer.cpp:21-27 | the result is a power of two at least a, and the smallest one: 1 for a ≤ 1 and below 2a for a ≥ 1 |
| TextRenderer.TextureRow | lib/glft2/src/TextRenderer.cpp:53-58 | one texture row holds two bytes per column |
| TextRenderer.Texture | lib/glft2/src/TextRenderer.cpp:52-59 | the padded texture holds 2 · width · height bytes |
| TextRenderer.TextureRowAt | lib/glft2/src/TextRenderer.cpp:53-58 | within a row, each even byte is 255 and the following byte is the bitmap pixel, or 0 outside the bitmap |
| TextRenderer.TextureAt | lib/glft2/src/TextRenderer.cpp:52-58 | index 2(i + j·width) is 255 and the next index holds the bitmap pixel at column i, row j, or 0 outside the bitmap |
| TextRenderer.StoreTextureData | lib/glft2/src/TextRenderer.cpp:45-60 | the nested loops fill the whole buffer with the texture specification |
| TextRenderer.PrepareGlyphTexture | lib/glft2/src/TextRenderer.cpp:76-83 | the padded sides are powers of two no smaller than the bitmap's, so every bitmap pixel is copied to its slot |
| TextRenderer.LineEnd | lib/glft2/src/TextRenderer.cpp:334 | finds the next newline at or after k, or the end of the text, with no newline before it |
| TextRenderer.LinesHaveNoNewline | lib/glft2/src/TextRenderer.cpp:334 | no line produced by getline contains a newline |
| TextRenderer.LinesRejoin | lib/glft2/src/TextRenderer.cpp:334 | the lines joined with newlines give back the text, with a final newline added when it was missing |
| TextRenderer.LineCount | lib/glft2/src/TextRenderer.cpp:334-341 | the number of lines is the number of newlines, plus one when the text does not end in a newline |
| TextRenderer.MaxLineWidthIsMaximum | lib/glft2/src/TextRenderer.cpp:335-340 | the maximum line width is non-negative, at least every line's width and, when positive, attained by some line |
| TextRenderer.MeasureEmpty | lib/glft2/src/TextRenderer.cpp:330-344 | empty text measures 0 wide and 0 high |
| TextRenderer.MeasureText | lib/glft2/src/TextRenderer.cpp:322-345 | width is scale × the widest line (characters ≥ 128 add nothing), height is the number of lines × h × scale |
| SpeedoMeters.Average | include/SpeedoMeter.h:32-36 | 0 for no samples, otherwise the value whose product with the count is the sum |
| SpeedoMeters.AverageBounds | include/SpeedoMeter.h:32-36 | the average of samples within [lo, hi] lies within [lo, hi] |
| SpeedoMeters.Push | include/SpeedoMeter.h:19-22 | the new sample is last; a full buffer drops only its oldest sample and keeps the order of the rest |
| SpeedoMeters.PushKeepsCapacity | include/SpeedoMeter.h:19-22 | with a capacity of at least 1, a buffer within capacity stays within it, and grows by one while not full |
| SpeedoMeters.SpeedoMeter.constructor | include/SpeedoMeter.h:15 | a new meter has the given capacity, no samples and counter 0 |
| SpeedoMeters.SpeedoMeter.Update | include/SpeedoMeter.h:17-30 | the buffer is pushed; the answer is true exactly when the incremented counter reaches counterToTrue, which resets it to 0; otherwise the counter grows by 1; the capacity invariant is kept |
| SpeedoMeters.SpeedoMeter.GetAverage | include/SpeedoMeter.h:32-36 | 0 for an empty buffer, otherwise the sum divided by the size |
| DirChangeRequests.DirChangeRequest.constructor | src/DirChangeRequest.cpp:3-5 | a new request has time 0, stores the direction and is pending |
| DirChangeRequests.DirChangeRequest.UpdateTime | src/DirChangeRequest.cpp:7-13 | adds the delta to the time and keeps the direction; with a non-negative delta an expired request stays expired |
| DirChangeRequests.DirChangeRequest.IsPending | src/DirChangeRequest.cpp:11-13 | pending exactly while the accumulated time is below 0.2 seconds, so a request just made or reset is pending |
| DirChangeRequests.DirChangeRequest.GetRequestedMoveDir | src/DirChangeRequest.cpp:15-17 | the direction given at construction or at the last reset |
| DirChangeRequests.DirChangeRequest.Reset | src/DirChangeRequest.cpp:19-22 | stores the new direction, zeroes the time and is pending again |
| BoundingBoxes.IntersectsBoxes | src/BoundingBox3D.cpp:24-32 | false exactly when the boxes are apart on at least one axis; touching faces are not apart |
| BoundingBoxes.IntersectsIffCommonPoint | src/BoundingBox3D.cpp:24-32 | for boxes with min ≤ max, intersecting is the same as sharing a point |
| BoundingBoxes.IntersectsSymmetric | src/BoundingBox3D.cpp:26-28 | the answer does not depend on which box asks |
| BoundingBoxes.IntersectsSelf | src/BoundingBox3D.cpp:24-32 | a box with min ≤ max intersects itself |
| BoundingBoxes.TouchingFacesIntersect | src/BoundingBox3D.cpp:26-28 | boxes that meet in a face intersect |
| BoundingBoxes.IntersectsTranslationInvariant | src/BoundingBox3D.cpp:13-32 | moving both boxes by the same delta keeps the answer |
| BoundingBoxes.BoundingBox3D.constructor | src/BoundingBox3D.cpp:3-6 | stores the two corners |
| BoundingBoxes.BoundingBox3D.Move | src/BoundingBox3D.cpp:13-16 | both corners move by (dx, dy, dz), so the size is kept |
| BoundingBoxes.BoundingBox3D.MovePoint | src/BoundingBox3D.cpp:18-21 | both corners move by the delta point, so the size is kept |
| BoundingBoxes.BoundingBox3D.Intersects | src/BoundingBox3D.cpp:24-32 | false exactly when the boxes are apart on some axis; the answer is the same with the boxes swapped, and for boxes with min ≤ max it is true exactly when they share a point |
| BoundingBoxes.BoundingBox3D.GetAbsoluteBoundingBox | src/BoundingBox3D.cpp:34-43 | a new box whose min is the origin and whose size is this box's max; this box's min is ignored |
| GameControls.Clamp | src/GameControl.cpp:29-30 | the value limited to [lo, hi]: unchanged inside, lo below, hi above |
| GameControls.ClampMonotone | src/GameControl.cpp:29-30 | clamping keeps the order of two values |
| GameControls.KeyDirection | src/GameControl.cpp:52-70 | w, s, d and a map to forward, backward, right and left, and no other key maps to a direction |
| GameControls.WheelDistance | src/GameControl.cpp:19-31 | a wheel click moves the camera distance by 2 (button 3 closer, button 4 farther) and the result lies in [10, 100] |
| GameControls.GameControl.constructor | include/Game.h:15-18 | the camera starts at distance 50 with both angles 0 and no drag in progress |
| GameControls.GameControl.MouseButton | src/GameControl.cpp:7-33 | left down starts a drag at (x, y) and any other left state ends it; a wheel click while down steps and clamps the distance; a wheel event in any other state, and any other button, changes nothing |
| GameControls.GameControl.MouseMotion | src/GameControl.cpp:35-50 | without a drag nothing changes; during a drag yaw grows by a tenth of dx, pitch by a tenth of dy clamped to [-89, 89], and the position is remembered |
| GameControls.GameControl.Keyboard | src/GameControl.cpp:52-70 | a movement key sets its direction and the changed flag; other keys change nothing |
| Games.EscPauses | src/Game.cpp:195-200 | Esc while playing pauses and loads the pause menu; the flag is consumed, so the same tick does not resume |
| Games.NegativeLivesEndGame | src/Game.cpp:215-219 | negative lives after the logic step give GameOver, even when Esc paused the game in the same tick |
| Games.PlayingIgnoresMenu | src/Game.cpp:195-223 | while play continues, the entered menu item is ignored and only lives and score change |
| Games.PlayStartsCasualSession | src/Game.cpp:229-232 | "Play" outside play starts playing at level 0 with 7 lives and score 0 |
| Games.SandboxStartsSandboxSession | src/Game.cpp:233-236 | "Sandbox" outside play starts playing at level 0 with 9999 lives and score 0 |
| Games.ResumeReturnsToPlay | src/Game.cpp:240-245 | "Resume" clears the Esc flag and returns to play with everything else kept |
| Games.ExitToMainMenu | src/Game.cpp:246-249 | "Exit to Main Menu" switches to the main menu and loads its entries |
| Games.ExitEndsProgram | src/Game.cpp:237-239 | "Exit" outside play ends the program |
| Games.EscResumes | src/Game.cpp:253-258 | Esc while paused clears the flag and resumes play |
| Games.MenusWaitForItem | src/Game.cpp:222-258 | the main menu and the game-over screen do not change until a state-changing item is entered |
| Games.Reshape | src/Game.cpp:340-351 | a size below 800 × 600 requests max(w, 800) × max(h, 600) instead; a size at or above the minimum is accepted |
| Games.Game.StartNewCasualSession | src/Game.cpp:163-170 | level 0, 7 lives, score 0 |
| Games.Game.StartNewSandboxSession | src/Game.cpp:172-179 | level 0, 9999 lives, score 0 |
| Games.Game.Update | src/Game.cpp:182-266 | the new state, lives, level, score, Esc flag and menu entries are those of the tick specification, and only the Esc flag entry of the input tables is written |
| EnhanceOcv.CropRange | texture_enhance/enhance_ocv.py:13-19 | 0 ≤ start ≤ centre ≤ end ≤ extent; the extent of the crop is at most 2·(S//2) ≤ S; exactly S when the image is at least S and S is even; the whole axis when the image is smaller than S |
| EnhanceOcv.CropBox | texture_enhance/enhance_ocv.py:13-19 | both axes of the box lie within the image, around its centre, and are at most the crop size |
| EnhanceOcv.CropIsSquare | texture_enhance/enhance_ocv.py:10-19 | with crop size 5000, an image at least that large is cropped to exactly 5000 × 5000 |
| EnhanceOcv.SmallImageKeptWhole | texture_enhance/enhance_ocv.py:16-19 | an image smaller than the crop size is kept whole, with no error |
| EnhanceOcv.Crop | texture_enhance/enhance_ocv.py:22 | rows [y1, y2) and columns [x1, x2) with all three channels kept |
| EnhanceOcv.GammaCorrect | texture_enhance/enhance_ocv.py:26-31 | every channel of every pixel is the tone curve of the cropped value |
| EnhanceOcv.Boosted | texture_enhance/enhance_ocv.py:34-35 | the scaled value truncated to 8 bits when below 256, 255 when at least 255, and never smaller than the input for a gain of at least 1 |
| EnhanceOcv.Boost | texture_enhance/enhance_ocv.py:34-35 | channel 0 is kept and channels 1 and 2 are boosted and clipped to [0, 255] |
| EnhanceOcv.Enhance | texture_enhance/enhance_ocv.py:7-35 | the output is the crop box of the image, tone-curved, with the green channel boosted by 1.15 and the red channel by 1.25 |

## Left out

- Rendering is left out: OpenGL/GLUT/FreeType drawing, display lists, HUD layout, lighting, the sky sphere and both copies of `RenderHelper.cpp`.
- Audio (`GameSounds`) is left out.
- The camera's trigonometry and easing (`GameCamera`) are floating-point numerics and are left out.
- `Map::getTileWithPoint3D` and `Map::getTilesWithBoundingBox` are left out. Both index through `floor` of float divisions.
- The random number generator of `getRandomTile` is not modelled. Its row and column draws are a parameter that the caller guarantees to be in range.
- `Tile::collectPellet`, `Tile::isGhostHouseTile` and `MoveDir.h` are not part of this model. The first is a parameter of `CollectPellet`, and the second is the tile's `ghostHouse` field.
- The `GameLogic` updates are not part of this model; the lives and score they produce are parameters of `Game.Update`.
- `GameMenu::update` and `getEnteredMenuItemString` are not part of this model; the entered item is a parameter of `Game.Update`.
- The frame-time measurement, the camera update and the rescheduling through `glutTimerFunc` in `Game::update` are left out, as are level speed scaling and `initNewLevel` with its sounds.
- Games.Game.Update: `initGameOverMenu` and `setUserScore` are not part of this model, so on game over the menu entries are left as they were.
- Games.Game.Update: the game-logic step (`GameLogic::update*` and `GameControl::update`, src/Game.cpp:205-213) is not part of this model; its outcome enters as the lives and score after it, and it is assumed to leave the level, the game state and the Esc flag unchanged.
- Games.Game.Update: `exit(0)` is modelled as returning true, after which nothing more happens.
- Games.Reshape: only the minimum-size branch is modelled; the viewport and projection set-up for an accepted size are GL calls.
- DirChangeRequests.DirChangeRequest.IsPending: the threshold `0.2f` is the real 0.2, not its nearest `float`, and the accumulated time is a real sum without `float` rounding.
- MenuItems.MenuItem.Update: the `int` mouse coordinates are converted exactly to reals, and `float` rounding is not modelled.
- TextRenderer.MeasureText: the width and height are returned rather than written through pointers, so the null-pointer checks have no counterpart.
- TextRenderer.NextP2: requires a ≤ 2^30 so that the doubling stays within a 32-bit `int`; above that the source's shift overflows.
- FadeTimers.FadeTimer.GetAlpha: the current clock reading is a parameter, and the ramps are real divisions without `float` rounding.
- FadeTimers.PhaseMonotone: assumes that the duration sums do not wrap around 2^64. With a wrap the source's phase order is not monotone, and `PhaseAt` models the wrap.
- GameUserInput.Input.ResetMovementChanged: the source declares a `bool` result but returns nothing, so using it is undefined behaviour. The model returns no value.
- SpeedoMeters.SpeedoMeter.Update: requires that a zero capacity is not combined with an empty buffer. In that case the source erases from an empty vector, which is undefined behaviour. Overflow of the `int` counter is not modelled.
- Games.Game.Update: the `int` lives, level and score are unbounded.
- GameControls.GameControl.MouseMotion: `0.1f` is taken as exactly one tenth and the angles are reals.
- EnhanceOcv.GammaCorrect: the power curve `(v/255)^1.5 · 255` is a parameter mapping bytes to bytes, so its float rounding is not modelled.
- EnhanceOcv.Enhance: the gains 1.15 and 1.25 are exact reals; image reading and writing (`cv2.imread`, `cv2.imwrite`) are file I/O and are left out.
- The ghost house is 4 × 4 rather than the 5 × 5 that the comment in `src/MapFactory.cpp` describes. The model follows the loop bounds.
- Several signatures differ between headers and sources (the `Tile` constructor, `setType`, `Game.h`). The model follows the bodies.
- Stubs and declaration-only files are not part of this model: `MovableEntity`, `GameLogic`, `Ghost::autoMove`, `main.cpp` and the font test program.
