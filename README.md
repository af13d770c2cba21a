# OpHog map pieces, utilities and overworld in Dafny

OpHog is a browser game. Its levels are assembled from square puzzle pieces,
and its overworld is a fixed map from which the player picks a level. This
project models three pieces of the game's in-memory logic and proves what
they compute.

- **Puzzle pieces** (`puzzle.dfy`, module `Puzzle`).
  - A piece is a 5 x 5 block of tiles, stored row by row. It derives one
    boolean "opening" profile per edge, plus flags saying whether each edge has
    an opening and whether the piece is blank.
  - It compares its profiles with another piece's and returns a 4-bit
    direction mask (UP 1, RIGHT 2, DOWN 4, LEFT 8).
  - It copies its tiles, in place, into a larger flat map array.
  - It records its piece type, a set of column flags (LEFT 1, MIDDLE 2,
    RIGHT 4) that the map generator may combine with `|`.
  - `PuzzlePiece` is a class whose fields are the game's fields. Each method
    is proved against a pure specification function of the tiles: `LeftEdge`,
    `Blank`, `FitMask` or `Applied`.
- **Utilities** (`util.dfy`, module `Util`).
  - Taxicab distance.
  - The index arithmetic of random integers, random array elements and
    weighted random choice. The value of `Math.random()` is an explicit `draw`
    in [0, 1).
  - The array helpers: shallow copy, push-all and reversed copy. They work on
    `JsArray`, a class standing for a growable JavaScript array.
  - The axis-by-axis chase step.
- **Overworld** (`overworld.dfy`, module `Overworld`).
  - The 21 x 50 tile table and the six level nodes.
  - The first-match node lookup.
  - The in-place painting of the spawner tile (65) onto every node's cell.

`wrappers.dfy` holds the `Option` type used for JavaScript's `null`.

Numbers that JavaScript keeps as doubles (coordinates, weights, draws) are
exact `real`s here. Tile values, indices and the bounds of `randomInteger`
are `int`s. The direction mask and the piece type are `bv32`s, because
JavaScript's `|` works on 32-bit integers.

## Model

| member | source | states |
|---|---|---|
| Puzzle.FlagsAreSingleBits | src/js/PuzzlePiece.js:3-19 | each direction flag and each piece-type flag is a distinct single bit; all directions give 15, all piece types 7, and each pair of piece types ORs to its own value (3, 5, 6) |
| Puzzle.EdgeOpenings | src/js/PuzzlePiece.js:66-70 | an edge profile read with a fixed start and stride has one entry per position |
| Puzzle.EdgeAt | src/js/PuzzlePiece.js:66-70 | position k of an edge profile is whether tile start + k * stride is an opening |
| Puzzle.EdgeFormulas | src/js/PuzzlePiece.js:67-70 | left edge i is tile 5i == 1, right edge i is tile 5i+4, top edge i is tile i, bottom edge i is tile i+20 |
| Puzzle.EdgeSteps | src/js/PuzzlePiece.js:66-70 | extending each edge by position i appends exactly the comparison the loop pushes |
| Puzzle.PuzzlePiece.constructor | src/js/PuzzlePiece.js:31-58 | after construction the four edges have 5 entries each and follow the edge formulas; each has-opening flag is true iff its edge has a true entry; isBlank iff no flag is set |
| Puzzle.PuzzlePiece.GenerateEdges | src/js/PuzzlePiece.js:64-95 | run on a fresh piece, it leaves every edge equal to its specification function, each flag equal to "the edge has an opening", and isBlank equal to `Blank(tiles)`; tiles and type are unchanged |
| Puzzle.BlankIffNoEdgeOpening | src/js/PuzzlePiece.js:72-93 | a piece is blank exactly when none of the four has-opening flags would be set |
| Puzzle.BlankIffBorderClosed | src/js/PuzzlePiece.js:72-77 | a piece is blank exactly when no border cell is an opening |
| Puzzle.InteriorOpeningIsBlank | src/js/PuzzlePiece.js:72-77 | a piece whose only opening is the centre cell counts as blank, because interior tiles are never inspected |
| Puzzle.ProfileDependsOnlyOnBorder | src/js/PuzzlePiece.js:66-70 | two tile lists that agree on which border cells are openings have the same four edge profiles |
| Puzzle.FitMask | src/js/PuzzlePiece.js:197-226 | RIGHT is set iff this.left equals other.right, LEFT iff this.right equals other.left, DOWN iff this.top equals other.bottom, UP iff this.bottom equals other.top; the mask is at most 15 |
| Puzzle.PuzzlePiece.CanFitTogether | src/js/PuzzlePiece.js:193-227 | a missing other piece gives all four directions (15); otherwise the loop and the ORs return exactly `FitMask` of the two pieces' edge profiles |
| Puzzle.FitMaskSymmetric | src/js/PuzzlePiece.js:204-224 | B's mask towards A is A's mask towards B with LEFT/RIGHT and UP/DOWN swapped; in particular A has RIGHT iff B has LEFT, and A has DOWN iff B has UP |
| Puzzle.BlankPiecesFitEverywhere | src/js/PuzzlePiece.js:199-224 | two blank pieces fit together in all four directions |
| Puzzle.Applied | src/js/PuzzlePiece.js:162-175 | writing a piece into a map keeps the map's length |
| Puzzle.PuzzlePiece.ApplyToMapArray | src/js/PuzzlePiece.js:162-175 | given x+5 <= width and (y+5)*width <= map length, the array becomes `Applied`: each covered cell holds the tile at its offset, and every other cell keeps its old value |
| Puzzle.TargetLandsOnTile | src/js/PuzzlePiece.js:168-173 | the cell (y + i/5) * width + x + i%5 written for tile i lies inside the array and inside the piece's footprint, at offset i |
| Puzzle.CoveredCellIsTarget | src/js/PuzzlePiece.js:168-172 | every cell in the piece's footprint is the cell written for exactly the tile at its offset |
| Puzzle.AppliedPlacesTiles | src/js/PuzzlePiece.js:164-174 | after applying, map cell (y + i/5) * width + x + i%5 holds tile i, for each i < 25 |
| Puzzle.AppliedKeepsOtherCells | src/js/PuzzlePiece.js:162-175 | a map cell that no tile index targets keeps its old value |
| Puzzle.ApplyAtOriginReproducesTiles | src/js/PuzzlePiece.js:162-175 | applying at (0, 0) to a 25-cell map of width 5 reproduces the tiles exactly |
| Util.ManhattanDistance | src/js/Util.js:24-26 | the distance is non-negative, is 0 iff the points coincide, and is at least the difference along either axis |
| Util.ManhattanSymmetric | src/js/Util.js:24-26 | the distance from p to q equals the distance from q to p |
| Util.ManhattanTriangle | src/js/Util.js:24-26 | going through a third point is never shorter |
| Util.ScaledDraw | src/js/Util.js:41 | floor(draw * span) is at least 0 and below span when span > 0, and is the floor of the product |
| Util.RandomInteger | src/js/Util.js:34-42 | after the bounds are ordered, the result is the lower bound plus floor(draw * span); it lies in [min, max) when the bounds differ and equals the bound when they are equal |
| Util.RandomIntegerSwapped | src/js/Util.js:35-41 | swapping the two bounds gives the same result for the same draw |
| Util.RandomArrayElement | src/js/Util.js:123-126 | a missing or empty array gives null; otherwise the result is the element at floor(draw * length), which is in bounds |
| Util.PickFrom | src/js/Util.js:91-100 | scanning from item i, the result is in range, every item skipped has a cumulative share at most the draw, and the result's share exceeds the draw unless it is the last item |
| Util.PickIndex | src/js/Util.js:60-104 | null exactly when an item has no weight or the weights sum to 0 (including the empty list); otherwise the first item whose cumulative share exceeds the draw, or else the last item, always in range |
| Util.RandomFromWeights | src/js/Util.js:60-104 | the two loops, with their early returns, return exactly the item `PickIndex` selects, or null when it selects nothing |
| Util.PickIndexIsFirstCrossing | src/js/Util.js:91-99 | the index where the scan stops is the index `PickIndex` chooses |
| Util.LastShareIsOne | src/js/Util.js:85-92 | with non-negative weights and a non-zero total, the total is positive and the last cumulative share is exactly 1 |
| Util.PickIndexInterval | src/js/Util.js:88-100 | with non-negative weights and a draw in [0, 1), item k is chosen iff the draw lies in [share before k, share up to k), an interval of width weight(k)/total |
| Util.ChosenItemHasPositiveWeight | src/js/Util.js:88-100 | with non-negative weights and a draw in [0, 1), the chosen item's weight is positive |
| Util.WeightsExample | src/js/Util.js:48-49 | weights (5, 10, 15) give cumulative shares 1/6, 1/2 and 1, and draws 0.1, 0.3 and 0.9 pick the first, second and third item |
| Util.JsArray.Push | src/js/Util.js:143 | pushing appends one element at the end |
| Util.JsArray.SliceAll | src/js/Util.js:170 | `slice(0)` returns a new array with the same elements |
| Util.JsArray.Reverse | src/js/Util.js:170 | `reverse()` reverses the array in place |
| Util.Reversed | src/js/Util.js:161-171 | the reversal has the same length, and entry i is entry n-1-i of the original |
| Util.ReversedTwice | src/js/Util.js:161-171 | reversing twice gives the original sequence |
| Util.ShallowCopyArray | src/js/Util.js:140-146 | the push loop returns a freshly allocated array with the same elements as the original |
| Util.PushAllToArray | src/js/Util.js:154-159 | the destination becomes its old contents followed by the source's elements; the source is unchanged; nothing happens when either argument is null |
| Util.CopyAndReverseArray | src/js/Util.js:169-171 | the result is a new array holding the original's elements in reverse order; the original is untouched |
| Util.AxisStep | src/js/Util.js:231-257 | for a positive speed, one axis either lands exactly on the target (when strictly closer than speed) or gets exactly speed closer, and it never leaves the segment between start and target |
| Util.ChaseCoordinates | src/js/Util.js:229-262 | each coordinate takes one `AxisStep` towards its target, and atDestination is true iff both coordinates equal the desired ones |
| Util.AxisStepsReach | src/js/Util.js:229-257 | n steps at a positive speed reach the target whenever n * speed covers the distance |
| Util.RepeatedChaseArrives | src/js/Util.js:229-262 | repeated chasing reaches the destination on both axes once n * speed covers both distances |
| Util.ChaseExample | src/js/Util.js:231-236 | chasing from 0 to 10 at speed 3 gives 3 after one step, 9 after three steps and 10 after four |
| Overworld.FirstNodeAt | src/js/OverworldMap.js:94-102 | the scan returns the first node in list order at the given tile, and returns nothing iff no node is there |
| Overworld.GetOverworldNode | src/js/OverworldMap.js:94-102 | the result is a listed node at the given tile, and null iff no node is there |
| Overworld.TileTableShape | src/js/OverworldMap.js:9-37 | the tile table has 21 rows of 50 entries, 1050 cells in total |
| Overworld.NodeIndicesInBounds | src/js/OverworldMap.js:47-84 | every node lies on the 50 x 21 grid, so its cell index y*50 + x lies inside the tile table |
| Overworld.SpawnerCells | src/js/OverworldMap.js:111-117 | the cells painted are 151, 57, 259, 61, 264 and 169 |
| Overworld.NodePositionsDistinct | src/js/OverworldMap.js:47-84 | no two nodes share a position |
| Overworld.EveryNodeIsFound | src/js/OverworldMap.js:47-102 | looking a node up by its own coordinates returns that node |
| Overworld.LookupExamples | src/js/OverworldMap.js:48-53 | tile (1, 3) gives 'Green Hill Zone' with difficulty 1, and tile (0, 0) gives null |
| Overworld.OverworldMapData.constructor | src/js/OverworldMap.js:9-31 | the map data starts with a fresh array holding the tile table |
| Overworld.OverworldMapData.InitializeOverworldMap | src/js/OverworldMap.js:107-121 | each node's cell becomes 65 in place and every other cell keeps its value; the doodad layer is all empty and as long as the tile array; the width passed on is 50 |

## Left out

- `distance` and `circlesCollide` (src/js/Util.js:10-14, 114-116) are not modelled. They depend on `Math.sqrt` over doubles.
- The `useVector` branch of `chaseCoordinates` (src/js/Util.js:211-228) is not modelled, since it uses `atan2`, `cos` and `sin`. `Util.ChaseCoordinates` has no `useVector` parameter and models the other branch.
- `Math.random()` is not modelled: every call becomes a caller-supplied `draw` in [0, 1), and nothing is claimed about its distribution.
- `randomKeyFromDict` (src/js/Util.js:178-190) is not modelled. It depends on JavaScript's key enumeration of objects. Given the keys as a sequence, it is `RandomArrayElement`.
- `debugDisplayText` (src/js/Util.js:275-295) and `PuzzlePiece.print` (src/js/PuzzlePiece.js:97-115) are not modelled; they only write to the page or the console. The console warnings of `randomFromWeights` are dropped for the same reason.
- The rest of `initializeOverworldMap` is not modelled: the `game.Map` constructor, `TilesetManager.MARSH_TILESET_ID`, the scale and overworld arguments, the global `game.overworldMap`, and the `setFog` call (src/js/OverworldMap.js:120-124). These are collaborators outside this model.
  - The code calls `setFog(1, 3, 3, false)` (src/js/OverworldMap.js:124).
- Floating-point rounding is not modelled: weights, shares, coordinates and draws are exact reals.
  - `RandomFromWeights` keeps the source's fallback to the last item; with exact arithmetic it is only needed when the draw is not below the last share.
  - `RandomInteger` and `RandomArrayElement` compute `floor(draw * n)` exactly, so the double rounding that could push the product up to `n` is not covered.
- `RandomInteger`: the bounds are integers; JavaScript would also accept fractional bounds.
- `Puzzle.PuzzlePiece.constructor` requires exactly 25 tiles. The game never checks the length; out-of-range reads count as "not an opening" in `OpeningAt`, but pieces of another size are not modelled.
- The piece's tiles are kept as a value. The JavaScript object keeps a reference to the caller's array, and that aliasing is not modelled.
- `Puzzle.PuzzlePiece.GenerateEdges` requires the state the constructor leaves, with empty edges and initial flags. A second call would append a second set of entries; the game only calls it from the constructor.
  - The method builds the edges and flags in local variables and stores them once at the end. Nothing reads the piece in between, so the final state is the same as the game's field-by-field updates.
- `Puzzle.PuzzlePiece.ApplyToMapArray` requires the piece to fit inside the map (`x + 5 <= width`, `(y + 5) * width <= length`). The game does not check this; writes past a JavaScript array's end, which would grow it, are not modelled.
- `Util.PushAllToArray` requires the destination and the source to be different arrays when both are present, unless the array is empty. Pushing a non-empty array onto itself never terminates in the game, because its length grows with each push; pushing an empty array onto itself does nothing, as in the game.
- `Util.ShallowCopyArray`, `Util.CopyAndReverseArray` and `Util.RandomFromWeights` take non-null arrays. In the game, passing `null` makes them throw a `TypeError` (src/js/Util.js:64, 142, 170); exceptions are not modelled.
- `Util.AxisStep`: its "never overshoots, gets exactly speed closer" guarantees are stated for a positive speed only. The body models every branch, including speed <= 0, but nothing is claimed there.
- `canFitTogether(undefined)` is the same as `null` here: JavaScript's `undefined` has no separate value in the model.
