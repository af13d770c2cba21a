/**
 * Puzzle pieces: square blocks of SIZE x SIZE tiles whose four edges must
 * line up with the edges of their neighbours when a map is assembled.
 *
 * A piece keeps its tiles in a flat row-major list, derives from them one
 * boolean "opening" profile per edge plus a few summary flags, compares its
 * profiles with another piece's to find the directions in which the two fit,
 * and copies its tiles into a larger flat map array.
 */
module Puzzle {

  /** Length of a side of a puzzle piece. */
  const SIZE: int := 5

  /** Number of tiles in a piece. */
  const TILE_COUNT: int := SIZE * SIZE

  /** The tile value that marks an opening (a walkable, connecting cell). */
  const OPENING: int := 1

  /*
   * Direction flags. The game combines them with JavaScript's bitwise OR,
   * which works on 32-bit integers.
   */
  const UP: bv32 := 1
  const RIGHT: bv32 := 2
  const DOWN: bv32 := 4
  const LEFT: bv32 := 8

  /** Every direction at once: what a piece returns when there is nothing to compare with. */
  const ALL_DIRECTIONS: bv32 := RIGHT | LEFT | UP | DOWN

  /*
   * Piece-type flags: which column of the generated map a piece may be placed
   * in. A piece's type is a set of these bits, so a piece that may go in the
   * left or a middle column has type PIECE_TYPE_LEFT | PIECE_TYPE_MIDDLE.
   */
  const PIECE_TYPE_LEFT: bv32 := 1
  const PIECE_TYPE_MIDDLE: bv32 := 2
  const PIECE_TYPE_RIGHT: bv32 := 4

  /** Every piece type at once. */
  const ALL_PIECE_TYPES: bv32 := PIECE_TYPE_LEFT | PIECE_TYPE_MIDDLE | PIECE_TYPE_RIGHT

  /**
   * The flag sets are sound: each direction and each piece type is a single
   * bit of its own, so the OR of any choice of piece types is a distinct value
   * that records exactly the columns chosen.
   */
  lemma FlagsAreSingleBits()
    ensures UP != RIGHT && UP != DOWN && UP != LEFT && RIGHT != DOWN && RIGHT != LEFT && DOWN != LEFT
    ensures UP & RIGHT == 0 && UP & DOWN == 0 && UP & LEFT == 0
    ensures RIGHT & DOWN == 0 && RIGHT & LEFT == 0 && DOWN & LEFT == 0
    ensures ALL_DIRECTIONS == 15
    ensures PIECE_TYPE_LEFT & PIECE_TYPE_MIDDLE == 0 && PIECE_TYPE_LEFT & PIECE_TYPE_RIGHT == 0
    ensures PIECE_TYPE_MIDDLE & PIECE_TYPE_RIGHT == 0
    ensures ALL_PIECE_TYPES == 7
    ensures PIECE_TYPE_LEFT | PIECE_TYPE_MIDDLE == 3 && PIECE_TYPE_LEFT | PIECE_TYPE_RIGHT == 5
    ensures PIECE_TYPE_MIDDLE | PIECE_TYPE_RIGHT == 6
  {
  }

  predicate IsOpening(tile: int)
  {
    tile == OPENING
  }

  // ---------------------------------------------------------------------------
  // Edge profiles as functions of the tile list
  // ---------------------------------------------------------------------------

  /**
   * Whether tile `k` is an opening. A position past the end of the list reads
   * as "not an opening", as JavaScript's `undefined == 1` does.
   */
  predicate OpeningAt(tiles: seq<int>, k: int)
  {
    0 <= k < |tiles| && IsOpening(tiles[k])
  }

  /**
   * The first `n` positions of an edge: tiles start, start + stride,
   * start + 2 * stride, ..., each read as opening or not.
   */
  function EdgeOpenings(tiles: seq<int>, start: int, stride: int, n: nat): (e: seq<bool>)
    ensures |e| == n
  {
    if n == 0 then [] else EdgeOpenings(tiles, start, stride, n - 1) + [OpeningAt(tiles, start + (n - 1) * stride)]
  }

  /** The left edge is column 0, read top to bottom. */
  function LeftEdge(tiles: seq<int>): seq<bool>
  {
    EdgeOpenings(tiles, 0, SIZE, SIZE)
  }

  /** The right edge is column SIZE - 1, read top to bottom. */
  function RightEdge(tiles: seq<int>): seq<bool>
  {
    EdgeOpenings(tiles, SIZE - 1, SIZE, SIZE)
  }

  /** The top edge is row 0, read left to right. */
  function TopEdge(tiles: seq<int>): seq<bool>
  {
    EdgeOpenings(tiles, 0, 1, SIZE)
  }

  /** The bottom edge is row SIZE - 1, read left to right. */
  function BottomEdge(tiles: seq<int>): seq<bool>
  {
    EdgeOpenings(tiles, SIZE * (SIZE - 1), 1, SIZE)
  }

  /** Some position along the edge is an opening. */
  predicate HasOpening(edge: seq<bool>)
  {
    true in edge
  }

  /**
   * No position on any of the four edges is an opening. This is what the
   * piece's `isBlank` flag means: interior tiles are never looked at.
   */
  predicate Blank(tiles: seq<int>)
    requires |tiles| == TILE_COUNT
  {
    forall i :: 0 <= i < SIZE ==>
      !LeftEdge(tiles)[i] && !RightEdge(tiles)[i] && !TopEdge(tiles)[i] && !BottomEdge(tiles)[i]
  }

  /** A cell of the piece lies on its border. */
  predicate OnBorder(k: int)
  {
    0 <= k < TILE_COUNT && (k / SIZE == 0 || k / SIZE == SIZE - 1 || k % SIZE == 0 || k % SIZE == SIZE - 1)
  }

  // ---------------------------------------------------------------------------
  // Fitting two pieces together
  // ---------------------------------------------------------------------------

  /** The four edge profiles of a piece, in the order the game stores them. */
  datatype EdgeProfile = EdgeProfile(left: seq<bool>, right: seq<bool>, top: seq<bool>, bottom: seq<bool>)

  function ProfileOf(tiles: seq<int>): EdgeProfile
    requires |tiles| == TILE_COUNT
  {
    EdgeProfile(LeftEdge(tiles), RightEdge(tiles), TopEdge(tiles), BottomEdge(tiles))
  }

  /**
   * Directions in which a piece with profile `a` fits next to a piece with
   * profile `b`: RIGHT when a's left edge matches b's right edge (a sits to
   * the right of b), LEFT when a's right edge matches b's left edge, DOWN when
   * a's top edge matches b's bottom edge, UP when a's bottom edge matches b's
   * top edge. No other bit is ever set.
   */
  function FitMask(a: EdgeProfile, b: EdgeProfile): (m: bv32)
    ensures m & RIGHT != 0 <==> a.left == b.right
    ensures m & LEFT != 0 <==> a.right == b.left
    ensures m & DOWN != 0 <==> a.top == b.bottom
    ensures m & UP != 0 <==> a.bottom == b.top
    ensures m <= ALL_DIRECTIONS == 15
  {
    FlagsOf(a.left == b.right, a.right == b.left, a.top == b.bottom, a.bottom == b.top)
  }

  /** The mask with RIGHT, LEFT, DOWN and UP set according to the four conditions. */
  function FlagsOf(right: bool, left: bool, down: bool, up: bool): bv32
  {
    (if right then RIGHT else 0) | (if left then LEFT else 0) | (if down then DOWN else 0) | (if up then UP else 0)
  }

  /** The mask seen from the other piece: LEFT and RIGHT trade places, and so do UP and DOWN. */
  function Mirror(m: bv32): bv32
  {
    (if m & RIGHT != 0 then LEFT else 0)
    | (if m & LEFT != 0 then RIGHT else 0)
    | (if m & DOWN != 0 then UP else 0)
    | (if m & UP != 0 then DOWN else 0)
  }

  // ---------------------------------------------------------------------------
  // Placing a piece into a map
  // ---------------------------------------------------------------------------

  /** Map cell `k` of a `width`-wide flat map falls inside the piece placed with its top-left corner at (x, y). */
  predicate Covers(width: int, x: int, y: int, k: int)
    requires width > 0
  {
    0 <= k / width - y < SIZE && 0 <= k % width - x < SIZE
  }

  /** Which tile of the piece lands on map cell `k`. */
  function TileOffset(width: int, x: int, y: int, k: int): int
    requires width > 0
  {
    (k / width - y) * SIZE + (k % width - x)
  }

  /** The map cell that tile `i` of the piece lands on. */
  function Target(width: int, x: int, y: int, i: int): int
  {
    (y + i / SIZE) * width + x + i % SIZE
  }

  /** The map `m` after the piece's tiles have been written over the cells it covers. */
  function Applied(m: seq<int>, tiles: seq<int>, width: int, x: int, y: int): (r: seq<int>)
    requires |tiles| == TILE_COUNT && width > 0
    ensures |r| == |m|
  {
    seq(|m|, k requires 0 <= k < |m| =>
      if Covers(width, x, y, k) then tiles[TileOffset(width, x, y, k)] else m[k])
  }

  // ---------------------------------------------------------------------------
  // The piece object
  // ---------------------------------------------------------------------------

  class PuzzlePiece {
    var tiles: seq<int>
    var pieceType: bv32

    /** Where the openings are along each edge; index i runs top to bottom or left to right. */
    var leftEdgeOpenings: seq<bool>
    var rightEdgeOpenings: seq<bool>
    var topEdgeOpenings: seq<bool>
    var bottomEdgeOpenings: seq<bool>
    var isBlank: bool

    var hasLeftOpening: bool
    var hasRightOpening: bool
    var hasTopOpening: bool
    var hasBottomOpening: bool

    /** The derived fields are exactly what the tiles determine. */
    ghost predicate Valid()
      reads this
    {
      && |tiles| == TILE_COUNT
      && leftEdgeOpenings == LeftEdge(tiles)
      && rightEdgeOpenings == RightEdge(tiles)
      && topEdgeOpenings == TopEdge(tiles)
      && bottomEdgeOpenings == BottomEdge(tiles)
      && isBlank == Blank(tiles)
      && hasLeftOpening == HasOpening(leftEdgeOpenings)
      && hasRightOpening == HasOpening(rightEdgeOpenings)
      && hasTopOpening == HasOpening(topEdgeOpenings)
      && hasBottomOpening == HasOpening(bottomEdgeOpenings)
    }

    /** State of a piece before its edges are generated. */
    ghost predicate Unprocessed()
      reads this
    {
      && leftEdgeOpenings == [] && rightEdgeOpenings == []
      && topEdgeOpenings == [] && bottomEdgeOpenings == []
      && isBlank
      && !hasLeftOpening && !hasRightOpening && !hasTopOpening && !hasBottomOpening
    }

    ghost function Profile(): EdgeProfile
      reads this
    {
      EdgeProfile(leftEdgeOpenings, rightEdgeOpenings, topEdgeOpenings, bottomEdgeOpenings)
    }

    constructor (tiles: seq<int>, pieceType: bv32)
      requires |tiles| == TILE_COUNT
      ensures Valid()
      ensures this.tiles == tiles && this.pieceType == pieceType
      ensures |leftEdgeOpenings| == SIZE && |rightEdgeOpenings| == SIZE
      ensures |topEdgeOpenings| == SIZE && |bottomEdgeOpenings| == SIZE
      ensures forall i :: 0 <= i < SIZE ==>
                && (leftEdgeOpenings[i] <==> tiles[5 * i] == 1)
                && (rightEdgeOpenings[i] <==> tiles[5 * i + 4] == 1)
                && (topEdgeOpenings[i] <==> tiles[i] == 1)
                && (bottomEdgeOpenings[i] <==> tiles[i + 20] == 1)
      ensures hasLeftOpening <==> exists i :: 0 <= i < SIZE && leftEdgeOpenings[i]
      ensures hasRightOpening <==> exists i :: 0 <= i < SIZE && rightEdgeOpenings[i]
      ensures hasTopOpening <==> exists i :: 0 <= i < SIZE && topEdgeOpenings[i]
      ensures hasBottomOpening <==> exists i :: 0 <= i < SIZE && bottomEdgeOpenings[i]
      ensures isBlank <==> !hasLeftOpening && !hasRightOpening && !hasTopOpening && !hasBottomOpening
    {
      this.tiles := tiles;
      this.pieceType := pieceType;
      leftEdgeOpenings := [];
      rightEdgeOpenings := [];
      topEdgeOpenings := [];
      bottomEdgeOpenings := [];
      isBlank := true;
      hasLeftOpening := false;
      hasRightOpening := false;
      hasTopOpening := false;
      hasBottomOpening := false;
      new;
      GenerateEdges();
      BlankIffNoEdgeOpening(tiles);
      forall i | 0 <= i < SIZE
        ensures (leftEdgeOpenings[i] <==> tiles[5 * i] == 1) && (rightEdgeOpenings[i] <==> tiles[5 * i + 4] == 1)
        ensures (topEdgeOpenings[i] <==> tiles[i] == 1) && (bottomEdgeOpenings[i] <==> tiles[i + 20] == 1)
      {
        EdgeFormulas(tiles, i);
      }
    }

    /**
     * Fills the four edge profiles and the five flags in one pass over the
     * edge positions. It appends to the profiles, so it is meant to run once,
     * on a freshly constructed piece.
     */
    method GenerateEdges()
      requires |tiles| == TILE_COUNT && Unprocessed()
      modifies this
      ensures Valid()
      ensures tiles == old(tiles) && pieceType == old(pieceType)
    {
      // The profiles and flags are built in locals and stored once at the end;
      // nothing reads the piece while the loop runs, so the result is the same.
      var left, right, top, bottom := leftEdgeOpenings, rightEdgeOpenings, topEdgeOpenings, bottomEdgeOpenings;
      var blank, hasLeft, hasRight, hasTop, hasBottom := isBlank, hasLeftOpening, hasRightOpening, hasTopOpening, hasBottomOpening;
      var t := tiles;
      for i := 0 to SIZE
        modifies {}
        invariant left == EdgeOpenings(t, 0, SIZE, i)
        invariant right == EdgeOpenings(t, SIZE - 1, SIZE, i)
        invariant top == EdgeOpenings(t, 0, 1, i)
        invariant bottom == EdgeOpenings(t, SIZE * (SIZE - 1), 1, i)
        invariant hasLeft == HasOpening(left) && hasRight == HasOpening(right)
        invariant hasTop == HasOpening(top) && hasBottom == HasOpening(bottom)
        invariant blank == !(hasLeft || hasRight || hasTop || hasBottom)
      {
        EdgeIndexBounds(i);
        EdgeSteps(t, i);
        left := left + [t[i * SIZE] == OPENING];
        right := right + [t[i * SIZE + (SIZE - 1)] == OPENING];
        top := top + [t[i] == OPENING];
        bottom := bottom + [t[i + SIZE * (SIZE - 1)] == OPENING];

        // The game compares these booleans with 1, which JavaScript treats as `true`.
        if left[i] || right[i] || top[i] || bottom[i] {
          blank := false;
        }
        if left[i] {
          hasLeft := true;
        }
        if right[i] {
          hasRight := true;
        }
        if top[i] {
          hasTop := true;
        }
        if bottom[i] {
          hasBottom := true;
        }
      }
      BlankIffNoEdgeOpening(t);
      leftEdgeOpenings, rightEdgeOpenings, topEdgeOpenings, bottomEdgeOpenings := left, right, top, bottom;
      isBlank, hasLeftOpening, hasRightOpening, hasTopOpening, hasBottomOpening := blank, hasLeft, hasRight, hasTop, hasBottom;
    }

    /**
     * Copies the piece's tiles into the flat map `mapArray` (`width` cells per
     * row) with the piece's top-left corner at column x, row y. Only the
     * SIZE x SIZE cells the piece covers change.
     */
    method ApplyToMapArray(mapArray: array<int>, width: int, x: int, y: int)
      requires Valid()
      requires 0 <= x && x + SIZE <= width
      requires 0 <= y && (y + SIZE) * width <= mapArray.Length
      modifies mapArray
      ensures mapArray[..] == Applied(old(mapArray[..]), tiles, width, x, y)
    {
      var i := 0;
      while i < |tiles|
        invariant 0 <= i <= |tiles|
        invariant forall k :: 0 <= k < mapArray.Length ==>
          mapArray[k] == if Covers(width, x, y, k) && TileOffset(width, x, y, k) < i
                         then tiles[TileOffset(width, x, y, k)] else old(mapArray[k])
      {
        var row := i / SIZE;
        var column := i % SIZE;
        var index2 := (y + row) * width + x + column;
        TargetLandsOnTile(mapArray.Length, width, x, y, i);
        forall k | 0 <= k < mapArray.Length && Covers(width, x, y, k)
          ensures k == Target(width, x, y, TileOffset(width, x, y, k))
        {
          CoveredCellIsTarget(width, x, y, k);
        }
        mapArray[index2] := tiles[i];
        i := i + 1;
      }
      assert forall k :: 0 <= k < mapArray.Length ==> Covers(width, x, y, k) ==> TileOffset(width, x, y, k) < TILE_COUNT;
    }

    /**
     * The directions in which `other` fits next to this piece. A missing
     * neighbour (the edge of the map) fits in every direction.
     */
    method CanFitTogether(other: PuzzlePiece?) returns (directionFlags: bv32)
      requires Valid()
      requires other != null ==> other.Valid()
      ensures other == null ==> directionFlags == ALL_DIRECTIONS == 15
      ensures other != null ==> directionFlags == FitMask(Profile(), other.Profile())
    {
      if other == null {
        return RIGHT | LEFT | UP | DOWN;
      }

      directionFlags := 0;

      var canFitRight := true;
      var canFitLeft := true;
      var canFitTop := true;
      var canFitBottom := true;
      for i := 0 to SIZE
        invariant canFitRight <==> forall j :: 0 <= j < i ==> leftEdgeOpenings[j] == other.rightEdgeOpenings[j]
        invariant canFitLeft <==> forall j :: 0 <= j < i ==> rightEdgeOpenings[j] == other.leftEdgeOpenings[j]
        invariant canFitBottom <==> forall j :: 0 <= j < i ==> topEdgeOpenings[j] == other.bottomEdgeOpenings[j]
        invariant canFitTop <==> forall j :: 0 <= j < i ==> bottomEdgeOpenings[j] == other.topEdgeOpenings[j]
      {
        if leftEdgeOpenings[i] != other.rightEdgeOpenings[i] {
          canFitRight := false;
        }
        if rightEdgeOpenings[i] != other.leftEdgeOpenings[i] {
          canFitLeft := false;
        }
        if topEdgeOpenings[i] != other.bottomEdgeOpenings[i] {
          canFitBottom := false;
        }
        if bottomEdgeOpenings[i] != other.topEdgeOpenings[i] {
          canFitTop := false;
        }
      }
      SameEdgeIffPointwise(leftEdgeOpenings, other.rightEdgeOpenings);
      SameEdgeIffPointwise(rightEdgeOpenings, other.leftEdgeOpenings);
      SameEdgeIffPointwise(topEdgeOpenings, other.bottomEdgeOpenings);
      SameEdgeIffPointwise(bottomEdgeOpenings, other.topEdgeOpenings);

      if canFitRight {
        directionFlags := directionFlags | RIGHT;
      }
      if canFitLeft {
        directionFlags := directionFlags | LEFT;
      }
      if canFitBottom {
        directionFlags := directionFlags | DOWN;
      }
      if canFitTop {
        directionFlags := directionFlags | UP;
      }
      assert directionFlags == FlagsOf(canFitRight, canFitLeft, canFitBottom, canFitTop);
    }
  }

  // ---------------------------------------------------------------------------
  // Properties
  // ---------------------------------------------------------------------------

  /**
   * The edge-extraction rule: for position i along an edge, the left edge
   * reads tile 5i, the right edge tile 5i + 4, the top edge tile i and the
   * bottom edge tile i + 20.
   */
  lemma EdgeFormulas(tiles: seq<int>, i: int)
    requires |tiles| == TILE_COUNT && 0 <= i < SIZE
    ensures LeftEdge(tiles)[i] <==> tiles[5 * i] == 1
    ensures RightEdge(tiles)[i] <==> tiles[5 * i + 4] == 1
    ensures TopEdge(tiles)[i] <==> tiles[i] == 1
    ensures BottomEdge(tiles)[i] <==> tiles[i + 20] == 1
  {
    EdgeAt(tiles, 0, SIZE, SIZE, i);
    EdgeAt(tiles, SIZE - 1, SIZE, SIZE, i);
    EdgeAt(tiles, 0, 1, SIZE, i);
    EdgeAt(tiles, SIZE * (SIZE - 1), 1, SIZE, i);
    assert i * SIZE == 5 * i;
  }

  /** Position k of an edge is tile start + k * stride. */
  lemma {:induction false} EdgeAt(tiles: seq<int>, start: int, stride: int, n: nat, k: int)
    requires 0 <= k < n
    ensures EdgeOpenings(tiles, start, stride, n)[k] == OpeningAt(tiles, start + k * stride)
  {
    if k < n - 1 {
      EdgeAt(tiles, start, stride, n - 1, k);
    }
  }

  lemma SameEdgeIffPointwise(a: seq<bool>, b: seq<bool>)
    requires |a| == SIZE && |b| == SIZE
    ensures a == b <==> forall j :: 0 <= j < SIZE ==> a[j] == b[j]
  {
  }

  /** The tiles that position i of each edge reads lie inside the piece. */
  lemma EdgeIndexBounds(i: int)
    requires 0 <= i < SIZE
    ensures 0 <= i * SIZE && i * SIZE + (SIZE - 1) < TILE_COUNT
    ensures 0 <= i + SIZE * (SIZE - 1) < TILE_COUNT
  {
  }

  /** Extending each edge by one position appends the tile the game reads for that position. */
  lemma EdgeSteps(tiles: seq<int>, i: int)
    requires |tiles| == TILE_COUNT && 0 <= i < SIZE
    ensures EdgeOpenings(tiles, 0, SIZE, i + 1) == EdgeOpenings(tiles, 0, SIZE, i) + [tiles[i * SIZE] == OPENING]
    ensures EdgeOpenings(tiles, SIZE - 1, SIZE, i + 1)
         == EdgeOpenings(tiles, SIZE - 1, SIZE, i) + [tiles[i * SIZE + (SIZE - 1)] == OPENING]
    ensures EdgeOpenings(tiles, 0, 1, i + 1) == EdgeOpenings(tiles, 0, 1, i) + [tiles[i] == OPENING]
    ensures EdgeOpenings(tiles, SIZE * (SIZE - 1), 1, i + 1)
         == EdgeOpenings(tiles, SIZE * (SIZE - 1), 1, i) + [tiles[i + SIZE * (SIZE - 1)] == OPENING]
  {
    EdgeIndexBounds(i);
  }

  /** A piece is blank exactly when none of its four has-opening flags is set. */
  lemma BlankIffNoEdgeOpening(tiles: seq<int>)
    requires |tiles| == TILE_COUNT
    ensures Blank(tiles) <==>
      !HasOpening(LeftEdge(tiles)) && !HasOpening(RightEdge(tiles))
      && !HasOpening(TopEdge(tiles)) && !HasOpening(BottomEdge(tiles))
  {
    if !Blank(tiles) {
      var i :| 0 <= i < SIZE &&
        (LeftEdge(tiles)[i] || RightEdge(tiles)[i] || TopEdge(tiles)[i] || BottomEdge(tiles)[i]);
    }
  }

  /** Blankness looks only at the border cells: it holds exactly when no border cell is an opening. */
  lemma BlankIffBorderClosed(tiles: seq<int>)
    requires |tiles| == TILE_COUNT
    ensures Blank(tiles) <==> forall k :: OnBorder(k) ==> !IsOpening(tiles[k])
  {
    if Blank(tiles) {
      forall k | OnBorder(k) ensures !IsOpening(tiles[k]) {
        var r, c := k / SIZE, k % SIZE;
        EdgeFormulas(tiles, r);
        EdgeFormulas(tiles, c);
        if c == 0 {
          assert k == 5 * r;
        } else if c == SIZE - 1 {
          assert k == 5 * r + 4;
        } else if r == 0 {
          assert k == c;
        } else {
          assert k == c + 20;
        }
      }
    } else {
      var i :| 0 <= i < SIZE &&
        (LeftEdge(tiles)[i] || RightEdge(tiles)[i] || TopEdge(tiles)[i] || BottomEdge(tiles)[i]);
      EdgeFormulas(tiles, i);
      if LeftEdge(tiles)[i] {
        assert OnBorder(5 * i);
      } else if RightEdge(tiles)[i] {
        assert OnBorder(5 * i + 4);
      } else if TopEdge(tiles)[i] {
        assert OnBorder(i);
      } else {
        assert OnBorder(i + 20);
      }
    }
  }

  /** A piece whose only opening is its centre cell (index 12 of the 5 x 5 grid) still counts as blank. */
  lemma InteriorOpeningIsBlank()
    ensures Blank(seq(TILE_COUNT, k => if k == 12 then OPENING else 0))
  {
    var t := seq(TILE_COUNT, k => if k == 12 then OPENING else 0);
    assert !OnBorder(12);
    BlankIffBorderClosed(t);
  }

  /** The derived profile depends only on the border cells. */
  lemma ProfileDependsOnlyOnBorder(t1: seq<int>, t2: seq<int>)
    requires |t1| == TILE_COUNT && |t2| == TILE_COUNT
    requires forall k :: OnBorder(k) ==> (IsOpening(t1[k]) <==> IsOpening(t2[k]))
    ensures ProfileOf(t1) == ProfileOf(t2)
  {
    forall i | 0 <= i < SIZE
      ensures LeftEdge(t1)[i] == LeftEdge(t2)[i] && RightEdge(t1)[i] == RightEdge(t2)[i]
      ensures TopEdge(t1)[i] == TopEdge(t2)[i] && BottomEdge(t1)[i] == BottomEdge(t2)[i]
    {
      EdgeFormulas(t1, i);
      EdgeFormulas(t2, i);
      assert OnBorder(5 * i) && OnBorder(5 * i + 4);
      assert OnBorder(i) && OnBorder(i + 20);
    }
  }

  /**
   * Fitting is symmetric: what `b` reports about `a` is what `a` reports about
   * `b` with LEFT/RIGHT and UP/DOWN exchanged.
   */
  lemma FitMaskSymmetric(a: EdgeProfile, b: EdgeProfile)
    ensures FitMask(b, a) == Mirror(FitMask(a, b))
    ensures FitMask(a, b) & RIGHT != 0 <==> FitMask(b, a) & LEFT != 0
    ensures FitMask(a, b) & DOWN != 0 <==> FitMask(b, a) & UP != 0
  {
    var m := FitMask(a, b);
    var n := FitMask(b, a);
    assert n == (if m & RIGHT != 0 then LEFT else 0) | (if m & LEFT != 0 then RIGHT else 0)
              | (if m & DOWN != 0 then UP else 0) | (if m & UP != 0 then DOWN else 0);
  }

  /** Two blank pieces fit together in every direction. */
  lemma BlankPiecesFitEverywhere(t1: seq<int>, t2: seq<int>)
    requires |t1| == TILE_COUNT && |t2| == TILE_COUNT
    requires Blank(t1) && Blank(t2)
    ensures FitMask(ProfileOf(t1), ProfileOf(t2)) == ALL_DIRECTIONS
  {
    var a, b := ProfileOf(t1), ProfileOf(t2);
    assert a.left == b.right;
    assert a.right == b.left;
    assert a.top == b.bottom;
    assert a.bottom == b.top;
  }

  /** Division by a positive divisor recovers quotient and remainder. */
  lemma DivModOf(q: int, w: int, c: int)
    requires 0 < w && 0 <= c < w
    ensures (q * w + c) / w == q && (q * w + c) % w == c
  {
    var n := q * w + c;
    var d := n / w;
    assert n == d * w + n % w;
    assert (q - d) * w == n % w - c;
    if q - d >= 1 {
      MulAtLeast(q - d, w);
    } else if q - d <= -1 {
      MulAtLeast(d - q, w);
    }
  }

  lemma MulAtLeast(a: int, w: int)
    requires a >= 1 && w > 0
    ensures a * w >= w
  {
  }

  /** Tile `i` lands on a map cell inside the array that the piece covers, at offset `i`. */
  lemma TargetLandsOnTile(len: int, width: int, x: int, y: int, i: int)
    requires 0 <= x && x + SIZE <= width
    requires 0 <= y && (y + SIZE) * width <= len
    requires 0 <= i < TILE_COUNT
    ensures var k := Target(width, x, y, i);
      0 <= k < len && Covers(width, x, y, k) && TileOffset(width, x, y, k) == i
  {
    var r, c := i / SIZE, i % SIZE;
    var k := Target(width, x, y, i);
    assert k == (y + r) * width + (x + c);
    DivModOf(y + r, width, x + c);
    assert 0 <= (y + r) * width;
    MulMonotone(y + r + 1, y + SIZE, width);
    assert (y + r + 1) * width == (y + r) * width + width;
  }

  lemma MulMonotone(a: int, b: int, w: int)
    requires 0 <= a <= b && 0 <= w
    ensures a * w <= b * w
  {
  }

  /** Every map cell the piece covers is the target of the tile at its offset. */
  lemma CoveredCellIsTarget(width: int, x: int, y: int, k: int)
    requires width > 0 && Covers(width, x, y, k)
    ensures 0 <= TileOffset(width, x, y, k) < TILE_COUNT
    ensures k == Target(width, x, y, TileOffset(width, x, y, k))
  {
    var r, c := k / width - y, k % width - x;
    var j := TileOffset(width, x, y, k);
    assert j == r * SIZE + c;
    DivModOf(r, SIZE, c);
    assert k == (k / width) * width + k % width;
  }

  /**
   * After the piece is applied, tile i sits at row y + i / SIZE and column
   * x + i % SIZE of the map.
   */
  lemma AppliedPlacesTiles(m: seq<int>, tiles: seq<int>, width: int, x: int, y: int, i: int)
    requires |tiles| == TILE_COUNT
    requires 0 <= x && x + SIZE <= width
    requires 0 <= y && (y + SIZE) * width <= |m|
    requires 0 <= i < TILE_COUNT
    ensures 0 <= (y + i / 5) * width + x + i % 5 < |m|
    ensures Applied(m, tiles, width, x, y)[(y + i / 5) * width + x + i % 5] == tiles[i]
  {
    TargetLandsOnTile(|m|, width, x, y, i);
  }

  /** Applying a piece leaves every cell that no tile targets as it was. */
  lemma AppliedKeepsOtherCells(m: seq<int>, tiles: seq<int>, width: int, x: int, y: int, k: int)
    requires |tiles| == TILE_COUNT && width > 0
    requires 0 <= k < |m|
    requires forall i :: 0 <= i < TILE_COUNT ==> k != Target(width, x, y, i)
    ensures Applied(m, tiles, width, x, y)[k] == m[k]
  {
    if Covers(width, x, y, k) {
      CoveredCellIsTarget(width, x, y, k);
    }
  }

  /** Writing a piece at (0, 0) into a map that is exactly one piece wide and tall reproduces its tiles. */
  lemma ApplyAtOriginReproducesTiles(m: seq<int>, tiles: seq<int>)
    requires |tiles| == TILE_COUNT && |m| == TILE_COUNT
    ensures Applied(m, tiles, SIZE, 0, 0) == tiles
  {
    forall k | 0 <= k < TILE_COUNT ensures Applied(m, tiles, SIZE, 0, 0)[k] == tiles[k] {
      assert k == (k / SIZE) * SIZE + k % SIZE;
    }
  }
}
