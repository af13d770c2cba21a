/**
 * The overworld: the fixed world map from which the player picks a level.
 * It is a grid of tile graphics 50 tiles wide, plus a short list of nodes,
 * each a level with a position, a caption and a difficulty. Setting the map
 * up paints a spawner tile onto every node's cell.
 */
module Overworld {
  import opened Wrappers

  /** Number of tiles in one row of the overworld. */
  const OVERWORLD_MAP_WIDTH: int := 50

  /** Number of rows of the overworld. */
  const OVERWORLD_MAP_HEIGHT: int := 21

  /** The tile graphic drawn on each node: a blue spawner. */
  const SPAWNER_TILE: int := 65

  /*
   * Graphic index of each overworld tile, one constant per row (70 and 72
   * are the two ground graphics).
   */
  const ROW_00: seq<int> := [70, 70, 70, 70, 70, 70, 70, 70, 70, 70, 70, 70, 70, 70, 70, 70, 70, 70, 70, 70, 70, 70, 70, 70, 70, 70, 70, 70, 70, 70, 70, 70, 70, 70, 70, 70, 70, 70, 70, 70, 70, 70, 70, 70, 70, 70, 70, 70, 70, 70]
  const ROW_01: seq<int> := [70, 72, 72, 72, 70, 72, 72, 72, 70, 72, 70, 72, 70, 72, 72, 72, 70, 72, 72, 72, 70, 70, 70, 70, 70, 70, 70, 70, 70, 70, 70, 70, 70, 70, 70, 70, 70, 70, 70, 70, 70, 70, 70, 70, 70, 70, 70, 70, 70, 70]
  const ROW_02: seq<int> := [70, 72, 70, 72, 70, 72, 70, 72, 70, 72, 70, 72, 70, 72, 70, 72, 70, 72, 70, 70, 70, 70, 70, 70, 70, 70, 70, 70, 70, 70, 70, 70, 70, 70, 70, 70, 70, 70, 70, 70, 70, 70, 70, 70, 70, 70, 70, 70, 70, 70]
  const ROW_03: seq<int> := [70, 72, 70, 72, 72, 72, 72, 72, 72, 72, 72, 72, 72, 72, 70, 72, 72, 72, 70, 72, 70, 70, 70, 70, 70, 70, 70, 70, 70, 70, 70, 70, 70, 70, 70, 70, 70, 70, 70, 70, 70, 70, 70, 70, 70, 70, 70, 70, 70, 70]
  const ROW_04: seq<int> := [70, 72, 70, 72, 70, 72, 70, 70, 70, 72, 70, 72, 70, 72, 70, 72, 70, 72, 70, 72, 70, 70, 70, 70, 70, 70, 70, 70, 70, 70, 70, 70, 70, 70, 70, 70, 70, 70, 70, 70, 70, 70, 70, 70, 70, 70, 70, 70, 70, 70]
  const ROW_05: seq<int> := [70, 72, 72, 72, 70, 72, 70, 70, 70, 72, 70, 72, 70, 72, 72, 72, 70, 72, 72, 72, 70, 70, 70, 70, 70, 70, 70, 70, 70, 70, 70, 70, 70, 70, 70, 70, 70, 70, 70, 70, 70, 70, 70, 70, 70, 70, 70, 70, 70, 70]
  const ROW_06: seq<int> := [70, 70, 70, 70, 70, 70, 70, 70, 70, 70, 70, 70, 70, 70, 70, 70, 70, 70, 70, 70, 70, 70, 70, 70, 70, 70, 70, 70, 70, 70, 70, 70, 70, 70, 70, 70, 70, 70, 70, 70, 70, 70, 70, 70, 70, 70, 70, 70, 70, 70]
  const ROW_07: seq<int> := [70, 70, 70, 70, 70, 70, 70, 70, 70, 70, 70, 70, 70, 70, 70, 70, 70, 70, 70, 70, 70, 70, 70, 70, 70, 70, 70, 70, 70, 70, 70, 70, 70, 70, 70, 70, 70, 70, 70, 70, 70, 70, 70, 70, 70, 70, 70, 70, 70, 70]
  const ROW_08: seq<int> := [70, 70, 70, 70, 70, 70, 70, 70, 70, 70, 70, 70, 70, 70, 70, 70, 70, 70, 70, 70, 70, 70, 70, 70, 70, 70, 70, 70, 70, 70, 70, 70, 70, 70, 70, 70, 70, 70, 70, 70, 70, 70, 70, 70, 70, 70, 70, 70, 70, 70]
  const ROW_09: seq<int> := [70, 70, 70, 70, 70, 70, 70, 70, 70, 70, 70, 70, 70, 70, 70, 70, 70, 70, 70, 70, 70, 70, 70, 70, 70, 70, 70, 70, 70, 70, 70, 70, 70, 70, 70, 70, 70, 70, 70, 70, 70, 70, 70, 70, 70, 70, 70, 70, 70, 70]
  const ROW_10: seq<int> := [70, 70, 70, 70, 70, 70, 70, 70, 70, 70, 70, 70, 70, 70, 70, 70, 70, 70, 70, 70, 70, 70, 70, 70, 70, 70, 70, 70, 70, 70, 70, 70, 70, 70, 70, 70, 70, 70, 70, 70, 70, 70, 70, 70, 70, 70, 70, 70, 70, 70]
  const ROW_11: seq<int> := [70, 70, 70, 70, 70, 70, 70, 70, 70, 70, 70, 70, 70, 70, 70, 70, 70, 70, 70, 70, 70, 70, 70, 70, 70, 70, 70, 70, 70, 70, 70, 70, 70, 70, 70, 70, 70, 70, 70, 70, 70, 70, 70, 70, 70, 70, 70, 70, 70, 70]
  const ROW_12: seq<int> := [70, 70, 70, 70, 70, 70, 70, 70, 70, 70, 70, 70, 70, 70, 70, 70, 70, 70, 70, 70, 70, 70, 70, 70, 70, 70, 70, 70, 70, 70, 70, 70, 70, 70, 70, 70, 70, 70, 70, 70, 70, 70, 70, 70, 70, 70, 70, 70, 70, 70]
  const ROW_13: seq<int> := [70, 70, 70, 70, 70, 70, 70, 70, 70, 70, 70, 70, 70, 70, 70, 70, 70, 70, 70, 70, 70, 70, 70, 70, 70, 70, 70, 70, 70, 70, 70, 70, 70, 70, 70, 70, 70, 70, 70, 70, 70, 70, 70, 70, 70, 70, 70, 70, 70, 70]
  const ROW_14: seq<int> := [70, 70, 70, 70, 70, 70, 70, 70, 70, 70, 70, 70, 70, 70, 70, 70, 70, 70, 70, 70, 70, 70, 70, 70, 70, 70, 70, 70, 70, 70, 70, 70, 70, 70, 70, 70, 70, 70, 70, 70, 70, 70, 70, 70, 70, 70, 70, 70, 70, 70]
  const ROW_15: seq<int> := [70, 70, 70, 70, 70, 70, 70, 70, 70, 70, 70, 70, 70, 70, 70, 70, 70, 70, 70, 70, 70, 70, 70, 70, 70, 70, 70, 70, 70, 70, 70, 70, 70, 70, 70, 70, 70, 70, 70, 70, 70, 70, 70, 70, 70, 70, 70, 70, 70, 70]
  const ROW_16: seq<int> := [70, 70, 70, 70, 70, 70, 70, 70, 70, 70, 70, 70, 70, 70, 70, 70, 70, 70, 70, 70, 70, 70, 70, 70, 70, 70, 70, 70, 70, 70, 70, 70, 70, 70, 70, 70, 70, 70, 70, 70, 70, 70, 70, 70, 70, 70, 70, 70, 70, 70]
  const ROW_17: seq<int> := [70, 70, 70, 70, 70, 70, 70, 70, 70, 70, 70, 70, 70, 70, 70, 70, 70, 70, 70, 70, 70, 70, 70, 70, 70, 70, 70, 70, 70, 70, 70, 70, 70, 70, 70, 70, 70, 70, 70, 70, 70, 70, 70, 70, 70, 70, 70, 70, 70, 70]
  const ROW_18: seq<int> := [70, 70, 70, 70, 70, 70, 70, 70, 70, 70, 70, 70, 70, 70, 70, 70, 70, 70, 70, 70, 70, 70, 70, 70, 70, 70, 70, 70, 70, 70, 70, 70, 70, 70, 70, 70, 70, 70, 70, 70, 70, 70, 70, 70, 70, 70, 70, 70, 70, 70]
  const ROW_19: seq<int> := [70, 70, 70, 70, 70, 70, 70, 70, 70, 70, 70, 70, 70, 70, 70, 70, 70, 70, 70, 70, 70, 70, 70, 70, 70, 70, 70, 70, 70, 70, 70, 70, 70, 70, 70, 70, 70, 70, 70, 70, 70, 70, 70, 70, 70, 70, 70, 70, 70, 70]
  const ROW_20: seq<int> := [70, 70, 70, 70, 70, 70, 70, 70, 70, 70, 70, 70, 70, 70, 70, 70, 70, 70, 70, 70, 70, 70, 70, 70, 70, 70, 70, 70, 70, 70, 70, 70, 70, 70, 70, 70, 70, 70, 70, 70, 70, 70, 70, 70, 70, 70, 70, 70, 70, 70]

  /** Graphic index of each overworld tile, row after row. */
  const OVERWORLD_MAP_TILE_INDICES: seq<int> :=
    ROW_00 + ROW_01 + ROW_02 + ROW_03 + ROW_04 + ROW_05 + ROW_06
    + ROW_07 + ROW_08 + ROW_09 + ROW_10 + ROW_11 + ROW_12 + ROW_13
    + ROW_14 + ROW_15 + ROW_16 + ROW_17 + ROW_18 + ROW_19 + ROW_20

  /** A level the player can pick on the overworld. */
  datatype OverworldNode = OverworldNode(x: int, y: int, description: string, difficulty: int)

  /** The levels, in the order the game searches them. */
  const OVERWORLD_MAP_NODES: seq<OverworldNode> := [
    OverworldNode(1, 3, "Green Hill Zone", 1),
    OverworldNode(7, 1, "Pumpkin Hill", 2),
    OverworldNode(9, 5, "Bot Land", 3),
    OverworldNode(11, 1, "The Casino", 4),
    OverworldNode(14, 5, "The Future", 5),
    OverworldNode(19, 3, "Lazy Town", 6)
  ]

  predicate IsAt(node: OverworldNode, tileX: int, tileY: int)
  {
    node.x == tileX && node.y == tileY
  }

  /** Position of a node's cell in the flat tile list. */
  function NodeIndex(node: OverworldNode): int
  {
    node.y * OVERWORLD_MAP_WIDTH + node.x
  }

  /** Scanning `nodes` from index i on, the index of the first node at (tileX, tileY). */
  function FirstNodeAt(nodes: seq<OverworldNode>, tileX: int, tileY: int, i: nat): (r: Option<nat>)
    requires i <= |nodes|
    ensures r.Some? ==> i <= r.value < |nodes| && IsAt(nodes[r.value], tileX, tileY)
    ensures r.Some? ==> forall j :: i <= j < r.value ==> !IsAt(nodes[j], tileX, tileY)
    ensures r.None? <==> forall j :: i <= j < |nodes| ==> !IsAt(nodes[j], tileX, tileY)
    decreases |nodes| - i
  {
    if i == |nodes| then None
    else if IsAt(nodes[i], tileX, tileY) then Some(i)
    else FirstNodeAt(nodes, tileX, tileY, i + 1)
  }

  /** The first node at the given tile coordinates, or nothing when no node is there. */
  function GetOverworldNode(tileX: int, tileY: int): (r: Option<OverworldNode>)
    ensures r.Some? ==> r.value in OVERWORLD_MAP_NODES && IsAt(r.value, tileX, tileY)
    ensures r.None? <==> forall j :: 0 <= j < |OVERWORLD_MAP_NODES| ==> !IsAt(OVERWORLD_MAP_NODES[j], tileX, tileY)
  {
    match FirstNodeAt(OVERWORLD_MAP_NODES, tileX, tileY, 0)
    case Some(i) => Some(OVERWORLD_MAP_NODES[i])
    case None => None
  }

  /** The cells of the tile list that hold one of `nodes`. */
  function NodeCells(nodes: seq<OverworldNode>): set<int>
  {
    set j | 0 <= j < |nodes| :: NodeIndex(nodes[j])
  }

  /** What the game hands to its map constructor for the overworld. */
  datatype OverworldMapSetup = OverworldMapSetup(
    mapTileIndices: seq<int>,
    doodadIndices: seq<Option<int>>,
    width: int)

  /** The overworld's mutable data: its tile list, which setting the map up paints over. */
  class OverworldMapData {
    const overworldMapTileIndices: array<int>

    ghost predicate Valid()
    {
      overworldMapTileIndices.Length == OVERWORLD_MAP_HEIGHT * OVERWORLD_MAP_WIDTH
    }

    constructor()
      ensures Valid()
      ensures fresh(overworldMapTileIndices)
      ensures overworldMapTileIndices[..] == OVERWORLD_MAP_TILE_INDICES
    {
      TileTableShape();
      overworldMapTileIndices := new int[|OVERWORLD_MAP_TILE_INDICES|](k requires 0 <= k < |OVERWORLD_MAP_TILE_INDICES| => OVERWORLD_MAP_TILE_INDICES[k]);
    }

    /**
     * Paints the spawner tile onto the cell of every node, in place, and
     * returns the tile list together with an empty doodad layer of the same
     * length. The game calls it once.
     */
    method InitializeOverworldMap() returns (setup: OverworldMapSetup)
      requires Valid()
      modifies overworldMapTileIndices
      ensures Valid()
      ensures forall k :: 0 <= k < overworldMapTileIndices.Length ==>
        overworldMapTileIndices[k] == if k in NodeCells(OVERWORLD_MAP_NODES) then SPAWNER_TILE else old(overworldMapTileIndices[k])
      ensures setup.mapTileIndices == overworldMapTileIndices[..]
      ensures |setup.doodadIndices| == |setup.mapTileIndices|
      ensures forall k :: 0 <= k < |setup.doodadIndices| ==> setup.doodadIndices[k] == None
      ensures setup.width == OVERWORLD_MAP_WIDTH
    {
      var mapTileIndices := overworldMapTileIndices;
      NodeIndicesInBounds();
      for i := 0 to |OVERWORLD_MAP_NODES|
        invariant forall k :: 0 <= k < mapTileIndices.Length ==>
          mapTileIndices[k] == if k in NodeCells(OVERWORLD_MAP_NODES[..i]) then SPAWNER_TILE else old(mapTileIndices[k])
      {
        var node := OVERWORLD_MAP_NODES[i];
        var index := node.y * OVERWORLD_MAP_WIDTH + node.x;
        mapTileIndices[index] := SPAWNER_TILE;
        NodeCellsStep(OVERWORLD_MAP_NODES, i);
      }
      assert OVERWORLD_MAP_NODES[..|OVERWORLD_MAP_NODES|] == OVERWORLD_MAP_NODES;

      var doodadIndices := seq(mapTileIndices.Length, _ => None);
      setup := OverworldMapSetup(mapTileIndices[..], doodadIndices, OVERWORLD_MAP_WIDTH);
    }
  }

  // ---------------------------------------------------------------------------
  // Properties
  // ---------------------------------------------------------------------------

  lemma NodeCellsStep(nodes: seq<OverworldNode>, i: nat)
    requires i < |nodes|
    ensures NodeCells(nodes[..i + 1]) == NodeCells(nodes[..i]) + {NodeIndex(nodes[i])}
  {
    var a, b := nodes[..i + 1], nodes[..i];
    assert forall j :: 0 <= j < i ==> a[j] == b[j];
    assert a[i] == nodes[i];
  }

  /** The tile list is a full grid: 21 rows of 50 tiles. */
  lemma TileTableShape()
    ensures |OVERWORLD_MAP_TILE_INDICES| == OVERWORLD_MAP_HEIGHT * OVERWORLD_MAP_WIDTH == 1050
  {
  }

  /** Every node lies on the grid, so painting its cell stays inside the tile list. */
  lemma NodeIndicesInBounds()
    ensures forall i :: 0 <= i < |OVERWORLD_MAP_NODES| ==>
      0 <= OVERWORLD_MAP_NODES[i].x < OVERWORLD_MAP_WIDTH && 0 <= OVERWORLD_MAP_NODES[i].y < OVERWORLD_MAP_HEIGHT
    ensures forall i :: 0 <= i < |OVERWORLD_MAP_NODES| ==>
      0 <= NodeIndex(OVERWORLD_MAP_NODES[i]) < OVERWORLD_MAP_HEIGHT * OVERWORLD_MAP_WIDTH
  {
  }

  /** The painted cells are 151, 57, 259, 61, 264 and 169. */
  lemma SpawnerCells()
    ensures NodeCells(OVERWORLD_MAP_NODES) == {151, 57, 259, 61, 264, 169}
  {
    var cells := NodeCells(OVERWORLD_MAP_NODES);
    assert NodeIndex(OVERWORLD_MAP_NODES[0]) == 151 && NodeIndex(OVERWORLD_MAP_NODES[1]) == 57;
    assert NodeIndex(OVERWORLD_MAP_NODES[2]) == 259 && NodeIndex(OVERWORLD_MAP_NODES[3]) == 61;
    assert NodeIndex(OVERWORLD_MAP_NODES[4]) == 264 && NodeIndex(OVERWORLD_MAP_NODES[5]) == 169;
    forall k | k in cells ensures k in {151, 57, 259, 61, 264, 169} {
      var j :| 0 <= j < |OVERWORLD_MAP_NODES| && k == NodeIndex(OVERWORLD_MAP_NODES[j]);
    }
  }

  /** No two nodes share a position. */
  lemma NodePositionsDistinct()
    ensures forall i, j :: 0 <= i < j < |OVERWORLD_MAP_NODES| ==>
      !IsAt(OVERWORLD_MAP_NODES[j], OVERWORLD_MAP_NODES[i].x, OVERWORLD_MAP_NODES[i].y)
  {
  }

  /** Looking a node up by its own position finds that node. */
  lemma EveryNodeIsFound(i: nat)
    requires i < |OVERWORLD_MAP_NODES|
    ensures GetOverworldNode(OVERWORLD_MAP_NODES[i].x, OVERWORLD_MAP_NODES[i].y) == Some(OVERWORLD_MAP_NODES[i])
  {
    NodePositionsDistinct();
  }

  /** The first level is at tile (1, 3); tile (0, 0) holds no level. */
  lemma LookupExamples()
    ensures GetOverworldNode(1, 3) == Some(OverworldNode(1, 3, "Green Hill Zone", 1))
    ensures GetOverworldNode(0, 0) == None
  {
    EveryNodeIsFound(0);
  }
}
