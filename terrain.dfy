/**
 * Terrain generation of the voxel demo (`generateTerrain`): one block per
 * cell of the square grid [-terrainSize, terrainSize)², visited x-major,
 * each block on the plane y = 0 with a type drawn at random from the five
 * block types. The random draws are an input: the k-th draw of
 * `Math.random()` is `rolls[k]`, a real in [0, 1). The scene mesh of each
 * block is not modelled.
 */
module Terrain {

  const BlockSize: int := 1
  const TerrainSize: int := 10
  const BlockTypes: seq<string> := ["grass", "stone", "dirt", "wood", "ore"]

  /** The record pushed for each block: its type and the position it was placed at. */
  datatype Block = Block(blockType: string, x: int, y: int, z: int)

  /** A value `Math.random()` can return. */
  predicate ValidRoll(r: real)
  {
    0.0 <= r < 1.0
  }

  predicate ValidRolls(rolls: seq<real>)
  {
    forall k :: 0 <= k < |rolls| ==> ValidRoll(rolls[k])
  }

  /** `Math.floor(roll * blockTypes.length)`: always a valid index into the type list. */
  function TypeIndex(roll: real): (i: int)
    requires ValidRoll(roll)
    ensures 0 <= i < |BlockTypes|
  {
    (roll * (|BlockTypes| as real)).Floor
  }

  /** The number of cells along one side of the grid. */
  function Side(size: int): nat
  {
    if size > 0 then 2 * size else 0
  }

  /** The number of blocks the nested loops create. */
  function CellCount(size: int): nat
  {
    Side(size) * Side(size)
  }

  /** The grid coordinates of the k-th cell the loops visit: x-major, then z. */
  function CellX(size: int, k: nat): int
    requires Side(size) > 0
  {
    -size + k / Side(size)
  }

  function CellZ(size: int, k: nat): int
    requires Side(size) > 0
  {
    -size + k % Side(size)
  }

  /** The k-th block created, using the k-th random draw. */
  function BlockAt(size: int, rolls: seq<real>, k: nat): (b: Block)
    requires ValidRolls(rolls) && k < |rolls| && Side(size) > 0
    ensures b.y == 0
    ensures b.blockType in BlockTypes
  {
    Block(BlockTypes[TypeIndex(rolls[k])], CellX(size, k) * BlockSize, 0, CellZ(size, k) * BlockSize)
  }

  /** The blocks generated for a grid of half-extent `size`, in creation order. */
  function Terrain(size: int, rolls: seq<real>): (r: seq<Block>)
    requires ValidRolls(rolls) && |rolls| == CellCount(size)
    ensures |r| == CellCount(size)
  {
    if Side(size) == 0 then []
    else seq(|rolls|, k requires 0 <= k < |rolls| => BlockAt(size, rolls, k))
  }

  /** Block a comes strictly earlier than block b in x-major, then z, order. */
  predicate Before(a: Block, b: Block)
  {
    a.x < b.x || (a.x == b.x && a.z < b.z)
  }

  // ---------------------------------------------------------------------
  // Arithmetic on the cell numbering

  /** Dividing q·m + r by m, with 0 <= r < m, gives back q and r. */
  lemma DivModOf(q: int, r: int, m: int)
    requires m > 0 && 0 <= r < m
    ensures (q * m + r) / m == q
    ensures (q * m + r) % m == r
  {
    var n := q * m + r;
    var q', r' := n / m, n % m;
    assert n == q' * m + r';
    assert (q - q') * m == r' - r;
    if q > q' {
      MulAtLeast(q - q', m);
    } else if q < q' {
      MulAtLeast(q' - q, m);
    }
  }

  lemma MulAtLeast(a: int, m: int)
    requires a >= 1 && m > 0
    ensures a * m >= m
  {
  }

  /** Cell numbers increase exactly with x-major, then z, order. */
  lemma CellOrder(size: int, i: nat, j: nat)
    requires Side(size) > 0 && i < j
    ensures CellX(size, i) < CellX(size, j)
      || (CellX(size, i) == CellX(size, j) && CellZ(size, i) < CellZ(size, j))
  {
    var m := Side(size);
    var qi, ri, qj, rj := i / m, i % m, j / m, j % m;
    assert i == qi * m + ri && j == qj * m + rj;
    if qi > qj {
      MulAtLeast(qi - qj, m);
      assert false;
    }
  }

  // ---------------------------------------------------------------------
  // Properties of the generated terrain

  /** A cell number below m·m has its row below m. */
  lemma RowBound(k: nat, m: int)
    requires m > 0 && k < m * m
    ensures 0 <= k / m < m
  {
    DivModBasics(k, m);
    if k / m < 0 {
      MulLe(k / m, -1, m);
      assert false;
    }
    if k / m >= m {
      MulLe(m, k / m, m);
      assert false;
    }
  }

  lemma DivModBasics(k: int, m: int)
    requires m > 0
    ensures k == (k / m) * m + k % m && 0 <= k % m < m
  {
  }

  lemma MulLe(a: int, b: int, m: int)
    requires a <= b && m >= 0
    ensures a * m <= b * m
  {
    assert b * m - a * m == (b - a) * m;
  }

  /**
   * Every block lies on a grid cell inside [-size, size)², scaled by the
   * block size, at y = 0, and its type is the entry of the type list picked
   * by its own random draw.
   */
  lemma TerrainBlock(size: int, rolls: seq<real>, k: nat)
    requires ValidRolls(rolls) && |rolls| == CellCount(size)
    requires k < |rolls|
    ensures Side(size) > 0
    ensures var b := Terrain(size, rolls)[k];
      && b.x == CellX(size, k) * BlockSize && -size <= CellX(size, k) < size
      && b.z == CellZ(size, k) * BlockSize && -size <= CellZ(size, k) < size
      && b.y == 0
      && b.blockType == BlockTypes[TypeIndex(rolls[k])]
      && b.blockType in BlockTypes
  {
    var m := Side(size);
    assert m > 0 && m == 2 * size;
    RowBound(k, m);
    DivModBasics(k, m);
  }

  /** Blocks appear in strictly increasing x-major, then z, order. */
  lemma TerrainOrdered(size: int, rolls: seq<real>, i: nat, j: nat)
    requires ValidRolls(rolls) && |rolls| == CellCount(size)
    requires i < j < |rolls|
    ensures Before(Terrain(size, rolls)[i], Terrain(size, rolls)[j])
  {
    assert Side(size) > 0;
    CellOrder(size, i, j);
    var t := Terrain(size, rolls);
    assert t[i] == BlockAt(size, rolls, i) && t[j] == BlockAt(size, rolls, j);
    assert t[i].x == CellX(size, i) && t[i].z == CellZ(size, i);
    assert t[j].x == CellX(size, j) && t[j].z == CellZ(size, j);
  }

  /** Each cell of [-size, size)² gets a block, at a known position in the sequence. */
  lemma TerrainCovers(size: int, rolls: seq<real>, cx: int, cz: int)
    requires ValidRolls(rolls) && |rolls| == CellCount(size)
    requires -size <= cx < size && -size <= cz < size
    ensures var k := (cx + size) * Side(size) + (cz + size);
      && 0 <= k < |Terrain(size, rolls)|
      && Terrain(size, rolls)[k].x == cx * BlockSize
      && Terrain(size, rolls)[k].z == cz * BlockSize
  {
    var k := (cx + size) * Side(size) + (cz + size);
    CellNumber(size, cx, cz);
    var t := Terrain(size, rolls);
    assert t[k] == BlockAt(size, rolls, k);
  }

  /** The cell (cx, cz) is visited as number (cx + size)·2size + (cz + size). */
  lemma CellNumber(size: int, cx: int, cz: int)
    requires -size <= cx < size && -size <= cz < size
    ensures Side(size) > 0
    ensures var k := (cx + size) * Side(size) + (cz + size);
      && 0 <= k < CellCount(size) && CellX(size, k) == cx && CellZ(size, k) == cz
  {
    var m := Side(size);
    assert m == 2 * size;
    DivModOf(cx + size, cz + size, m);
    MulLe(cx + size, m - 1, m);
  }

  /** No cell gets two blocks. */
  lemma TerrainOncePerCell(size: int, rolls: seq<real>, i: nat, j: nat)
    requires ValidRolls(rolls) && |rolls| == CellCount(size)
    requires i < |rolls| && j < |rolls|
    requires Terrain(size, rolls)[i].x == Terrain(size, rolls)[j].x
    requires Terrain(size, rolls)[i].z == Terrain(size, rolls)[j].z
    ensures i == j
  {
    if i < j { TerrainOrdered(size, rolls, i, j); }
    if j < i { TerrainOrdered(size, rolls, j, i); }
  }

  // ---------------------------------------------------------------------
  // The global block list

  /** The world's `blocks` array, which terrain generation appends to. */
  class World {
    var blocks: seq<Block>

    constructor ()
      ensures blocks == []
    {
      blocks := [];
    }

    /** `generateTerrain`: the nested loops over the grid, pushing one block per cell. */
    method GenerateTerrain(rolls: seq<real>)
      requires ValidRolls(rolls) && |rolls| == CellCount(TerrainSize)
      modifies this
      ensures blocks == old(blocks) + Terrain(TerrainSize, rolls)
      ensures |blocks| == |old(blocks)| + 400
    {
      var m := Side(TerrainSize);
      ghost var all := Terrain(TerrainSize, rolls);
      var next := 0;
      for x := -TerrainSize to TerrainSize
        invariant next == (x + TerrainSize) * m
        invariant blocks == old(blocks) + all[..next]
      {
        for z := -TerrainSize to TerrainSize
          invariant next == (x + TerrainSize) * m + (z + TerrainSize)
          invariant blocks == old(blocks) + all[..next]
        {
          var blockType := BlockTypes[TypeIndex(rolls[next])];
          DivModOf(x + TerrainSize, z + TerrainSize, m);
          assert all[next] == Block(blockType, x * BlockSize, 0, z * BlockSize);
          assert all[..next + 1] == all[..next] + [all[next]];
          blocks := blocks + [Block(blockType, x * BlockSize, 0, z * BlockSize)];
          next := next + 1;
        }
      }
      assert all[..next] == all;
    }
  }
}
