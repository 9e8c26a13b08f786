/** What each of the three device stages does to the buffers, as sequential
    postconditions on their contents (the kernels' parallel schedules are not
    modelled), and the theorem that their composition is an exclusive scan. */
module Stages {
  import opened PrefixSum
  import opened Geometry

  /** A device load: indexes outside the buffer read the additive identity. */
  function At(s: seq<int>, i: int): int
  {
    if 0 <= i < |s| then s[i] else 0
  }

  /** The first index of the tile that holds index j. */
  function TileStart(j: int, t: int): (r: int)
    requires j >= 0 && t > 0
    ensures 0 <= r <= j < r + t
    ensures r == (j / t) * t
  {
    (j / t) * t
  }

  /** The items of tile u of s: indexes u*t up to (u+1)*t, clipped to the
      sequence, so that a tile past the end is empty and the last tile is
      padded with nothing (equivalently, with zeros). */
  function Tile(s: seq<int>, t: int, u: int): (r: seq<int>)
    requires t > 0 && u >= 0
    ensures |r| <= t
  {
    var lo := if u * t < |s| then u * t else |s|;
    var hi := if u * t + t < |s| then u * t + t else |s|;
    s[lo..hi]
  }

  /** Stage 1 on the data buffer: every item replaced by the exclusive prefix
      sum of its own tile up to it. */
  function TileScanData(s: seq<int>, t: int): (r: seq<int>)
    requires t > 0
    ensures |r| == |s|
  {
    seq(|s|, j requires 0 <= j < |s| => Sum(s[TileStart(j, t)..j]))
  }

  /** Stage 1 on the tile-sum buffer: entry u < tile_count receives the total
      of tile u; other entries keep their value. A store for a tile past the
      end of the buffer is dropped. */
  function TotalsStored(ts: seq<int>, s: seq<int>, t: int): (r: seq<int>)
    requires t > 0
    ensures |r| == |ts|
  {
    seq(|ts|, u requires 0 <= u < |ts| =>
      if u < TileCount(|s|, t) then Sum(Tile(s, t, u)) else ts[u])
  }

  /** Stage 2: an in-place exclusive scan of the first c entries of the
      tile-sum buffer; later entries keep their value. */
  function OffsetScan(ts: seq<int>, c: int): (r: seq<int>)
    ensures |r| == |ts|
  {
    seq(|ts|, i requires 0 <= i < |ts| => if i < c then Sum(ts[..i]) else ts[i])
  }

  /** Stage 3: every data item receives the entry of its tile in the tile-sum buffer. */
  function UniformAdd(d: seq<int>, ts: seq<int>, t: int): (r: seq<int>)
    requires t > 0
    ensures |r| == |d|
  {
    seq(|d|, j requires 0 <= j < |d| => d[j] + At(ts, j / t))
  }

  /** Item j of tile u after stage 1 is the sum of the items of that tile before j. */
  lemma TileScanDataInTile(s: seq<int>, t: int, u: int, j: int)
    requires t > 0 && u >= 0 && u * t <= j < u * t + t && j < |s|
    ensures TileScanData(s, t)[j] == Sum(s[u * t..j])
  {
    DivInTile(j, u, t);
  }

  /** Stage 1 computes, within each tile, the exclusive prefix sum of that tile alone. */
  lemma TileScanIsLocalScan(s: seq<int>, t: int, u: int, i: int)
    requires t > 0 && u >= 0 && 0 <= i < t && u * t + i < |s|
    ensures TileScanData(s, t)[u * t + i] == ExclusivePrefixSum(Tile(s, t, u))[i]
  {
    var j := u * t + i;
    DivInTile(j, u, t);
    assert Tile(s, t, u)[..i] == s[u * t..j];
  }

  /** A tile that ends inside the sequence is a full slice of t items. */
  lemma FullTile(s: seq<int>, t: int, u: int)
    requires t > 0 && u >= 0 && u * t + t <= |s|
    ensures Tile(s, t, u) == s[u * t..u * t + t]
  {
  }

  /** The tiles before tile k, when they are all full, hold the first k*t items,
      so the totals of those tiles add up to the sum of those items. */
  lemma {:induction false} SumOfTotals(s: seq<int>, t: int, ts: seq<int>, k: int)
    requires t > 0 && 0 <= k <= |ts| && k * t <= |s|
    requires forall u :: 0 <= u < k ==> ts[u] == Sum(Tile(s, t, u))
    ensures Sum(ts[..k]) == Sum(s[..k * t])
  {
    if k > 0 {
      LastTileAdds(s, t, ts, k);
      SumOfTotals(s, t, ts, k - 1);
    } else {
      assert ts[..0] == [] && s[..0] == [];
    }
  }

  /** Adding the total of full tile k-1 extends both sums by one tile. */
  lemma LastTileAdds(s: seq<int>, t: int, ts: seq<int>, k: int)
    requires t > 0 && 0 < k <= |ts| && k * t <= |s| && ts[k - 1] == Sum(Tile(s, t, k - 1))
    ensures (k - 1) * t + t == k * t
    ensures Sum(ts[..k]) == Sum(ts[..k - 1]) + ts[k - 1]
    ensures Sum(s[..k * t]) == Sum(s[..(k - 1) * t]) + ts[k - 1]
  {
    var lo, hi := (k - 1) * t, k * t;
    assert lo + t == hi;
    assert ts[..k][..k - 1] == ts[..k - 1];
    FullTile(s, t, k - 1);
    assert s[..lo] == s[0..lo] && s[..hi] == s[0..hi];
    SumSplit(s, 0, lo, hi);
  }

  /** The offset of tile k after stage 2 is the sum of every item before the tile. */
  lemma OffsetOfTile(s: seq<int>, t: int, ts: seq<int>, k: int)
    requires t > 0 && 0 <= k < TileCount(|s|, t) <= |ts| && k * t <= |s|
    ensures OffsetScan(TotalsStored(ts, s, t), TileCount(|s|, t))[k] == Sum(s[..k * t])
  {
    var stored := TotalsStored(ts, s, t);
    assert forall u :: 0 <= u < k ==> stored[u] == Sum(Tile(s, t, u));
    SumOfTotals(s, t, stored, k);
  }

  /** The end-to-end theorem: tile scan, then offset scan of the tile totals,
      then uniform add computes the exclusive prefix sum of the input, whenever
      the tile-sum buffer has room for every tile. */
  lemma HierarchicalScanCorrect(s: seq<int>, ts: seq<int>, t: int)
    requires t > 0 && TileCount(|s|, t) <= |ts|
    ensures UniformAdd(TileScanData(s, t), OffsetScan(TotalsStored(ts, s, t), TileCount(|s|, t)), t)
            == ExclusivePrefixSum(s)
  {
    var c := TileCount(|s|, t);
    var offsets := OffsetScan(TotalsStored(ts, s, t), c);
    var r := UniformAdd(TileScanData(s, t), offsets, t);
    forall j | 0 <= j < |s|
      ensures r[j] == ExclusivePrefixSum(s)[j]
    {
      ItemScanned(s, ts, t, j);
    }
  }

  /** Item j after the three stages: its tile-local sum plus its tile's offset
      is the sum of everything before it. */
  lemma ItemScanned(s: seq<int>, ts: seq<int>, t: int, j: int)
    requires t > 0 && TileCount(|s|, t) <= |ts| && 0 <= j < |s|
    ensures UniformAdd(TileScanData(s, t), OffsetScan(TotalsStored(ts, s, t), TileCount(|s|, t)), t)[j]
            == ExclusivePrefixSum(s)[j]
  {
    var k := j / t;
    var lo := k * t;
    var offsets := OffsetScan(TotalsStored(ts, s, t), TileCount(|s|, t));
    TileOfIndex(|s|, t, j);
    OffsetOfTile(s, t, ts, k);
    assert At(offsets, k) == Sum(s[..lo]);
    assert TileScanData(s, t)[j] == Sum(s[lo..j]);
    assert s[..lo] == s[0..lo] && s[..j] == s[0..j];
    SumSplit(s, 0, lo, j);
  }

  /** The partial sums the worked example below needs. */
  lemma ConcreteSums()
    ensures Sum([]) == 0 && Sum([9]) == 9
    ensures Sum([3]) == 3 && Sum([3, 1]) == 4 && Sum([3, 1, 4]) == 8 && Sum([3, 1, 4, 1]) == 9
    ensures Sum([5]) == 5 && Sum([5, 9]) == 14 && Sum([5, 9, 2]) == 16 && Sum([5, 9, 2, 6]) == 22
  {
    assert [3, 1][..1] == [3] && [3, 1, 4][..2] == [3, 1] && [3, 1, 4, 1][..3] == [3, 1, 4];
    assert [5, 9][..1] == [5] && [5, 9, 2][..2] == [5, 9] && [5, 9, 2, 6][..3] == [5, 9, 2];
    assert [3][..0] == [] && [5][..0] == [] && [9][..0] == [];
  }

  /** The worked example: [3,1,4,1,5,9,2,6] in tiles of 4, with a zeroed
      four-entry tile-sum buffer, has tile sums [9,22], offsets [0,9] and
      exclusive scan [0,3,4,8,9,14,23,25]. */
  lemma EightItemsInTilesOfFour()
    ensures TotalsStored([0, 0, 0, 0], [3, 1, 4, 1, 5, 9, 2, 6], 4) == [9, 22, 0, 0]
    ensures OffsetScan([9, 22, 0, 0], 2) == [0, 9, 0, 0]
    ensures TileScanData([3, 1, 4, 1, 5, 9, 2, 6], 4) == [0, 3, 4, 8, 0, 5, 14, 16]
    ensures UniformAdd([0, 3, 4, 8, 0, 5, 14, 16], [0, 9, 0, 0], 4) == [0, 3, 4, 8, 9, 14, 23, 25]
    ensures ExclusivePrefixSum([3, 1, 4, 1, 5, 9, 2, 6]) == [0, 3, 4, 8, 9, 14, 23, 25]
  {
    var s := [3, 1, 4, 1, 5, 9, 2, 6];
    assert TileCount(8, 4) == 2;
    ConcreteSums();
    assert Tile(s, 4, 0) == [3, 1, 4, 1];
    assert Tile(s, 4, 1) == [5, 9, 2, 6];
    assert [9, 22, 0, 0][..0] == [] && [9, 22, 0, 0][..1] == [9];
    var d := TileScanData(s, 4);
    forall j | 0 <= j < 8 ensures d[j] == [0, 3, 4, 8, 0, 5, 14, 16][j] {
      var st := TileStart(j, 4);
      assert st == if j < 4 then 0 else 4;
      assert s[st..j] == [[], [3], [3, 1], [3, 1, 4], [], [5], [5, 9], [5, 9, 2]][j];
    }
    HierarchicalScanCorrect(s, [0, 0, 0, 0], 4);
  }
}
