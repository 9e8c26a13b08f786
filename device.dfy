/** The compute device, reduced to what the host relies on: each kernel launch
    is a step that updates the device buffers in place, and completes before
    the next launch begins (the host waits after every launch). The kernels are
    written as sequential loops that meet the postconditions of the stages. */
module Device {
  import opened PrefixSum
  import opened Geometry
  import opened Stages

  lemma MulSucc(u: int, t: int)
    ensures (u + 1) * t == u * t + t
  {
  }

  /** One work-group of kernel `scan`: the items from `start` up to `stop`
      are replaced by their exclusive scan, and their total is returned. */
  method ScanTile(data: array<int>, start: int, stop: int) returns (total: int)
    requires 0 <= start <= stop <= data.Length
    modifies data
    ensures total == Sum(old(data[..])[start..stop])
    ensures forall j :: 0 <= j < data.Length ==>
      data[j] == if start <= j < stop then Sum(old(data[..])[start..j]) else old(data[j])
  {
    ghost var s := data[..];
    var i := start;
    total := 0;
    while i < stop
      invariant start <= i <= stop
      invariant total == Sum(s[start..i])
      invariant forall j :: 0 <= j < data.Length ==>
        data[j] == if start <= j < i then Sum(s[start..j]) else s[j]
    {
      SumExtend(s, start, i);
      data[i], total := total, total + data[i];
      i := i + 1;
    }
  }

  /** Progress of the tile scan: the items before `start` hold their final
      values and the rest still hold the input. */
  ghost predicate ScannedBefore(d: seq<int>, s: seq<int>, t: int, start: int)
    requires t > 0
  {
    |d| == |s| &&
    forall j :: 0 <= j < |s| ==> d[j] == if j < start then TileScanData(s, t)[j] else s[j]
  }

  /** Progress of the tile scan: the totals of the tiles before u are stored. */
  ghost predicate TotalsBefore(r: seq<int>, ts: seq<int>, s: seq<int>, t: int, u: int)
    requires t > 0
  {
    |r| == |ts| &&
    forall v :: 0 <= v < |ts| ==> r[v] == if v < u then Sum(Tile(s, t, v)) else ts[v]
  }

  /** Scanning tile u in place (items u*t up to stop) extends the scanned prefix by that tile. */
  lemma TileScanned(before: seq<int>, after: seq<int>, s: seq<int>, t: int, u: int, start: int, stop: int)
    requires t > 0 && 0 <= u && start == u * t && start <= stop <= |s|
    requires stop == if start + t < |s| then start + t else |s|
    requires ScannedBefore(before, s, t, start) && |after| == |before|
    requires forall j :: 0 <= j < |after| ==>
      after[j] == if start <= j < stop then Sum(before[start..j]) else before[j]
    ensures ScannedBefore(after, s, t, start + t)
  {
    forall j | 0 <= j < |s|
      ensures after[j] == if j < start + t then TileScanData(s, t)[j] else s[j]
    {
      if j < start {
        assert after[j] == before[j];
      } else if j < stop {
        TileScanDataInTile(s, t, u, j);
        assert before[start..j] == s[start..j];
      } else {
        assert after[j] == before[j] == s[j];
      }
    }
  }

  /** Storing the total of tile u (when the buffer has an entry for it) extends the stored totals by one. */
  lemma TotalStored(before: seq<int>, ts: seq<int>, s: seq<int>, t: int, u: int, total: int)
    requires t > 0 && 0 <= u && TotalsBefore(before, ts, s, t, u) && total == Sum(Tile(s, t, u))
    ensures TotalsBefore(if u < |before| then before[u := total] else before, ts, s, t, u + 1)
  {
  }

  /** One work-group of kernel `scan`, tile u: scans the tile in place and stores its total. */
  method ScanNextTile(data: array<int>, tileSum: array<int>, t: int, u: int,
                      ghost s: seq<int>, ghost ts: seq<int>)
    requires t > 0 && data != tileSum && 0 <= u && u * t < data.Length
    requires ScannedBefore(data[..], s, t, u * t)
    requires TotalsBefore(tileSum[..], ts, s, t, u)
    modifies data, tileSum
    ensures ScannedBefore(data[..], s, t, u * t + t)
    ensures TotalsBefore(tileSum[..], ts, s, t, u + 1)
  {
    var n, start := data.Length, u * t;
    var stop := if start + t < n then start + t else n;
    ghost var before, sums := data[..], tileSum[..];
    assert before[start..stop] == s[start..stop] == Tile(s, t, u);
    var total := ScanTile(data, start, stop);
    TileScanned(before, data[..], s, t, u, start, stop);
    ghost var after := data[..];
    if u < tileSum.Length {
      tileSum[u] := total;
    }
    assert tileSum[..] == if u < |sums| then sums[u := total] else sums;
    TotalStored(sums, ts, s, t, u, total);
    assert data[..] == after;
  }

  /** Kernel `scan` over `tile_count` work-groups of t items: each tile of
      `data` is replaced by its own exclusive scan, and the tile's total is
      stored in `tileSum` (dropped if the tile is past the end of `tileSum`). */
  method TileScanStage(data: array<int>, tileSum: array<int>, t: int)
    requires t > 0 && data != tileSum
    modifies data, tileSum
    ensures data[..] == TileScanData(old(data[..]), t)
    ensures tileSum[..] == TotalsStored(old(tileSum[..]), old(data[..]), t)
  {
    ghost var s := data[..];
    ghost var ts := tileSum[..];
    var start, u := 0, 0;
    while start < data.Length
      invariant 0 <= u && start == u * t && start < data.Length + t
      invariant ScannedBefore(data[..], s, t, start)
      invariant TotalsBefore(tileSum[..], ts, s, t, u)
    {
      ScanNextTile(data, tileSum, t, u, s, ts);
      MulSucc(u, t);
      start, u := start + t, u + 1;
    }
    TileCountUnique(data.Length, t, u);
    assert data[..] == TileScanData(s, t);
    assert tileSum[..] == TotalsStored(ts, s, t);
  }

  /** Kernel `scan` as one work-group of c items over `tileSum` alone: an
      in-place exclusive scan of its first c entries (of those that exist). */
  method OffsetScanStage(tileSum: array<int>, c: int)
    modifies tileSum
    ensures tileSum[..] == OffsetScan(old(tileSum[..]), c)
  {
    ghost var ts := tileSum[..];
    var m := if c < 0 then 0 else if c < tileSum.Length then c else tileSum.Length;
    var run, i := 0, 0;
    while i < m
      invariant 0 <= i <= m
      invariant run == Sum(ts[..i])
      invariant forall v :: 0 <= v < tileSum.Length ==>
        tileSum[v] == if v < i then OffsetScan(ts, c)[v] else ts[v]
    {
      SumExtend(ts, 0, i);
      assert ts[0..i] == ts[..i] && ts[0..i + 1] == ts[..i + 1];
      tileSum[i], run := run, run + tileSum[i];
      i := i + 1;
    }
    assert tileSum[..] == OffsetScan(ts, c);
  }

  /** Kernel `uniform_add` over `tile_count` work-groups of t items: every item
      receives its tile's entry of `tileSum` (a missing entry reads as 0). */
  method UniformAddStage(data: array<int>, tileSum: array<int>, t: int)
    requires t > 0 && data != tileSum
    modifies data
    ensures data[..] == UniformAdd(old(data[..]), tileSum[..], t)
  {
    ghost var s := data[..];
    ghost var target := UniformAdd(s, tileSum[..], t);
    var i := 0;
    while i < data.Length
      invariant 0 <= i <= data.Length
      invariant forall j :: 0 <= j < data.Length ==> data[j] == if j < i then target[j] else s[j]
    {
      var u := i / t;
      var offset := if u < tileSum.Length then tileSum[u] else 0;
      assert target[i] == s[i] + offset;
      data[i] := data[i] + offset;
      i := i + 1;
    }
    assert data[..] == target;
  }
}
