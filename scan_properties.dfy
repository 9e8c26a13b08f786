/** What the as-written host code guarantees, stated about the specifications
    `ExclusiveScanSpec` and `RunSpec` that its methods are proved against. */
module ScanProperties {
  import opened PrefixSum
  import opened Geometry
  import opened Stages
  import opened Trace
  import opened ScanCL

  // ---------------------------------------------------------------------------
  // ExclusiveScan

  /** `ExclusiveScan` returns true exactly when both checked bindings succeed
      and the tile count fits in one work-group of the tile size. */
  lemma ExclusiveScanResult(s: seq<int>, ts: seq<int>, t: int, env: Backend)
    requires t > 0
    ensures ExclusiveScanSpec(s, ts, t, env).ok
            <==> env.bindTileScan && env.bindOffsetScan && TileCount(|s|, t) <= t
  {
  }

  /** The launches `ExclusiveScan` issues, in order: the tile scan over
      tile_count work-groups of t items, the offset scan as one work-group of
      tile_count items, and the uniform add with the tile scan's geometry.
      A binding failure in phase 1 or 2, or a refused shape, stops the
      sequence; a failed launch never does. */
  lemma ExclusiveScanLaunches(s: seq<int>, ts: seq<int>, t: int, env: Backend)
    requires t > 0
    ensures var c := TileCount(|s|, t);
      var g := GlobalSize(|s|, t);
      ExclusiveScanSpec(s, ts, t, env).launches ==
        if !env.bindTileScan then []
        else if !env.bindOffsetScan || c > t then [Launch(ScanKernel, g, t)]
        else [Launch(ScanKernel, g, t), Launch(ScanKernel, c, c), Launch(UniformAddKernel, g, t)]
  {
  }

  /** The phase log lines come in the phase order, each after its phase's
      launch: on a full run the log is "finish tile scan", "finish offset
      scan", "finish uniform add", with a failure line after a phase whose
      launch (or, for the uniform add, whose binding) failed. */
  lemma ExclusiveScanLog(s: seq<int>, ts: seq<int>, t: int, env: Backend)
    requires t > 0 && env.bindTileScan && env.bindOffsetScan && TileCount(|s|, t) <= t
    ensures ExclusiveScanSpec(s, ts, t, env).log ==
      (if env.launchTileScan then [] else [EnqueueFailed]) + [FinishTileScan]
      + (if env.launchOffsetScan then [] else [EnqueueFailed]) + [FinishOffsetScan]
      + (if env.bindUniformAdd then [] else [EnqueueFailed]) + [FinishUniformAdd]
  {
  }

  /** The geometry of every launch `ExclusiveScan` issues. Either it is a
      tile-scan or uniform-add launch in work-groups of t items whose global
      size is a whole number of work-groups, covers the N items and wastes less
      than one work-group; or it is the offset scan, a single work-group of
      tile_count items, no larger than t. A non-empty input gives every launch
      a non-empty work-group. */
  lemma ExclusiveScanGeometry(s: seq<int>, ts: seq<int>, t: int, env: Backend, e: Launch)
    requires t > 0
    requires e in ExclusiveScanSpec(s, ts, t, env).launches
    ensures || (e.local == t && e.global % t == 0 && e.global / t == TileCount(|s|, t)
                && |s| <= e.global < |s| + t)
            || (e.kernel == ScanKernel && e.global == e.local == TileCount(|s|, t) <= t)
    ensures |s| > 0 ==> e.local > 0
  {
    ExclusiveScanLaunches(s, ts, t, env);
    TileCountZero(|s|, t);
  }

  /** A failed launch is only logged: the return value and the launches that
      follow are those of a run where every launch succeeds. */
  lemma LaunchFailuresDoNotStop(s: seq<int>, ts: seq<int>, t: int, env: Backend)
    requires t > 0
    ensures var all := env.(launchTileScan := true, launchOffsetScan := true, launchUniformAdd := true);
      ExclusiveScanSpec(s, ts, t, env).ok == ExclusiveScanSpec(s, ts, t, all).ok
      && ExclusiveScanSpec(s, ts, t, env).launches == ExclusiveScanSpec(s, ts, t, all).launches
  {
    var all := env.(launchTileScan := true, launchOffsetScan := true, launchUniformAdd := true);
    ExclusiveScanLaunches(s, ts, t, env);
    ExclusiveScanLaunches(s, ts, t, all);
  }

  /** Phase 3's own launch result is never examined: when its bindings
      succeed, a failed launch leaves the same log and return value as a
      successful one, while the data buffer is left without the offsets. */
  lemma UniformAddFailureIsSilent(s: seq<int>, ts: seq<int>, t: int, env: Backend)
    requires t > 0 && env.bindUniformAdd
    ensures var failed := ExclusiveScanSpec(s, ts, t, env.(launchUniformAdd := false));
      var done := ExclusiveScanSpec(s, ts, t, env.(launchUniformAdd := true));
      failed.ok == done.ok && failed.launches == done.launches && failed.log == done.log
      && failed.tileSum == done.tileSum
      && failed.data == TileScanPhase(s, ts, t, env).data
  {
  }

  /** A binding failure in phase 1 leaves both buffers untouched; one in
      phase 2, or a refused shape, leaves them as phase 1 left them: the
      offset scan and the uniform add never touch them. */
  lemma EarlyReturnsStopDeviceWork(s: seq<int>, ts: seq<int>, t: int, env: Backend)
    requires t > 0
    ensures !env.bindTileScan ==>
      var r := ExclusiveScanSpec(s, ts, t, env);
      !r.ok && r.data == s && r.tileSum == ts
    ensures env.bindTileScan && (!env.bindOffsetScan || TileCount(|s|, t) > t) ==>
      var r := ExclusiveScanSpec(s, ts, t, env);
      !r.ok
      && r.data == (if env.launchTileScan then TileScanData(s, t) else s)
      && r.tileSum == (if env.launchTileScan then TotalsStored(ts, s, t) else ts)
  {
  }

  /** The end-to-end theorem for `ExclusiveScan`: when every device call
      succeeds, the tile count is at most t and the tile-sum buffer has an
      entry per tile, it returns true, the data buffer holds the exclusive
      prefix sum of its old contents, and the tile-sum buffer holds each
      tile's offset, the sum of all items before the tile. */
  lemma ExclusiveScanCorrect(s: seq<int>, ts: seq<int>, t: int, env: Backend)
    requires t > 0 && TileCount(|s|, t) <= t && TileCount(|s|, t) <= |ts|
    requires env.bindTileScan && env.launchTileScan && env.bindOffsetScan
             && env.launchOffsetScan && env.bindUniformAdd && env.launchUniformAdd
    ensures var r := ExclusiveScanSpec(s, ts, t, env);
      r.ok && r.data == ExclusivePrefixSum(s)
      && forall k :: 0 <= k < TileCount(|s|, t) ==> k * t < |s| && r.tileSum[k] == Sum(s[..k * t])
  {
    var r := ExclusiveScanSpec(s, ts, t, env);
    var offsets := OffsetScan(TotalsStored(ts, s, t), TileCount(|s|, t));
    FullRunStages(s, ts, t, env);
    HierarchicalScanCorrect(s, ts, t);
    TileOffsets(s, ts, t);
    assert r.tileSum == offsets;
  }

  /** After the offset scan, each tile's entry is the sum of the items before the tile. */
  lemma TileOffsets(s: seq<int>, ts: seq<int>, t: int)
    requires t > 0 && TileCount(|s|, t) <= |ts|
    ensures var offsets := OffsetScan(TotalsStored(ts, s, t), TileCount(|s|, t));
      forall k :: 0 <= k < TileCount(|s|, t) ==> k * t < |s| && offsets[k] == Sum(s[..k * t])
  {
    var c := TileCount(|s|, t);
    forall k | 0 <= k < c
      ensures k * t < |s| && OffsetScan(TotalsStored(ts, s, t), c)[k] == Sum(s[..k * t])
    {
      TileOffset(s, ts, t, k);
    }
  }

  /** Tile k below the tile count starts inside the input, and its offset is the sum before it. */
  lemma TileOffset(s: seq<int>, ts: seq<int>, t: int, k: int)
    requires t > 0 && TileCount(|s|, t) <= |ts| && 0 <= k < TileCount(|s|, t)
    ensures k * t < |s| && OffsetScan(TotalsStored(ts, s, t), TileCount(|s|, t))[k] == Sum(s[..k * t])
  {
    var c := TileCount(|s|, t);
    MulMonotone(k, c - 1, t);
    assert (c - 1) * t + t == c * t;
    OffsetOfTile(s, t, ts, k);
  }

  /** When every device call succeeds and the shape is accepted, the buffers
      are the composition of the three stages. */
  lemma FullRunStages(s: seq<int>, ts: seq<int>, t: int, env: Backend)
    requires t > 0 && TileCount(|s|, t) <= t
    requires env.bindTileScan && env.launchTileScan && env.bindOffsetScan
             && env.launchOffsetScan && env.bindUniformAdd && env.launchUniformAdd
    ensures var r := ExclusiveScanSpec(s, ts, t, env);
      var offsets := OffsetScan(TotalsStored(ts, s, t), TileCount(|s|, t));
      r.ok && r.tileSum == offsets && r.data == UniformAdd(TileScanData(s, t), offsets, t)
  {
    var p1 := TileScanPhase(s, ts, t, env);
    assert |p1.data| == |s|;
  }

  // ---------------------------------------------------------------------------
  // Run

  /** `Run` returns true exactly when both buffers could be created, whatever
      `ExclusiveScan` returned: a non-empty input, a positive tile size, and
      both creations accepted. */
  lemma RunResult(input: seq<int>, tileSize: int, env: Backend)
    requires tileSize >= 0
    ensures RunSpec(input, tileSize, env).ok
            <==> |input| > 0 && tileSize > 0 && env.allocData && env.allocTileSum
  {
  }

  /** `output` is a copy of `input` before any device work, and stays one
      unless the read-back after a started scan succeeds. */
  lemma RunOutputIsInputUntilReadBack(input: seq<int>, tileSize: int, env: Backend)
    requires tileSize >= 0
    ensures |RunSpec(input, tileSize, env).output| == |input|
    ensures !RunSpec(input, tileSize, env).ok || !env.readback ==> RunSpec(input, tileSize, env).output == input
  {
  }

  /** The end-to-end theorem for `Run`: with every backend call accepted, a
      non-empty input and a tile size whose square covers it, `output` is the
      exclusive prefix sum of `input`. The zeroed tile-sum buffer of tile_size
      entries has room for every tile exactly because tile_count <= tile_size. */
  lemma RunCorrect(input: seq<int>, tileSize: int, env: Backend)
    requires env.AllSucceed() && |input| > 0 && tileSize > 0 && |input| <= tileSize * tileSize
    ensures RunSpec(input, tileSize, env).ok
    ensures RunSpec(input, tileSize, env).output == ExclusivePrefixSum(input)
  {
    ShapeAccepted(|input|, tileSize);
    ExclusiveScanCorrect(input, Zeros(tileSize), tileSize, env);
  }

  /** The buffers `Run` creates and releases, by exit path. */
  lemma RunBufferLifecycle(input: seq<int>, tileSize: int, env: Backend)
    requires tileSize >= 0
    ensures var r := RunSpec(input, tileSize, env);
      // data buffer not created: nothing to release
      (!AllocationSucceeds(|input|, env.allocData) ==> r.created == [] && r.released == [])
      // tile-sum buffer not created: the data buffer is never released
      && (AllocationSucceeds(|input|, env.allocData) && !AllocationSucceeds(tileSize, env.allocTileSum) ==>
        r.created == [DataBuffer] && r.released == [])
      // scan started, read-back succeeded: each buffer released exactly once
      && (r.ok && env.readback ==>
        multiset(r.created) == multiset{DataBuffer, TileSumBuffer} && multiset(r.released) == multiset(r.created))
      // scan started, read-back failed: each buffer released twice
      && (r.ok && !env.readback ==>
        multiset(r.created) == multiset{DataBuffer, TileSumBuffer}
        && multiset(r.released)[DataBuffer] == 2 && multiset(r.released)[TileSumBuffer] == 2)
  {
  }

  /** `Run` reports success for a shape `ExclusiveScan` refused: the offset
      scan and the uniform add never ran, so `output` holds at most the
      per-tile scans. */
  lemma RunIgnoresRefusedShape(input: seq<int>, tileSize: int, env: Backend)
    requires 0 < tileSize && 0 < |input| && env.allocData && env.allocTileSum
    requires TileCount(|input|, tileSize) > tileSize
    ensures var r := RunSpec(input, tileSize, env);
      r.ok && r.output ==
        if env.readback && env.bindTileScan && env.launchTileScan then TileScanData(input, tileSize) else input
  {
  }

  /** The partial sums of runs of ones that the concrete case below needs. */
  lemma OnesSums()
    ensures Sum([]) == 0 && Sum([1]) == 1 && Sum([1, 1]) == 2 && Sum([1, 1, 1]) == 3 && Sum([1, 1, 1, 1]) == 4
  {
    assert [1][..0] == [];
    assert [1, 1][..1] == [1];
    assert [1, 1, 1][..2] == [1, 1];
    assert [1, 1, 1, 1][..3] == [1, 1, 1];
  }

  /** The concrete case: five ones in tiles of two need three tiles; `Run`
      returns true with [0,1,0,1,0] where the exclusive scan is [0,1,2,3,4]. */
  lemma FiveOnesInTilesOfTwo(env: Backend)
    requires env.AllSucceed()
    ensures TileCount(5, 2) == 3
    ensures RunSpec([1, 1, 1, 1, 1], 2, env) == RunSpec([1, 1, 1, 1, 1], 2, env).(ok := true, output := [0, 1, 0, 1, 0])
    ensures ExclusivePrefixSum([1, 1, 1, 1, 1]) == [0, 1, 2, 3, 4]
  {
    var s := [1, 1, 1, 1, 1];
    TileCountUnique(5, 2, 3);
    RunIgnoresRefusedShape(s, 2, env);
    OnesSums();
    assert s[..0] == [];
    assert s[..1] == [1];
    assert s[..2] == [1, 1];
    assert s[..3] == [1, 1, 1];
    assert s[..4] == [1, 1, 1, 1];
    var d := TileScanData(s, 2);
    forall j | 0 <= j < 5 ensures d[j] == [0, 1, 0, 1, 0][j] {
      var st := TileStart(j, 2);
      assert st == [0, 0, 2, 2, 4][j];
      assert s[st..j] == if j % 2 == 0 then [] else [1];
    }
  }

  /** Phase 1 runs before the shape check: when tile_count exceeds tile_size,
      `Run` launches the tile scan over more work-groups than its tile-sum
      buffer of tile_size entries has, so the totals of the last tiles are
      stored past the end of the buffer. */
  lemma RunTileScanOverrunsTileSum(input: seq<int>, tileSize: int, env: Backend)
    requires 0 < tileSize && 0 < |input| && env.allocData && env.allocTileSum && env.bindTileScan
    requires TileCount(|input|, tileSize) > tileSize
    ensures var r := RunSpec(input, tileSize, env);
      TileSumBuffer in r.created
      && r.launches == [Launch(ScanKernel, GlobalSize(|input|, tileSize), tileSize)]
      && GlobalSize(|input|, tileSize) / tileSize > tileSize
  {
    ExclusiveScanLaunches(input, Zeros(tileSize), tileSize, env);
  }
}
