/** The host side of the OpenCL scan as written: `ExclusiveScan` binds the
    kernel arguments, launches the three stages with their geometry and waits
    after each, and `Run` creates the two buffers, calls it, reads the result
    back and releases the buffers. */
module ScanCL {
  import opened PrefixSum
  import opened Geometry
  import opened Stages
  import opened Device
  import opened Trace

  /** What `ExclusiveScan` leaves behind: its return value, the two buffers
      the launches it issued and the lines it logged. */
  datatype ScanOutcome = ScanOutcome(ok: bool, data: seq<int>, tileSum: seq<int>, launches: seq<Launch>, log: seq<Message>)

  /** Phase 1 of `ExclusiveScan` on data buffer s (N is its length) and
      tile-sum buffer ts: bind the arguments of kernel `scan` (stop on
      failure), launch it over tile_count work-groups of t items, wait, and
      log a failed launch without stopping. `ok` says whether the function goes on. */
  function TileScanPhase(s: seq<int>, ts: seq<int>, t: int, env: Backend): (r: ScanOutcome)
    requires t > 0
    ensures |r.data| == |s|
  {
    if !env.bindTileScan then
      ScanOutcome(false, s, ts, [], [RunKernelFailed])
    else
      ScanOutcome(true,
        if env.launchTileScan then TileScanData(s, t) else s,
        if env.launchTileScan then TotalsStored(ts, s, t) else ts,
        [Launch(ScanKernel, GlobalSize(|s|, t), t)],
        (if env.launchTileScan then [] else [EnqueueFailed]) + [FinishTileScan])
  }

  /** Phase 2: bind the arguments of kernel `scan` for the tile sums (stop on
      failure), refuse a tile count above t (stop), launch it as one
      work-group of tile_count items, wait, and log a failed launch. */
  function OffsetScanPhase(s: seq<int>, ts: seq<int>, t: int, env: Backend): (r: ScanOutcome)
    requires t > 0
    ensures r.data == s
  {
    var c := TileCount(|s|, t);
    if !env.bindOffsetScan then
      ScanOutcome(false, s, ts, [], [RunKernelFailed])
    else if c > t then
      ScanOutcome(false, s, ts, [], [InvalidSize(c, t)])
    else
      ScanOutcome(true, s,
        if env.launchOffsetScan then OffsetScan(ts, c) else ts,
        [Launch(ScanKernel, c, c)],
        (if env.launchOffsetScan then [] else [EnqueueFailed]) + [FinishOffsetScan])
  }

  /** Phase 3: bind the arguments of kernel `uniform_add` without checking,
      launch it over tile_count work-groups of t items, discard the launch's
      result, wait, and log the binding failure under the launch message. The
      kernel takes effect when both the binding and the launch succeed. */
  function UniformAddPhase(s: seq<int>, ts: seq<int>, t: int, env: Backend): (r: ScanOutcome)
    requires t > 0
    ensures r.ok && r.tileSum == ts
  {
    ScanOutcome(true,
      if env.bindUniformAdd && env.launchUniformAdd then UniformAdd(s, ts, t) else s,
      ts,
      [Launch(UniformAddKernel, GlobalSize(|s|, t), t)],
      (if env.bindUniformAdd then [] else [EnqueueFailed]) + [FinishUniformAdd])
  }

  /** `ExclusiveScan`: the three phases in order, each on the buffers the
      previous one left, stopping at the first phase that says so. */
  function ExclusiveScanSpec(s: seq<int>, ts: seq<int>, t: int, env: Backend): ScanOutcome
    requires t > 0
  {
    var p1 := TileScanPhase(s, ts, t, env);
    if !p1.ok then p1
    else
      var p2 := OffsetScanPhase(p1.data, p1.tileSum, t, env);
      if !p2.ok then ScanOutcome(false, p2.data, p2.tileSum, p1.launches + p2.launches, p1.log + p2.log)
      else
        var p3 := UniformAddPhase(p2.data, p2.tileSum, t, env);
        ScanOutcome(true, p3.data, p3.tileSum,
                    p1.launches + p2.launches + p3.launches, p1.log + p2.log + p3.log)
  }

  method TileScanStep(data: array<int>, tileSum: array<int>, tileSize: int, env: Backend)
    returns (ok: bool, launches: seq<Launch>, log: seq<Message>)
    requires tileSize > 0 && data != tileSum
    modifies data, tileSum
    ensures ScanOutcome(ok, data[..], tileSum[..], launches, log)
            == TileScanPhase(old(data[..]), old(tileSum[..]), tileSize, env)
  {
    if !env.bindTileScan {
      return false, [], [RunKernelFailed];
    }
    var globalSize := TileCount(data.Length, tileSize) * tileSize;
    var localSize := tileSize;
    launches, log := [Launch(ScanKernel, globalSize, localSize)], [];
    if env.launchTileScan {
      TileScanStage(data, tileSum, tileSize);
    } else {
      log := log + [EnqueueFailed];
    }
    log := log + [FinishTileScan];
    ok := true;
  }

  method OffsetScanStep(data: array<int>, tileSum: array<int>, tileSize: int, env: Backend)
    returns (ok: bool, launches: seq<Launch>, log: seq<Message>)
    requires tileSize > 0 && data != tileSum
    modifies tileSum
    ensures ScanOutcome(ok, data[..], tileSum[..], launches, log)
            == OffsetScanPhase(data[..], old(tileSum[..]), tileSize, env)
  {
    var tileCount := TileCount(data.Length, tileSize);
    if !env.bindOffsetScan {
      return false, [], [RunKernelFailed];
    }
    var localSize := tileCount;
    var globalSize := localSize;
    if globalSize > tileSize {
      return false, [], [InvalidSize(globalSize, tileSize)];
    }
    launches, log := [Launch(ScanKernel, globalSize, localSize)], [];
    if env.launchOffsetScan {
      OffsetScanStage(tileSum, tileCount);
    } else {
      log := log + [EnqueueFailed];
    }
    log := log + [FinishOffsetScan];
    ok := true;
  }

  method UniformAddStep(data: array<int>, tileSum: array<int>, tileSize: int, env: Backend)
    returns (launches: seq<Launch>, log: seq<Message>)
    requires tileSize > 0 && data != tileSum
    modifies data
    ensures ScanOutcome(true, data[..], tileSum[..], launches, log)
            == UniformAddPhase(old(data[..]), tileSum[..], tileSize, env)
  {
    var globalSize := TileCount(data.Length, tileSize) * tileSize;
    var localSize := tileSize;
    launches, log := [Launch(UniformAddKernel, globalSize, localSize)], [];
    if env.bindUniformAdd && env.launchUniformAdd {
      UniformAddStage(data, tileSum, tileSize);
    }
    if !env.bindUniformAdd {
      log := log + [EnqueueFailed];
    }
    log := log + [FinishUniformAdd];
  }

  /** The three phases on the device buffers, in place. The debugging
      read-backs into local vectors after each phase have no effect and are
      left out. */
  method ExclusiveScan(data: array<int>, tileSum: array<int>, tileSize: int, env: Backend)
    returns (ok: bool, launches: seq<Launch>, log: seq<Message>)
    requires tileSize > 0 && data != tileSum
    modifies data, tileSum
    ensures ScanOutcome(ok, data[..], tileSum[..], launches, log)
            == ExclusiveScanSpec(old(data[..]), old(tileSum[..]), tileSize, env)
  {
    var launches1, log1, launches2, log2, launches3, log3;
    ok, launches1, log1 := TileScanStep(data, tileSum, tileSize, env);
    if !ok {
      return false, launches1, log1;
    }
    ok, launches2, log2 := OffsetScanStep(data, tileSum, tileSize, env);
    if !ok {
      return false, launches1 + launches2, log1 + log2;
    }
    launches3, log3 := UniformAddStep(data, tileSum, tileSize, env);
    return true, launches1 + launches2 + launches3, log1 + log2 + log3;
  }

  /** The zero-filled host vector the tile-sum buffer is initialised from. */
  function Zeros(k: int): (r: seq<int>)
    ensures |r| == if k < 0 then 0 else k
    ensures forall i :: 0 <= i < |r| ==> r[i] == 0
  {
    if k <= 0 then [] else Zeros(k - 1) + [0]
  }

  /** What `Run` leaves behind: its return value, the caller's `output`
      vector, the launches issued, the lines logged, and the buffers created
      and released, in order. */
  datatype RunOutcome = RunOutcome(ok: bool, output: seq<int>, launches: seq<Launch>, log: seq<Message>,
                                   created: seq<BufferId>, released: seq<BufferId>)

  /** `Run(input, output, tile_size)`. `output` becomes a copy of `input`
      before anything else; the data buffer is created from it and the
      tile-sum buffer from `tile_size` zeros; the result of `ExclusiveScan` is
      ignored; a failed read-back releases both buffers and then releases them
      again; a failed tile-sum creation returns without releasing the data buffer. */
  function RunSpec(input: seq<int>, tileSize: int, env: Backend): RunOutcome
    requires tileSize >= 0
  {
    if !AllocationSucceeds(|input|, env.allocData) then
      RunOutcome(false, input, [], [CreateDataFailed], [], [])
    else if !AllocationSucceeds(tileSize, env.allocTileSum) then
      RunOutcome(false, input, [], [CreateTileSumFailed], [DataBuffer], [])
    else
      var r := ExclusiveScanSpec(input, Zeros(tileSize), tileSize, env);
      if env.readback then
        RunOutcome(true, r.data, r.launches, r.log, [DataBuffer, TileSumBuffer], [DataBuffer, TileSumBuffer])
      else
        RunOutcome(true, input, r.launches, r.log + [ReadbackFailed], [DataBuffer, TileSumBuffer],
                   [DataBuffer, TileSumBuffer, DataBuffer, TileSumBuffer])
  }

  /** The host entry point. A negative `tile_size` makes the zero vector's
      constructor throw; it is excluded. */
  method Run(input: seq<int>, tileSize: int, env: Backend)
    returns (ok: bool, output: seq<int>, launches: seq<Launch>, log: seq<Message>,
             created: seq<BufferId>, released: seq<BufferId>)
    requires tileSize >= 0
    ensures RunOutcome(ok, output, launches, log, created, released) == RunSpec(input, tileSize, env)
  {
    output := input;
    launches, log, created, released := [], [], [], [];
    if !AllocationSucceeds(|output|, env.allocData) {
      return false, output, launches, [CreateDataFailed], created, released;
    }
    var data := new int[|output|](j requires 0 <= j < |output| => output[j]);
    created := created + [DataBuffer];
    if !AllocationSucceeds(tileSize, env.allocTileSum) {
      return false, output, launches, [CreateTileSumFailed], created, released;
    }
    var zeros := Zeros(tileSize);
    var tileSum := new int[tileSize](j requires 0 <= j < tileSize => zeros[j]);
    assert data[..] == input && tileSum[..] == zeros;
    created := created + [TileSumBuffer];
    var scanOk;
    scanOk, launches, log := ExclusiveScan(data, tileSum, tileSize, env);
    if env.readback {
      output := data[..];
    } else {
      released := released + [DataBuffer, TileSumBuffer];
      log := log + [ReadbackFailed];
    }
    released := released + [DataBuffer, TileSumBuffer];
    ok := true;
  }
}
