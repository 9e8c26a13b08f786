/** The scan orchestration with the defects of the host code corrected: the
    shape is checked before any device work, the tile-sum buffer has one entry
    per tile, every failure stops the scan with a typed error, and every buffer
    created is released exactly once on every exit path. */
module Orchestrator {
  import opened PrefixSum
  import opened Geometry
  import opened Stages
  import opened Device
  import opened Trace

  datatype ScanError =
    | UnsupportedShape   // tile_count exceeds the tile size: retry with a larger tile size
    | AllocationFailure  // a device buffer could not be created
    | LaunchFailure      // a kernel argument could not be bound or a launch was rejected
    | ReadbackFailure    // the result could not be copied back

  datatype Result = Ok(value: seq<int>) | Err(error: ScanError)

  method Scan(input: seq<int>, tileSize: int, env: Backend)
    returns (r: Result, created: seq<BufferId>, released: seq<BufferId>)
    requires tileSize > 0
    ensures r.Ok? ==> r.value == ExclusivePrefixSum(input)
    ensures r == Err(UnsupportedShape) <==> TileCount(|input|, tileSize) > tileSize
    ensures r.Ok? <==> TileCount(|input|, tileSize) <= tileSize && (|input| == 0 || env.AllSucceed())
    ensures r == Err(UnsupportedShape) ==> created == []
    ensures created == [] || created == [DataBuffer] || created == [DataBuffer, TileSumBuffer]
    ensures released == created
  {
    var n := |input|;
    var tileCount := TileCount(n, tileSize);
    if tileCount > tileSize {
      return Err(UnsupportedShape), [], [];
    }
    if n == 0 {
      return Ok([]), [], [];
    }
    if !AllocationSucceeds(n, env.allocData) {
      return Err(AllocationFailure), [], [];
    }
    var data := new int[n](j requires 0 <= j < n => input[j]);
    TileCountZero(n, tileSize);
    if !AllocationSucceeds(tileCount, env.allocTileSum) {
      return Err(AllocationFailure), [DataBuffer], [DataBuffer];
    }
    var tileSum := new int[tileCount](_ => 0);
    ghost var zeros := tileSum[..];
    assert data[..] == input;
    created := [DataBuffer, TileSumBuffer];
    if !(env.bindTileScan && env.launchTileScan) {
      return Err(LaunchFailure), created, created;
    }
    TileScanStage(data, tileSum, tileSize);
    if !(env.bindOffsetScan && env.launchOffsetScan) {
      return Err(LaunchFailure), created, created;
    }
    OffsetScanStage(tileSum, tileCount);
    if !(env.bindUniformAdd && env.launchUniformAdd) {
      return Err(LaunchFailure), created, created;
    }
    UniformAddStage(data, tileSum, tileSize);
    if !env.readback {
      return Err(ReadbackFailure), created, created;
    }
    HierarchicalScanCorrect(input, zeros, tileSize);
    return Ok(data[..]), created, created;
  }
}
