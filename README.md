# Hierarchical exclusive scan on an OpenCL device

This project models the scan routines of the `test_scan` benchmark.

`ScanCL::ExclusiveScan` computes an exclusive prefix sum of an `int` buffer of `N` items on the device in three phases:

1. **Tile scan.** It launches `ceil(N / T)` work-groups of `T` items each. Every group scans its own tile in place and stores the tile's total in `tile_sum`.
2. **Offset scan.** It launches a single group that scans `tile_sum` in place. It refuses the run when that group would be wider than `T`.
3. **Uniform add.** Every item adds its tile's offset.

`ScanCL::Run` wraps this for one host vector:

- it copies the input into a device buffer;
- it allocates a `T`-entry tile-sum buffer;
- it calls `ExclusiveScan`;
- it reads the data buffer back into the output;
- it releases both buffers.

`ScanHost` in `test_scan/main.cpp` is the benchmark's host-side reference.

Layout, one module per concept:

- `PrefixSum`: `Sum` and `ExclusivePrefixSum`. These define what a correct result is. `ExclusivePrefixSumRecurrence` and `RecurrenceDeterminesScan` show that the scan is the unique sequence with `r[0] = 0` and `r[i+1] = r[i] + s[i]`.
- `Geometry`: the tile count `(N + T - 1) / T`, the global work size, and the single-group shape rule.
- `Stages`: what each kernel computes, as functions on sequences. `HierarchicalScanCorrect` proves that the three stages compose to `ExclusivePrefixSum`.
- `Device`: the three kernels as in-place `array` methods over the data and tile-sum buffers. Each is proved against its `Stages` function.
- `Trace`:
  - the kernels and buffers;
  - the messages the host prints;
  - `Backend`, which holds the success or failure of every OpenCL call the code checks.
- `ScanCL`:
  - the methods `ExclusiveScan` and `Run` over device arrays;
  - the phase specifications `TileScanPhase`, `OffsetScanPhase` and `UniformAddPhase`, which the methods are proved against;
  - `ExclusiveScanSpec` and `RunSpec`, which compose those phases.
- `ScanProperties`: lemmas about those specifications. They cover the result flag, the launches, the log, buffer creation and release, and correctness.
- `HostReference`: `ScanHost` as written, and a cumulative host scan.
- `Orchestrator`: the scan with the defects in the Findings table corrected.

How the code behaves (the model follows it as written):

- `Run` allocates `tile_size` tile-sum entries, not one per tile.
- Phase 1 runs before the shape check of phase 2.
- Failed launches are only logged; the run continues.
- `Run` ignores the result of `ExclusiveScan` and returns true once both buffers exist.
- When the tile-sum allocation fails, the data buffer is never released.
- When the readback fails, both buffers are released twice.

`Orchestrator.Scan` is the corrected scan. It checks the shape before any device work, sizes the tile-sum buffer by the tile count, stops at the first failure with a typed error, and releases each buffer once (see "## Findings").

The phase functions `TileScanPhase`, `OffsetScanPhase`, `UniformAddPhase`, `ExclusiveScanSpec` and `RunSpec` are the model of `test_scan/scan_cl.hpp:189-312`. Their own contracts only fix lengths and the like. What they state is carried by two kinds of rows below: the `ScanCL` method rows, whose `ensures` equate each method with its function, and the `ScanProperties` lemma rows about those functions. So they have no rows of their own.

## Model

| member | source | states |
|---|---|---|
| Geometry.TileCount | test_scan/scan_cl.hpp:185 | the tile count `(N+T-1)/T` is the ceiling of `N/T`: `N <= c*T < N+T` |
| Geometry.TileCountUnique | test_scan/scan_cl.hpp:221 | any `c` with `N <= c*T < N+T` is the tile count, so the recomputation in phase 2 gives the same value |
| Geometry.TileCountZero | test_scan/scan_cl.hpp:185 | the tile count is 0 exactly when `N` is 0 |
| Geometry.TileOfIndex | test_scan/scan_cl.hpp:200-201 | every item index `j < N` lies in tile `j/T`, which is below the tile count, between `(j/T)*T` and `(j/T)*T+T` |
| Geometry.GlobalSize | test_scan/scan_cl.hpp:200-201 | the global size is a multiple of `T` with quotient the tile count, and lies in `[N, N+T)` |
| Geometry.ShapeAccepted | test_scan/scan_cl.hpp:231-236 | the offset-scan group fits (`tile count <= T`) exactly when `N <= T*T` |
| Geometry.ShapeBoundary | test_scan/scan_cl.hpp:231-236 | `N = T*T` gives exactly `T` tiles (accepted); `N = T*T+1` gives `T+1` (refused) |
| Stages.TileScanIsLocalScan | test_scan/scan_cl.hpp:189-217 | after the tile scan, each item holds the sum of the items before it in its own tile, and the first item of each tile holds 0 |
| Stages.SumOfTotals | test_scan/scan_cl.hpp:219-247 | the sum of the first `k` full-tile totals is the sum of the first `k*T` items |
| Stages.OffsetOfTile | test_scan/scan_cl.hpp:219-247 | after the offset scan, entry `u` of the tile sums is the sum of all items before tile `u` |
| Stages.HierarchicalScanCorrect | test_scan/scan_cl.hpp:182-270 | tile scan, then offset scan over the tile count, then uniform add together yield the exclusive prefix sum, given at least tile-count entries of tile sums |
| Stages.EightItemsInTilesOfFour | test_scan/scan_cl.hpp:182-270 | worked example with values after each stage: `[3,1,4,1,5,9,2,6]` in tiles of 4 gives tile sums `[9,22]`, offsets `[0,9]` and result `[0,3,4,8,9,14,23,25]` |
| Device.TileScanStage | test_scan/scan_cl.hpp:202-204 | the tile-scan kernel leaves the data equal to the tile-local scan of the old data and stores each tile's total at its group index. Tile-sum entries beyond the array are dropped; the other entries are unchanged |
| Device.OffsetScanStage | test_scan/scan_cl.hpp:237-239 | the single-group kernel replaces the first `c` entries of the tile sums by their exclusive scan and leaves the rest unchanged |
| Device.UniformAddStage | test_scan/scan_cl.hpp:257-258 | every item gains the offset of its tile (0 past the tile-sum array); the tile sums are unchanged |
| ScanCL.TileScanStep | test_scan/scan_cl.hpp:189-217 | phase 1 on the device arrays equals `TileScanPhase`. A failed binding returns false with nothing launched. Otherwise it launches `(ceil(N/T)*T, T)`, logs a failed enqueue without stopping, then logs "finish tile scan" |
| ScanCL.OffsetScanStep | test_scan/scan_cl.hpp:219-247 | phase 2 equals `OffsetScanPhase`. A failed binding returns false. A tile count above `T` returns false with an "invalid size" message and no launch. Otherwise it launches one `(c, c)` group, logs a failed enqueue without stopping, then logs "finish offset scan" |
| ScanCL.UniformAddStep | test_scan/scan_cl.hpp:249-266 | phase 3 equals `UniformAddPhase`. It always launches and never stops. The add takes effect only when binding and launch succeed; only a failed binding is reported |
| ScanCL.ExclusiveScan | test_scan/scan_cl.hpp:182-270 | the final data, tile sums, result flag, launches and log equal `ExclusiveScanSpec`: the phases in order, stopping at the first `return false` |
| ScanCL.Zeros | test_scan/scan_cl.hpp:288 | a vector of `k` zeros |
| ScanCL.Run | test_scan/scan_cl.hpp:272-312 | the result, output, launches, log and the sequences of created and released buffers equal `RunSpec`, over fresh device arrays holding the input and `T` zeros |
| ScanProperties.ExclusiveScanResult | test_scan/scan_cl.hpp:195-198 | `ExclusiveScan` returns true exactly when both checked bindings succeed and the tile count is at most `T` (lines 195-198, 226-236 and 269) |
| ScanProperties.ExclusiveScanLaunches | test_scan/scan_cl.hpp:200-203 | the exact launch list for each way the run can go (lines 200-203, 231-238 and 255-257): none, the tile scan only, or all three (the offset launch never happens without the uniform add) |
| ScanProperties.ExclusiveScanLog | test_scan/scan_cl.hpp:204-207 | once past the shape check, the exact message sequence (lines 204-207, 216, 239-246 and 257-265), with the enqueue failures of phases 1 and 2 and the binding failure of phase 3 in their places |
| ScanProperties.ExclusiveScanGeometry | test_scan/scan_cl.hpp:200-201 | every launch either is a tile launch (local `T`, global a multiple of `T` covering `N` with less than one tile of padding) or is the single offset group with global = local = tile count `<= T` (lines 200-201, 231-233 and 255-256); local is positive when `N > 0` |
| ScanProperties.LaunchFailuresDoNotStop | test_scan/scan_cl.hpp:205-207 | failed launches change neither the result flag nor the launch list, since they are only logged (lines 205-207 and 240-242) |
| ScanProperties.UniformAddFailureIsSilent | test_scan/scan_cl.hpp:257-261 | with the phase-3 binding good, a failed uniform-add launch gives the same result, launches, log and tile sums as a successful one, and leaves the data as the tile scan left it |
| ScanProperties.EarlyReturnsStopDeviceWork | test_scan/scan_cl.hpp:195-198 | a failed phase-1 binding returns before any launch. A failed phase-2 binding or a refused shape stops after the tile scan, with the data tile-scanned and nothing further launched (lines 195-198 and 226-236) |
| ScanProperties.ExclusiveScanCorrect | test_scan/scan_cl.hpp:182-270 | when the calls that carry data succeed and the shape is accepted: the result is true, the data is the exclusive prefix sum, and tile-sum entry `k` is the sum of the items before tile `k` |
| ScanProperties.TileOffsets | test_scan/scan_cl.hpp:219-247 | after phases 1 and 2, tile-sum entry `k` (for `k` below the tile count) is the sum of the first `k*T` items, and `k*T < N` |
| ScanProperties.FullRunStages | test_scan/scan_cl.hpp:189-266 | on the successful path, the data and tile sums of `ExclusiveScanSpec` are the composed stage functions |
| ScanProperties.RunResult | test_scan/scan_cl.hpp:280-296 | `Run` returns false exactly when a buffer allocation fails (an empty input or a zero tile size makes an allocation of size 0 fail); the lines up to 311 ignore everything else |
| ScanProperties.RunOutputIsInputUntilReadBack | test_scan/scan_cl.hpp:278 | the output always has the input's length, and it equals the input unless the readback at lines 299-301 succeeded |
| ScanProperties.RunCorrect | test_scan/scan_cl.hpp:272-312 | with every call succeeding, a non-empty input, a positive tile size and `N <= T*T`, `Run` returns true with the exclusive prefix sum |
| ScanProperties.RunBufferLifecycle | test_scan/scan_cl.hpp:280-311 | created and released buffers on each of the four exit paths: nothing; the data buffer created, never released; both created and released once; both created and released twice |
| ScanProperties.RunIgnoresRefusedShape | test_scan/scan_cl.hpp:296 | when the offset group does not fit, `Run` still returns true and reports the tile-scanned data (or the input) as its output (lines 296 and 311) |
| ScanProperties.FiveOnesInTilesOfTwo | test_scan/scan_cl.hpp:296 | `Run([1,1,1,1,1], 2)` with every call succeeding returns true with output `[0,1,0,1,0]`, while the exclusive scan is `[0,1,2,3,4]` |
| ScanProperties.RunTileScanOverrunsTileSum | test_scan/scan_cl.hpp:288-296 | when the shape is refused, `Run` still launches phase 1 with more groups than the `T`-entry tile-sum buffer has entries |
| HostReference.ScanHost | test_scan/main.cpp:8-13 | `ScanHost` throws exactly when the output is empty or shorter than the input. Otherwise its local copy of the output becomes `PairwiseSums`: entry 0 is 0; entries `i` in `1..N-1` hold `in[i] + in[i-1]`; the rest keep their old values. The caller's vector is never changed |
| HostReference.ScanHostIsNotExclusiveScan | test_scan/main.cpp:9-11 | on `[3,1,4]` the reference computes `[0,4,5]`, while the exclusive scan is `[0,3,4]` |
| HostReference.PairwiseAgreesAtOneOnlyOnZero | test_scan/main.cpp:11 | the reference agrees with the exclusive scan at index 1 exactly when `in[1] == 0` |
| HostReference.PairwiseIgnoresWrittenEntries | test_scan/main.cpp:9-11 | the entries the reference writes do not depend on the output's previous contents |
| HostReference.ScanHostCumulative | test_scan/main.cpp:8-13 | the corrected host scan returns the exclusive prefix sum of the input |
| Orchestrator.Scan | test_scan/scan_cl.hpp:182-312 | corrected scan. Ok carries the exclusive prefix sum. It is ok exactly when the shape fits and (the input is empty or every call succeeds). `UnsupportedShape` is reported exactly when the tile count exceeds `T`, and then nothing is allocated. Every created buffer is released exactly once |

## Left out

- `ScanCL::Init`, `BuildKernel` and `UnInit` (test_scan/scan_cl.hpp:42-180): platform, device, context, queue and program set-up. Their only effect on the core is through the `Backend` answers.
- The kernel source file `scan.cl` is not part of this model. The tile-scan, offset-scan and uniform-add kernels are modelled by their intended results, computed sequentially. Work-item concurrency and barriers are not modelled.
- Device stores past a buffer's end are dropped and loads past it read 0. OpenCL leaves this undefined; the model picks one total meaning so that the overrun in the Findings can be stated.
- `clFinish` is treated as completing the launch before the next step. The code waits on `queue_` while enqueuing on `queue`; `Run` passes `queue_`, so they are the same queue.
- 32-bit `int` overflow of the sums and of `N + TILE_SIZE - 1`, and the `size_t`-to-`int` narrowing of `input.size()`, are not modelled: integers are unbounded.
- The debug readbacks into `test_1` to `test_4` (lines 184-188, 210-215, 243-245 and 262-264) and their ignored error codes. They only copy device memory to host vectors that are thrown away.
- The text and the error codes printed to `std::cout`/`std::cerr` are abstracted to `Trace.Message` values.
- The phase-2 argument bindings at lines 223-224 are modelled only as a binding that can fail, and their effect on the kernel is not modelled. Argument 1 is the global output buffer, which phase 1 binds to `tile_sum` (line 192); phase 2 binds it to `NULL`. Argument 2 is the local scratch area; it shrinks from `TILE_SIZE * sizeof(int)` bytes (line 193) to `sizeof(cl_mem)` bytes, room for two `int`s. Whether phase 2 then works when the tile count exceeds 2 depends on the kernel, which is not part of this model.
- ScanCL.Run: requires `tile_size >= 0`. A negative size makes the `std::vector` constructor at line 288 throw, and exceptions are not modelled here.
- ScanCL.ExclusiveScan: requires `TILE_SIZE > 0`. Zero divides by zero at line 185. `Run` never reaches it with zero, because the tile-sum allocation of size 0 fails first.
- A failed uniform-add binding is modelled as leaving the data unchanged. The launch is still issued, with whatever arguments were bound earlier.
- HostReference.ScanHost: when it throws, the partially written local copy is not described (`local` is then unconstrained). The exception itself is the `thrown` flag.
- `test_scan/ScanCL.hpp` (an older draft) and the convolution workload under `test/`, `source/` and `include/` are outside the scan core.
- The Google Benchmark driver in `test_scan/main.cpp` and its timing (from line 15) are not modelled.

## Findings

| source | as written | input that shows it | evidently intended | confidence | as-written member | corrected member |
|---|---|---|---|---|---|---|
| test_scan/main.cpp:11 | `output[i] = input[i] + input[i-1]`, a pairwise sum; `output` is also taken by value, so the caller sees nothing | `[3,1,4]` gives `[0,4,5]` | `output[i] = output[i-1] + input[i-1]`, giving `[0,3,4]`, written into the caller's vector | high, not executed | HostReference.ScanHostIsNotExclusiveScan | HostReference.ScanHostCumulative |
| test_scan/scan_cl.hpp:303-310 | on a failed readback both buffers are released, then released again | any run whose readback fails | release each buffer once | high, not executed | ScanProperties.RunBufferLifecycle | Orchestrator.Scan |
| test_scan/scan_cl.hpp:291-293 | returns without releasing `input_buf` when the tile-sum allocation fails | non-empty input with `tile_size = 0` (an allocation of size 0) | release the data buffer before returning | high, not executed | ScanProperties.RunBufferLifecycle | Orchestrator.Scan |
| test_scan/scan_cl.hpp:296 | the result of `ExclusiveScan` is ignored and `Run` returns true | `[1,1,1,1,1]`, `tile_size = 2` gives true with `[0,1,0,1,0]` | return false when the scan fails | high, not executed | ScanProperties.FiveOnesInTilesOfTwo | Orchestrator.Scan |
| test_scan/scan_cl.hpp:288 | the tile-sum buffer has `tile_size` entries and phase 1 runs before the shape check, so a refused shape first writes past it | `N = 17`, `tile_size = 4`: 5 groups write 5 totals into 4 entries | check the shape first and size the buffer by the tile count | medium, not executed (the kernel is not part of this model) | ScanProperties.RunTileScanOverrunsTileSum | Orchestrator.Scan |
