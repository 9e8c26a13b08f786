/** What the host observes of the compute backend: which calls it accepts,
    and the launches, log lines and buffer creations and releases of a run. */
module Trace {

  /** The two kernels built from the kernel source. */
  datatype Kernel = ScanKernel | UniformAddKernel

  /** The two device buffers of one scan. */
  datatype BufferId = DataBuffer | TileSumBuffer

  /** A kernel launch over a 1-D index space of `global` work items in
      work-groups of `local` items. The host waits for the device after every
      launch, so a launch is taken to complete before anything that follows it. */
  datatype Launch = Launch(kernel: Kernel, global: int, local: int)

  /** The lines the host writes to its output and error streams. */
  datatype Message =
    | RunKernelFailed                             // an argument could not be bound
    | EnqueueFailed                               // a launch was reported as failed
    | InvalidSize(groupSize: int, tileSize: int)  // offset scan refused: too many tiles
    | FinishTileScan | FinishOffsetScan | FinishUniformAdd
    | CreateDataFailed | CreateTileSumFailed | ReadbackFailed

  /** Whether each fallible backend call is accepted. The backend's own
      behaviour is not modelled, so a run is parameterised by these answers. */
  datatype Backend = Backend(
    allocData: bool, allocTileSum: bool,
    bindTileScan: bool, launchTileScan: bool,
    bindOffsetScan: bool, launchOffsetScan: bool,
    bindUniformAdd: bool, launchUniformAdd: bool,
    readback: bool)
  {
    predicate AllSucceed()
    {
      allocData && allocTileSum && bindTileScan && launchTileScan && bindOffsetScan
      && launchOffsetScan && bindUniformAdd && launchUniformAdd && readback
    }
  }

  /** Buffer creation: the backend must accept the call, and a buffer of size 0
      is always refused (clCreateBuffer reports CL_INVALID_BUFFER_SIZE for it). */
  predicate AllocationSucceeds(elements: int, accepted: bool)
  {
    elements > 0 && accepted
  }
}
