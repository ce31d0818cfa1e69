/** The values that flow between the components: silo identities and resource statistics. */
module Statistics {
  import opened Wrappers

  /** An opaque, comparable silo identity. */
  datatype SiloAddress = SiloAddress(id: nat)

  /** The runtime statistics a silo reports, as far as the placement logic reads them:
      CPU usage in percent and available memory in bytes (`float?`), memory usage and total
      physical memory in bytes (`long?`). */
  datatype SiloRuntimeStatistics = SiloRuntimeStatistics(
    cpuUsage: Option<real>,
    availableMemory: Option<real>,
    memoryUsage: Option<int>,
    totalPhysicalMemory: Option<int>,
    isOverloaded: bool)

  /** The record the filtering components produce; its available memory is a `float?`. */
  datatype ResourceStatistics = ResourceStatistics(
    cpuUsage: Option<real>,
    availableMemory: Option<real>,
    memoryUsage: Option<int>,
    totalPhysicalMemory: Option<int>,
    isOverloaded: bool)

  /** The implicit conversion `long?` to `float?`. */
  function ToReal(v: Option<int>): (r: Option<real>)
    ensures r.Some? <==> v.Some?
    ensures v.Some? ==> r.value == v.value as real
  {
    match v
    case Some(n) => Some(n as real)
    case None => None
  }
}
