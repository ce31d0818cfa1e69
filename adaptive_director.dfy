/** `AdaptiveBalancedResourcePlacementDirector`: the store keeps the first statistics of a silo
    as reported and every later report smoothed by three filters that are fields of the
    director, so all silos feed the same three filter states. */
module AdaptivePlacement {
  import opened Wrappers
  import opened ScalarKalman
  import opened Statistics
  import opened StatisticsFilters
  import opened Configuration

  /** The states of the CPU, available-memory and memory-usage filters. */
  datatype FilterStates = FilterStates(cpuUsage: StatState<real>, availableMemory: StatState<real>, memoryUsage: StatState<int>)

  const InitialFilterStates: FilterStates := FilterStates(InitialStatState, InitialStatState, LongInitialStatState)

  /** The filters' state stays within what their code can reach: non-negative covariances, and
      the inner filters of `StatisticsFilter<long>` never leave (0, 1). */
  predicate ValidFilters(f: FilterStates) {
    ValidState(f.cpuUsage) && ValidState(f.availableMemory) && LongValidState(f.memoryUsage) &&
    f.memoryUsage.slow == LongInitialState && f.memoryUsage.fast == LongInitialState
  }

  /** The `addValue` of `AddOrUpdate`: the statistics as reported, field by field. */
  function Raw(statistics: SiloRuntimeStatistics): (r: ResourceStatistics)
    ensures r.cpuUsage == statistics.cpuUsage && r.availableMemory == statistics.availableMemory
    ensures r.memoryUsage == statistics.memoryUsage && r.totalPhysicalMemory == statistics.totalPhysicalMemory
    ensures r.isOverloaded == statistics.isOverloaded
  {
    ResourceStatistics(statistics.cpuUsage, statistics.availableMemory, statistics.memoryUsage,
                       statistics.totalPhysicalMemory, statistics.isOverloaded)
  }

  /** `OnSiloStatisticsChanged`: a first report is stored raw and leaves the filters alone; a later
      one advances all three filters and stores their outputs with the raw total and flag. */
  function AdaptiveUpdate(store: map<SiloAddress, ResourceStatistics>, filters: FilterStates,
                          address: SiloAddress, statistics: SiloRuntimeStatistics):
    (r: (map<SiloAddress, ResourceStatistics>, FilterStates))
    requires ValidFilters(filters)
    ensures ValidFilters(r.1)
    ensures r.0.Keys == store.Keys + {address}
    ensures forall a :: a in store && a != address ==> r.0[a] == store[a]
    ensures address !in store ==> r.0[address] == Raw(statistics) && r.1 == filters
    ensures address in store ==>
      var cpu := StatFilter(filters.cpuUsage, Some(statistics.cpuUsage.GetOr(0.0)));
      var available := StatFilter(filters.availableMemory, Some(statistics.availableMemory.GetOr(0.0)));
      var used := LongStatFilter(filters.memoryUsage, Some(statistics.memoryUsage.GetOr(0)));
      && r.1 == FilterStates(cpu.0, available.0, used.0)
      && r.0[address].cpuUsage == Some(cpu.1)
      && r.0[address].availableMemory == Some(available.1)
      && r.0[address].memoryUsage == Some(0)
      && r.0[address].totalPhysicalMemory == statistics.totalPhysicalMemory
      && r.0[address].isOverloaded == statistics.isOverloaded
  {
    if address !in store then
      (store[address := Raw(statistics)], filters)
    else
      var (cpuState, cpu) := StatFilter(filters.cpuUsage, Some(statistics.cpuUsage.GetOr(0.0)));
      var (availableState, available) := StatFilter(filters.availableMemory, Some(statistics.availableMemory.GetOr(0.0)));
      var (usedState, used) := LongStatFilter(filters.memoryUsage, Some(statistics.memoryUsage.GetOr(0)));
      (store[address := ResourceStatistics(Some(cpu), Some(available), Some(used),
                                           statistics.totalPhysicalMemory, statistics.isOverloaded)],
       FilterStates(cpuState, availableState, usedState))
  }

  /** Every stored entry either is a raw first report or has all three smoothed fields present
      and a memory usage of 0. */
  ghost predicate EntriesFilteredOrRaw(store: map<SiloAddress, ResourceStatistics>, reported: map<SiloAddress, SiloRuntimeStatistics>) {
    forall a :: a in store ==>
      (a in reported && store[a] == Raw(reported[a])) ||
      (store[a].cpuUsage.Some? && store[a].availableMemory.Some? && store[a].memoryUsage == Some(0))
  }

  /** The updates preserve that shape, whatever silo they are for: after a silo's first report,
      its stored memory usage is 0 and no smoothed field is missing. */
  lemma UpdateKeepsEntriesFilteredOrRaw(store: map<SiloAddress, ResourceStatistics>, filters: FilterStates,
                                        reported: map<SiloAddress, SiloRuntimeStatistics>,
                                        address: SiloAddress, statistics: SiloRuntimeStatistics)
    requires ValidFilters(filters) && EntriesFilteredOrRaw(store, reported)
    requires address in store ==> address in reported
    ensures EntriesFilteredOrRaw(AdaptiveUpdate(store, filters, address, statistics).0,
                                 if address in store then reported else reported[address := statistics])
  {
    var store' := AdaptiveUpdate(store, filters, address, statistics).0;
    var reported' := if address in store then reported else reported[address := statistics];
    forall a | a in store'
      ensures (a in reported' && store'[a] == Raw(reported'[a])) ||
              (store'[a].cpuUsage.Some? && store'[a].availableMemory.Some? && store'[a].memoryUsage == Some(0))
    {
      if a != address {
        assert a in store && store'[a] == store[a];
      }
    }
  }

  class AdaptiveBalancedResourcePlacementDirector {
    var siloStatistics: map<SiloAddress, ResourceStatistics>
    const options: PlacementOptions
    const cpuUsageFilter: StatisticsFilter
    const availableMemoryFilter: StatisticsFilter
    const memoryUsageFilter: LongStatisticsFilter

    ghost function Repr(): set<object> {
      {this} + cpuUsageFilter.Repr() + availableMemoryFilter.Repr() + memoryUsageFilter.Repr()
    }

    /** Three separate filters, each valid, and the state of all three within reach. */
    ghost predicate Valid()
      reads Repr()
    {
      this !in cpuUsageFilter.Repr() && this !in availableMemoryFilter.Repr() && this !in memoryUsageFilter.Repr() &&
      cpuUsageFilter.Repr() !! availableMemoryFilter.Repr() &&
      cpuUsageFilter.Repr() !! memoryUsageFilter.Repr() &&
      availableMemoryFilter.Repr() !! memoryUsageFilter.Repr() &&
      cpuUsageFilter.Valid() && availableMemoryFilter.Valid() && memoryUsageFilter.Valid() &&
      ValidFilters(Filters())
    }

    ghost function Filters(): FilterStates
      reads Repr()
    {
      FilterStates(cpuUsageFilter.State(), availableMemoryFilter.State(), memoryUsageFilter.State())
    }

    constructor (options: PlacementOptions)
      ensures Valid() && this.options == options
      ensures siloStatistics == map[] && Filters() == InitialFilterStates
    {
      this.options := options;
      siloStatistics := map[];
      cpuUsageFilter := new StatisticsFilter();
      availableMemoryFilter := new StatisticsFilter();
      memoryUsageFilter := new LongStatisticsFilter();
    }

    method OnSiloStatisticsChanged(address: SiloAddress, statistics: SiloRuntimeStatistics)
      requires Valid()
      modifies Repr()
      ensures Valid()
      ensures (siloStatistics, Filters()) == AdaptiveUpdate(old(siloStatistics), old(Filters()), address, statistics)
    {
      if address !in siloStatistics {
        siloStatistics := siloStatistics[address := Raw(statistics)];
      } else {
        var estimatedCpuUsage := cpuUsageFilter.Filter(Some(statistics.cpuUsage.GetOr(0.0)));
        var estimatedAvailableMemory := availableMemoryFilter.Filter(Some(statistics.availableMemory.GetOr(0.0)));
        var estimatedMemoryUsage := memoryUsageFilter.Filter(Some(statistics.memoryUsage.GetOr(0)));
        siloStatistics := siloStatistics[address := ResourceStatistics(
          Some(estimatedCpuUsage), Some(estimatedAvailableMemory), Some(estimatedMemoryUsage),
          statistics.totalPhysicalMemory, statistics.isOverloaded)];
      }
    }
  }
}
