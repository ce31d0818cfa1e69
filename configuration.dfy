/** The placement options and the registration call `AddBalancedResourcePlacement`: the defaults,
    the optional override by the caller's builder, and the check on the sum of the four weights. */
module Configuration {
  import opened Wrappers

  /** `BalancedResourcePlacementOptions`; the collection period is kept in milliseconds. */
  datatype PlacementOptions = PlacementOptions(
    resourceStatisticsCollectionPeriodMs: int,
    cpuUsageWeight: real,
    availableMemoryWeight: real,
    memoryUsageWeight: real,
    totalPhysicalMemoryWeight: real)

  /** The options the registration starts from: a 5 s period and weights 0.3, 0.4, 0.2 and 0.1. */
  const DefaultOptions: PlacementOptions := PlacementOptions(5000, 0.3, 0.4, 0.2, 0.1)

  /** The sum the registration checks, in the order the code adds the weights up. */
  function WeightSum(options: PlacementOptions): real {
    options.cpuUsageWeight + options.memoryUsageWeight +
    options.availableMemoryWeight + options.totalPhysicalMemoryWeight
  }

  /** The exception the registration can throw. */
  datatype ConfigurationError = InvalidOperation

  /** What a successful registration leaves behind: the options as a service, and whether the
      strategy was also registered as the global default. */
  datatype Registration = Registration(options: PlacementOptions, globalStrategyRegistered: bool)

  /** The options after the caller's builder, if any, has run on the defaults. The builder
      mutates the options object in place; here it maps the options record to the new one. */
  function BuildOptions(optionsBuilder: Option<PlacementOptions -> PlacementOptions>): (r: PlacementOptions)
    ensures optionsBuilder.None? ==> r == DefaultOptions
    ensures optionsBuilder.Some? ==> r == optionsBuilder.value(DefaultOptions)
  {
    match optionsBuilder
    case None => DefaultOptions
    case Some(builder) => builder(DefaultOptions)
  }

  /** `AddBalancedResourcePlacement`: throws unless the weights sum to exactly 100; otherwise
      registers the built options, and the global strategy exactly when `isGlobal` is set. */
  function AddBalancedResourcePlacement(isGlobal: bool, optionsBuilder: Option<PlacementOptions -> PlacementOptions>):
    (r: Result<Registration, ConfigurationError>)
    ensures r.Success? <==> WeightSum(BuildOptions(optionsBuilder)) == 100.0
    ensures r.Failure? ==> r.error == InvalidOperation
    ensures r.Success? ==> r.value.options == BuildOptions(optionsBuilder)
    ensures r.Success? ==> r.value.globalStrategyRegistered == isGlobal
  {
    var options := BuildOptions(optionsBuilder);
    if WeightSum(options) != 100.0 then
      Failure(InvalidOperation)
    else
      Success(Registration(options, isGlobal))
  }

  /** The default weights sum to 1, so a registration without a builder, or with one that
      leaves the weights alone, always throws. */
  lemma DefaultWeightsRejected(isGlobal: bool, optionsBuilder: Option<PlacementOptions -> PlacementOptions>)
    requires optionsBuilder.Some? ==> BuildOptions(optionsBuilder).cpuUsageWeight == 0.3
    requires optionsBuilder.Some? ==> BuildOptions(optionsBuilder).availableMemoryWeight == 0.4
    requires optionsBuilder.Some? ==> BuildOptions(optionsBuilder).memoryUsageWeight == 0.2
    requires optionsBuilder.Some? ==> BuildOptions(optionsBuilder).totalPhysicalMemoryWeight == 0.1
    ensures WeightSum(DefaultOptions) == 1.0
    ensures AddBalancedResourcePlacement(isGlobal, optionsBuilder) == Failure(InvalidOperation)
  {
  }

  /** A builder that sets the weights to 30, 40, 20 and 10 passes the check. */
  lemma PercentWeightsAccepted(isGlobal: bool)
    ensures var builder := (o: PlacementOptions) => o.(cpuUsageWeight := 30.0, availableMemoryWeight := 40.0,
                                                       memoryUsageWeight := 20.0, totalPhysicalMemoryWeight := 10.0);
      AddBalancedResourcePlacement(isGlobal, Some(builder)) ==
        Success(Registration(PlacementOptions(5000, 30.0, 40.0, 20.0, 10.0), isGlobal))
  {
  }

  /** The check as the defaults evidently intend it: the weights are fractions that sum to 1. */
  function AddBalancedResourcePlacementUnitSum(isGlobal: bool, optionsBuilder: Option<PlacementOptions -> PlacementOptions>):
    (r: Result<Registration, ConfigurationError>)
    ensures r.Success? <==> WeightSum(BuildOptions(optionsBuilder)) == 1.0
    ensures r.Failure? ==> r.error == InvalidOperation
    ensures r.Success? ==> r == Success(Registration(BuildOptions(optionsBuilder), isGlobal))
  {
    var options := BuildOptions(optionsBuilder);
    if WeightSum(options) != 1.0 then
      Failure(InvalidOperation)
    else
      Success(Registration(options, isGlobal))
  }

  /** The corrected check accepts a registration that keeps the defaults. */
  lemma DefaultWeightsAcceptedByUnitSum(isGlobal: bool)
    ensures AddBalancedResourcePlacementUnitSum(isGlobal, None) == Success(Registration(DefaultOptions, isGlobal))
  {
  }

  /** No options pass both checks: the two sums cannot both hold. */
  lemma ChecksDisagree(isGlobal: bool, optionsBuilder: Option<PlacementOptions -> PlacementOptions>)
    ensures !(AddBalancedResourcePlacement(isGlobal, optionsBuilder).Success? &&
              AddBalancedResourcePlacementUnitSum(isGlobal, optionsBuilder).Success?)
  {
  }
}
