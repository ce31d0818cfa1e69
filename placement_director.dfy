/** `BalancedResourcePlacementDirector`: a store of the latest statistics per silo, a weighted
    score over those statistics, and the choice of the compatible silo with the highest score. */
module Placement {
  import opened Wrappers
  import opened Numerics
  import opened Statistics
  import opened Configuration

  /** The exceptions `OnAddActivation` can end in: no compatible silo, the memory usage divided
      by a total of 0, and `First()` on an empty score table. */
  datatype PlacementError = NoCompatibleSilos | DivideByZero | NoScoredSilo

  // ---------------------------------------------------------------------------------------
  // The score

  /** The CPU usage in percent as a fraction; a missing value counts as 0. */
  function NormalizedCpuUsage(stats: SiloRuntimeStatistics): real {
    if stats.cpuUsage.Some? then stats.cpuUsage.value / 100.0 else 0.0
  }

  /** The score divides the memory usage by a total physical memory of 0. That division is on
      `long`s and throws; the available memory is a `float` and its division does not. */
  predicate ScoreFaults(stats: SiloRuntimeStatistics) {
    stats.totalPhysicalMemory == Some(0) && stats.memoryUsage.Some?
  }

  /** `CalculateScore`: the CPU term, plus, when the total physical memory is known, the available
      memory as a `float` fraction of it, the used memory as a truncated `long` fraction of it and
      the total in whole GiB, each weighted and summed from the left. */
  function CalculateScore(options: PlacementOptions, stats: SiloRuntimeStatistics): (r: Result<Float, PlacementError>)
    ensures r.Failure? <==> ScoreFaults(stats)
    ensures r.Failure? ==> r.error == DivideByZero
    ensures stats.totalPhysicalMemory.None? ==>
      r == Success(Finite(Weigh(options.cpuUsageWeight, NormalizedCpuUsage(stats))))
    ensures r.Success? && !r.value.Finite? ==>
      stats.totalPhysicalMemory == Some(0) && stats.availableMemory.Some? && stats.memoryUsage.None?
  {
    if stats.totalPhysicalMemory.None? then
      Success(Finite(Weigh(options.cpuUsageWeight, NormalizedCpuUsage(stats))))
    else if ScoreFaults(stats) then
      Failure(DivideByZero)
    else
      var total := stats.totalPhysicalMemory.value;
      var available := if stats.availableMemory.Some? then FloatDiv(stats.availableMemory.value, total as real) else Finite(0.0);
      var used := if stats.memoryUsage.Some? then TruncDiv(stats.memoryUsage.value, total) as real else 0.0;
      var capacity := TruncDiv(total, Gibibyte) as real;
      Success(Plus(Plus(Plus(Finite(Weigh(options.cpuUsageWeight, NormalizedCpuUsage(stats))),
                             Times(options.availableMemoryWeight, available)),
                        Finite(Weigh(options.memoryUsageWeight, used))),
                   Finite(Weigh(options.totalPhysicalMemoryWeight, capacity))))
  }

  /** Without a total physical memory the memory figures do not matter at all. */
  lemma ScoreIgnoresMemoryWithoutTotal(options: PlacementOptions, stats: SiloRuntimeStatistics,
                                       available: Option<real>, used: Option<int>)
    requires stats.totalPhysicalMemory.None?
    ensures CalculateScore(options, stats) == CalculateScore(options, stats.(availableMemory := available, memoryUsage := used))
  {
    assert NormalizedCpuUsage(stats.(availableMemory := available, memoryUsage := used)) == NormalizedCpuUsage(stats);
  }

  /** The score of statistics with a non-zero total: a finite sum of the four weighted terms. */
  lemma ScoreWithTotal(options: PlacementOptions, stats: SiloRuntimeStatistics, total: int)
    requires stats.totalPhysicalMemory == Some(total) && total != 0
    ensures CalculateScore(options, stats) == Success(Finite(
      Weigh(options.cpuUsageWeight, NormalizedCpuUsage(stats)) +
      Weigh(options.availableMemoryWeight, if stats.availableMemory.Some? then stats.availableMemory.value / total as real else 0.0) +
      Weigh(options.memoryUsageWeight, if stats.memoryUsage.Some? then TruncDiv(stats.memoryUsage.value, total) as real else 0.0) +
      Weigh(options.totalPhysicalMemoryWeight, TruncDiv(total, Gibibyte) as real)))
  {
  }

  /** More available memory never lowers the score, given a non-negative weight and a positive total. */
  lemma ScoreMonotoneInAvailableMemory(options: PlacementOptions, stats: SiloRuntimeStatistics, a1: real, a2: real)
    requires options.availableMemoryWeight >= 0.0 && a1 <= a2
    requires stats.totalPhysicalMemory.Some? && stats.totalPhysicalMemory.value > 0
    ensures CalculateScore(options, stats.(availableMemory := Some(a1))).Success?
    ensures CalculateScore(options, stats.(availableMemory := Some(a2))).Success?
    ensures CalculateScore(options, stats.(availableMemory := Some(a1))).value.Finite?
    ensures CalculateScore(options, stats.(availableMemory := Some(a2))).value.Finite?
    ensures CalculateScore(options, stats.(availableMemory := Some(a1))).value.value <=
            CalculateScore(options, stats.(availableMemory := Some(a2))).value.value
  {
    var total := stats.totalPhysicalMemory.value;
    var s1, s2 := stats.(availableMemory := Some(a1)), stats.(availableMemory := Some(a2));
    ScoreWithTotal(options, s1, total);
    ScoreWithTotal(options, s2, total);
    assert NormalizedCpuUsage(s1) == NormalizedCpuUsage(s2);
    QuotientMonotone(a1, a2, total as real);
    WeighMonotone(options.availableMemoryWeight, a1 / total as real, a2 / total as real);
  }

  /** With a total of 0 and no memory usage nothing throws: available memory makes the score
      infinite, or NaN when it is 0 or its weight is 0; without it the score is the CPU term. */
  lemma ZeroTotalScore(options: PlacementOptions, stats: SiloRuntimeStatistics, a: real)
    requires stats.totalPhysicalMemory == Some(0) && stats.memoryUsage.None?
    ensures a > 0.0 && options.availableMemoryWeight > 0.0 ==>
      CalculateScore(options, stats.(availableMemory := Some(a))) == Success(PositiveInfinity)
    ensures a < 0.0 && options.availableMemoryWeight > 0.0 ==>
      CalculateScore(options, stats.(availableMemory := Some(a))) == Success(NegativeInfinity)
    ensures a == 0.0 || options.availableMemoryWeight == 0.0 ==>
      CalculateScore(options, stats.(availableMemory := Some(a))) == Success(NaN)
    ensures CalculateScore(options, stats.(availableMemory := None)) ==
      Success(Finite(Weigh(options.cpuUsageWeight, NormalizedCpuUsage(stats))))
  {
    assert TruncDiv(0, Gibibyte) == 0;
    assert NormalizedCpuUsage(stats.(availableMemory := Some(a))) == NormalizedCpuUsage(stats);
    assert NormalizedCpuUsage(stats.(availableMemory := None)) == NormalizedCpuUsage(stats);
  }

  /** Two silos with 16e9 bytes each, one at 20% CPU with half its memory free, the other at 80%
      CPU with an eighth free: under the default weights the used-memory fractions truncate to 0,
      the capacity term is the same, and the busier silo scores higher, since the CPU term adds
      more than the free memory takes away. */
  lemma BusierSiloScoresHigher()
    ensures CalculateScore(DefaultOptions, SiloRuntimeStatistics(Some(20.0), Some(8000000000.0), Some(8000000000), Some(16000000000), false)) == Success(Finite(1.66))
    ensures CalculateScore(DefaultOptions, SiloRuntimeStatistics(Some(80.0), Some(2000000000.0), Some(14000000000), Some(16000000000), false)) == Success(Finite(1.69))
  {
    TruncDivSmall(8000000000, 16000000000);
    TruncDivSmall(14000000000, 16000000000);
    assert TruncDiv(16000000000, Gibibyte) == 14;
  }

  // ---------------------------------------------------------------------------------------
  // The score table and the choice

  /** The `scores` dictionary: its keys in insertion order (the order it is enumerated in) and
      the score stored under each key. */
  datatype ScoreTable = ScoreTable(order: seq<SiloAddress>, scores: map<SiloAddress, Float>)

  /** Every key is listed once, and exactly the keys are listed. */
  ghost predicate WellFormed(t: ScoreTable) {
    (forall i, j :: 0 <= i < j < |t.order| ==> t.order[i] != t.order[j]) &&
    (forall s :: s in t.scores <==> s in t.order)
  }

  /** The dictionary assignment `scores[silo] = score`: a new key goes to the end. */
  function Put(t: ScoreTable, silo: SiloAddress, score: Float): ScoreTable {
    ScoreTable(if silo in t.scores then t.order else t.order + [silo], t.scores[silo := score])
  }

  /** An assignment keeps the table well formed and adds its key. */
  lemma PutKeepsWellFormed(t: ScoreTable, silo: SiloAddress, score: Float)
    requires WellFormed(t)
    ensures WellFormed(Put(t, silo, score))
    ensures Put(t, silo, score).scores.Keys == t.scores.Keys + {silo}
  {
  }

  /** The table the `foreach` loop builds over `silos`, or the fault of the first silo whose
      score divides by zero. */
  function ScoreAll(options: PlacementOptions, store: map<SiloAddress, SiloRuntimeStatistics>, silos: seq<SiloAddress>):
    (r: Result<ScoreTable, PlacementError>)
    ensures r.Failure? ==> r.error == DivideByZero
    ensures r.Success? ==> WellFormed(r.value)
    ensures r.Success? ==> forall s :: s in r.value.scores ==>
      s in store && CalculateScore(options, store[s]) == Success(r.value.scores[s])
    decreases |silos|
  {
    if |silos| == 0 then
      Success(ScoreTable([], map[]))
    else
      var prefix := silos[..|silos| - 1];
      var silo := silos[|silos| - 1];
      assert forall i :: 0 <= i < |prefix| ==> prefix[i] == silos[i];
      match ScoreAll(options, store, prefix)
      case Failure(e) => Failure(e)
      case Success(t) =>
        if silo in store then
          match CalculateScore(options, store[silo])
          case Failure(e) => Failure(e)
          case Success(score) =>
            PutKeepsWellFormed(t, silo, score);
            Success(Put(t, silo, score))
        else
          Success(t)
  }

  /** The loop fails exactly when some listed silo with statistics has a score that divides
      by zero. */
  lemma {:induction false} ScoreAllFaults(options: PlacementOptions, store: map<SiloAddress, SiloRuntimeStatistics>, silos: seq<SiloAddress>)
    ensures ScoreAll(options, store, silos).Failure? <==>
      exists i :: 0 <= i < |silos| && silos[i] in store && ScoreFaults(store[silos[i]])
    decreases |silos|
  {
    if |silos| > 0 {
      var prefix := silos[..|silos| - 1];
      assert forall i :: 0 <= i < |prefix| ==> prefix[i] == silos[i];
      ScoreAllFaults(options, store, prefix);
    }
  }

  /** The table holds exactly the listed silos that have statistics. */
  lemma {:induction false} ScoreAllKeys(options: PlacementOptions, store: map<SiloAddress, SiloRuntimeStatistics>, silos: seq<SiloAddress>)
    requires ScoreAll(options, store, silos).Success?
    ensures forall s :: s in ScoreAll(options, store, silos).value.scores <==> s in silos && s in store
    decreases |silos|
  {
    if |silos| > 0 {
      var prefix := silos[..|silos| - 1];
      assert forall i :: 0 <= i < |prefix| ==> prefix[i] == silos[i];
      assert silos == prefix + [silos[|silos| - 1]];
      ScoreAllKeys(options, store, prefix);
    }
  }

  /** The position of the first highest score in `order`: `OrderByDescending` is a stable sort,
      so `First()` of it is the earliest entry among those with the highest score. */
  function FirstMaximum(order: seq<SiloAddress>, scores: map<SiloAddress, Float>): (k: nat)
    requires |order| > 0 && forall s :: s in order ==> s in scores
    ensures k < |order|
    ensures forall i :: 0 <= i < |order| ==> !Below(scores[order[k]], scores[order[i]])
    ensures forall i :: 0 <= i < k ==> Below(scores[order[i]], scores[order[k]])
    decreases |order|
  {
    if |order| == 1 then
      0
    else
      var prefix := order[..|order| - 1];
      var best := FirstMaximum(prefix, scores);
      assert forall i :: 0 <= i < |prefix| ==> prefix[i] == order[i];
      if Below(scores[order[best]], scores[order[|order| - 1]]) then |order| - 1 else best
  }

  /** `RandomSilo`: the address at the random index `pick`. */
  function RandomSilo(addresses: seq<SiloAddress>, pick: nat): (r: SiloAddress)
    requires pick < |addresses|
    ensures r in addresses
  {
    addresses[pick]
  }

  /** `OnAddActivation` without the placement hint, as a function of the store, the compatible
      silos and the random index. */
  function Place(options: PlacementOptions, store: map<SiloAddress, SiloRuntimeStatistics>,
                 silos: seq<SiloAddress>, pick: nat): (r: Result<SiloAddress, PlacementError>)
    requires |silos| > 0 ==> pick < |silos|
    ensures r == Failure(NoCompatibleSilos) <==> |silos| == 0
    ensures |silos| > 0 && |store| == 0 ==> r == Success(silos[pick])
    ensures r == Failure(DivideByZero) <==>
      |silos| > 0 && |store| > 0 && exists i :: 0 <= i < |silos| && silos[i] in store && ScoreFaults(store[silos[i]])
    ensures r == Failure(NoScoredSilo) <==>
      |silos| > 0 && |store| > 0 && forall i :: 0 <= i < |silos| ==> silos[i] !in store
    ensures r.Success? ==> r.value in silos
    ensures r.Success? && |store| > 0 ==> r.value in store && !ScoreFaults(store[r.value])
  {
    if |silos| == 0 then
      Failure(NoCompatibleSilos)
    else if |store| == 0 then
      Success(RandomSilo(silos, pick))
    else
      ScoreAllFaults(options, store, silos);
      match ScoreAll(options, store, silos)
      case Failure(e) => Failure(e)
      case Success(t) =>
        ScoreAllKeys(options, store, silos);
        if |t.order| == 0 then
          assert forall i :: 0 <= i < |silos| ==> silos[i] !in t.scores;
          Failure(NoScoredSilo)
        else
          assert t.order[0] in t.scores;
          Success(t.order[FirstMaximum(t.order, t.scores)])
  }

  /** The score of a silo whose statistics do not fault. */
  function ScoreOf(options: PlacementOptions, stats: SiloRuntimeStatistics): Float
    requires !ScoreFaults(stats)
  {
    CalculateScore(options, stats).value
  }

  /** The table over a prefix of the silos lists its keys as a prefix of the full table's list. */
  lemma {:induction false} ScoreAllOrderExtends(options: PlacementOptions, store: map<SiloAddress, SiloRuntimeStatistics>,
                                                silos: seq<SiloAddress>, m: nat)
    requires m <= |silos| && ScoreAll(options, store, silos).Success?
    ensures ScoreAll(options, store, silos[..m]).Success?
    ensures |ScoreAll(options, store, silos[..m]).value.order| <= |ScoreAll(options, store, silos).value.order|
    ensures ScoreAll(options, store, silos[..m]).value.order ==
            ScoreAll(options, store, silos).value.order[..|ScoreAll(options, store, silos[..m]).value.order|]
    decreases |silos|
  {
    if m == |silos| {
      assert silos[..m] == silos;
    } else {
      var prefix := silos[..|silos| - 1];
      assert prefix[..m] == silos[..m];
      ScoreAllOrderExtends(options, store, prefix, m);
    }
  }

  /** A scored silo `silos[j]` comes earlier in the table than any scored silo that first
      appears after position `j`. */
  lemma {:induction false} EarlierInTable(options: PlacementOptions, store: map<SiloAddress, SiloRuntimeStatistics>,
                                          silos: seq<SiloAddress>, j: nat, later: SiloAddress) returns (n: nat)
    requires ScoreAll(options, store, silos).Success?
    requires j < |silos| && silos[j] in store && later !in silos[..j + 1]
    ensures n < |ScoreAll(options, store, silos).value.order|
    ensures ScoreAll(options, store, silos).value.order[n] == silos[j]
    ensures forall x :: 0 <= x <= n ==> ScoreAll(options, store, silos).value.order[x] != later
  {
    ScoreAllOrderExtends(options, store, silos, j + 1);
    var t := ScoreAll(options, store, silos).value;
    var t' := ScoreAll(options, store, silos[..j + 1]).value;
    ScoreAllKeys(options, store, silos[..j + 1]);
    assert silos[..j + 1][j] == silos[j];
    assert silos[j] in t'.scores;
    n :| 0 <= n < |t'.order| && t'.order[n] == silos[j];
    assert later !in t'.scores;
    assert forall x :: 0 <= x < |t'.order| ==> t.order[x] == t'.order[x];
  }

  /** When the store is not empty, no compatible silo with statistics scores above the chosen
      one in the order `float` compares in. */
  lemma PlaceSelectsHighestScore(options: PlacementOptions, store: map<SiloAddress, SiloRuntimeStatistics>,
                                 silos: seq<SiloAddress>, pick: nat)
    requires |silos| > 0 ==> pick < |silos|
    requires Place(options, store, silos, pick).Success? && |store| > 0
    ensures forall i :: 0 <= i < |silos| && silos[i] in store ==>
      !ScoreFaults(store[silos[i]]) &&
      !Below(ScoreOf(options, store[Place(options, store, silos, pick).value]), ScoreOf(options, store[silos[i]]))
  {
    var t := ScoreAll(options, store, silos).value;
    var k := FirstMaximum(t.order, t.scores);
    assert Place(options, store, silos, pick).value == t.order[k];
    ScoreAllKeys(options, store, silos);
    forall i | 0 <= i < |silos| && silos[i] in store
      ensures !ScoreFaults(store[silos[i]]) && !Below(ScoreOf(options, store[t.order[k]]), ScoreOf(options, store[silos[i]]))
    {
      assert silos[i] in t.scores;
      var n :| 0 <= n < |t.order| && t.order[n] == silos[i];
    }
  }

  /** Among equal highest scores the chosen silo is the first: every compatible silo with
      statistics listed before its first occurrence scores strictly lower. */
  lemma PlaceTieGoesToEarliest(options: PlacementOptions, store: map<SiloAddress, SiloRuntimeStatistics>,
                               silos: seq<SiloAddress>, pick: nat)
    requires |silos| > 0 ==> pick < |silos|
    requires Place(options, store, silos, pick).Success? && |store| > 0
    ensures forall j :: 0 <= j < |silos| && silos[j] in store && Place(options, store, silos, pick).value !in silos[..j + 1] ==>
      Below(ScoreOf(options, store[silos[j]]), ScoreOf(options, store[Place(options, store, silos, pick).value]))
  {
    var t := ScoreAll(options, store, silos).value;
    var k := FirstMaximum(t.order, t.scores);
    var s := t.order[k];
    assert Place(options, store, silos, pick).value == s;
    forall j | 0 <= j < |silos| && silos[j] in store && s !in silos[..j + 1]
      ensures Below(ScoreOf(options, store[silos[j]]), ScoreOf(options, store[s]))
    {
      var n := EarlierInTable(options, store, silos, j, s);
    }
  }

  /** A compatible silo that reports a total physical memory of 0, positive available memory
      and no memory usage scores positive infinity under a positive available-memory weight, so
      whenever the placement succeeds it picks a silo scoring positive infinity, and one listed no
      later than that silo, whatever the other silos report. */
  lemma ZeroTotalSiloWins(options: PlacementOptions, store: map<SiloAddress, SiloRuntimeStatistics>,
                          silos: seq<SiloAddress>, pick: nat, j: nat)
    requires pick < |silos| && j < |silos| && silos[j] in store
    requires store[silos[j]].totalPhysicalMemory == Some(0) && store[silos[j]].memoryUsage.None?
    requires store[silos[j]].availableMemory.Some? && store[silos[j]].availableMemory.value > 0.0
    requires options.availableMemoryWeight > 0.0
    requires Place(options, store, silos, pick).Success?
    ensures ScoreOf(options, store[Place(options, store, silos, pick).value]) == PositiveInfinity
    ensures Place(options, store, silos, pick).value in silos[..j + 1]
  {
    var stats := store[silos[j]];
    ZeroTotalScore(options, stats, stats.availableMemory.value);
    assert stats.(availableMemory := Some(stats.availableMemory.value)) == stats;
    assert |store| > 0;
    PlaceSelectsHighestScore(options, store, silos, pick);
    PlaceTieGoesToEarliest(options, store, silos, pick);
    PositiveInfinityIsTop(ScoreOf(options, store[Place(options, store, silos, pick).value]));
  }

  // ---------------------------------------------------------------------------------------
  // The corrected choice

  /** `OnAddActivation` as the `?? RandomSilo` fallback evidently intends it: when no compatible
      silo has statistics, a random compatible silo instead of an exception. */
  function PlaceWithFallback(options: PlacementOptions, store: map<SiloAddress, SiloRuntimeStatistics>,
                             silos: seq<SiloAddress>, pick: nat): (r: Result<SiloAddress, PlacementError>)
    requires |silos| > 0 ==> pick < |silos|
    ensures r != Failure(NoScoredSilo)
    ensures r.Success? ==> r.value in silos
    ensures Place(options, store, silos, pick) != Failure(NoScoredSilo) ==> r == Place(options, store, silos, pick)
    ensures Place(options, store, silos, pick) == Failure(NoScoredSilo) ==> r == Success(silos[pick])
  {
    match Place(options, store, silos, pick)
    case Failure(NoScoredSilo) => Success(RandomSilo(silos, pick))
    case other => other
  }

  /** A store that knows only some other silo: the code as written throws, the fallback places
      the activation on the one compatible silo. */
  lemma UnscoredCandidateThrows(options: PlacementOptions, stats: SiloRuntimeStatistics)
    ensures Place(options, map[SiloAddress(1) := stats], [SiloAddress(2)], 0) == Failure(NoScoredSilo)
    ensures PlaceWithFallback(options, map[SiloAddress(1) := stats], [SiloAddress(2)], 0) == Success(SiloAddress(2))
  {
    assert |map[SiloAddress(1) := stats]| == 1;
  }

  // ---------------------------------------------------------------------------------------
  // The director

  /** `OrderByDescending(kv => kv.Value).First()` on a non-empty table: one pass that keeps the
      earliest entry among the highest scores seen so far. */
  method FirstHighest(order: seq<SiloAddress>, scores: map<SiloAddress, Float>) returns (best: nat)
    requires |order| > 0 && forall s :: s in order ==> s in scores
    ensures best == FirstMaximum(order, scores)
  {
    best := 0;
    for i := 1 to |order|
      invariant best == FirstMaximum(order[..i], scores)
    {
      assert order[..i + 1][..i] == order[..i];
      if Below(scores[order[best]], scores[order[i]]) {
        best := i;
      }
    }
    assert order[..|order|] == order;
  }

  class BalancedResourcePlacementDirector {
    var siloStatistics: map<SiloAddress, SiloRuntimeStatistics>
    const options: PlacementOptions

    constructor (options: PlacementOptions)
      ensures this.options == options && siloStatistics == map[]
    {
      this.options := options;
      siloStatistics := map[];
    }

    /** The silo chosen for a new activation among `compatibleSilos`; `pick` is the random index. */
    method OnAddActivation(compatibleSilos: seq<SiloAddress>, pick: nat) returns (r: Result<SiloAddress, PlacementError>)
      requires |compatibleSilos| > 0 ==> pick < |compatibleSilos|
      ensures r == Place(options, siloStatistics, compatibleSilos, pick)
    {
      if |compatibleSilos| == 0 {
        return Failure(NoCompatibleSilos);
      }
      if |siloStatistics| == 0 {
        return Success(RandomSilo(compatibleSilos, pick));
      }
      var order: seq<SiloAddress> := [];
      var scores: map<SiloAddress, Float> := map[];
      for i := 0 to |compatibleSilos|
        invariant ScoreAll(options, siloStatistics, compatibleSilos[..i]) == Success(ScoreTable(order, scores))
      {
        var silo := compatibleSilos[i];
        assert compatibleSilos[..i + 1][..i] == compatibleSilos[..i];
        if silo in siloStatistics {
          var score := CalculateScore(options, siloStatistics[silo]);
          if score.Failure? {
            assert compatibleSilos[i] in siloStatistics && ScoreFaults(siloStatistics[compatibleSilos[i]]);
            return Failure(DivideByZero);
          }
          if silo !in scores {
            order := order + [silo];
          }
          scores := scores[silo := score.value];
        }
      }
      assert compatibleSilos[..|compatibleSilos|] == compatibleSilos;
      if |order| == 0 {
        return Failure(NoScoredSilo);
      }
      var best := FirstHighest(order, scores);
      return Success(order[best]);
    }

    /** `AddOrUpdate` with the new statistics, whatever was stored before. */
    method OnSiloStatisticsChanged(updatedSilo: SiloAddress, newSiloStats: SiloRuntimeStatistics)
      modifies this
      ensures siloStatistics == old(siloStatistics)[updatedSilo := newSiloStats]
    {
      siloStatistics := siloStatistics[updatedSilo := newSiloStats];
    }

    /** `TryRemove`: the entry goes if it is there; nothing happens otherwise. */
    method OnSiloRemoved(removedSilo: SiloAddress)
      modifies this
      ensures siloStatistics == old(siloStatistics) - {removedSilo}
    {
      siloStatistics := siloStatistics - {removedSilo};
    }
  }

  /** After a removal no placement with known statistics picks the removed silo. */
  lemma RemovedSiloNotPlaced(options: PlacementOptions, store: map<SiloAddress, SiloRuntimeStatistics>,
                             removed: SiloAddress, silos: seq<SiloAddress>, pick: nat)
    requires |silos| > 0 ==> pick < |silos|
    requires |store - {removed}| > 0
    ensures Place(options, store - {removed}, silos, pick).Success? ==>
      Place(options, store - {removed}, silos, pick).value != removed
  {
  }
}
