/** `SiloRuntimeStatisticsCollector.UpdateSiloStatistics`: one collection round diffs the batch of
    fresh statistics against the collector's dictionary, tells the listener about every silo
    whose statistics changed, and then drops, with a notification each, the silos missing from
    the batch. The fetch loop around it is not part of this model. */
module Collector {
  import opened Wrappers
  import opened Statistics

  /** `AreStatisticsEqual`: the four figures agree; the overload flag is not compared. */
  predicate AreStatisticsEqual(stats1: SiloRuntimeStatistics, stats2: SiloRuntimeStatistics) {
    stats1.cpuUsage == stats2.cpuUsage &&
    stats1.availableMemory == stats2.availableMemory &&
    stats1.memoryUsage == stats2.memoryUsage &&
    stats1.totalPhysicalMemory == stats2.totalPhysicalMemory
  }

  /** The two calls into `ISiloStatisticsListener`. */
  datatype Notification =
    | SiloStatisticsChanged(silo: SiloAddress, statistics: SiloRuntimeStatistics)
    | SiloRemoved(silo: SiloAddress)

  /** One fresh report per silo, as the fetch returns them. */
  type Batch = seq<(SiloAddress, SiloRuntimeStatistics)>

  /** The silos the batch reports on. */
  function BatchSilos(batch: Batch): set<SiloAddress> {
    set i | 0 <= i < |batch| :: batch[i].0
  }

  /** No silo is reported twice (the batch comes from the keys of a dictionary). */
  predicate DistinctSilos(batch: Batch) {
    forall i, j :: 0 <= i < j < |batch| ==> batch[i].0 != batch[j].0
  }

  /** How many notifications in `events` are about `silo`. */
  function CountFor(events: seq<Notification>, silo: SiloAddress): nat
    decreases |events|
  {
    if |events| == 0 then 0
    else CountFor(events[..|events| - 1], silo) + (if events[|events| - 1].silo == silo then 1 else 0)
  }

  /** One iteration of the first loop: store and announce the report unless the silo is known
      with equal statistics. */
  function Step(store: map<SiloAddress, SiloRuntimeStatistics>, events: seq<Notification>,
                silo: SiloAddress, newStats: SiloRuntimeStatistics):
    (r: (map<SiloAddress, SiloRuntimeStatistics>, seq<Notification>))
    ensures r.0.Keys == store.Keys + {silo}
    ensures forall s :: s in store && s != silo ==> r.0[s] == store[s]
    ensures |events| <= |r.1| <= |events| + 1 && r.1[..|events|] == events
    ensures |r.1| == |events| + 1 <==> !(silo in store && AreStatisticsEqual(store[silo], newStats))
    ensures |r.1| == |events| + 1 ==> r.1[|events|] == SiloStatisticsChanged(silo, newStats) && r.0[silo] == newStats
    ensures |r.1| == |events| ==> r.0 == store
  {
    if silo in store then
      if !AreStatisticsEqual(store[silo], newStats) then
        (store[silo := newStats], events + [SiloStatisticsChanged(silo, newStats)])
      else
        (store, events)
    else
      (store[silo := newStats], events + [SiloStatisticsChanged(silo, newStats)])
  }

  /** The first loop over the batch: the dictionary after it and the change notifications it sends. */
  function ChangePass(store: map<SiloAddress, SiloRuntimeStatistics>, batch: Batch):
    (r: (map<SiloAddress, SiloRuntimeStatistics>, seq<Notification>))
    decreases |batch|
  {
    if |batch| == 0 then
      (store, [])
    else
      var prefix := batch[..|batch| - 1];
      var before := ChangePass(store, prefix);
      Step(before.0, before.1, batch[|batch| - 1].0, batch[|batch| - 1].1)
  }

  /** The first loop over one more report is one more step. */
  lemma ChangePassSnoc(store: map<SiloAddress, SiloRuntimeStatistics>, batch: Batch, i: nat)
    requires i < |batch|
    ensures ChangePass(store, batch[..i + 1]) ==
      Step(ChangePass(store, batch[..i]).0, ChangePass(store, batch[..i]).1, batch[i].0, batch[i].1)
  {
    assert batch[..i + 1][..i] == batch[..i];
  }

  /** After the first loop the dictionary holds the silos it held and every reported one, and the
      loop sent one change notification at most per report, and no removal. */
  lemma {:induction false} ChangePassShape(store: map<SiloAddress, SiloRuntimeStatistics>, batch: Batch)
    ensures ChangePass(store, batch).0.Keys == store.Keys + BatchSilos(batch)
    ensures forall k :: 0 <= k < |ChangePass(store, batch).1| ==> ChangePass(store, batch).1[k].SiloStatisticsChanged?
    ensures |ChangePass(store, batch).1| <= |batch|
    decreases |batch|
  {
    if |batch| > 0 {
      var prefix := batch[..|batch| - 1];
      assert forall i :: 0 <= i < |prefix| ==> prefix[i] == batch[i];
      assert BatchSilos(batch) == BatchSilos(prefix) + {batch[|batch| - 1].0};
      ChangePassShape(store, prefix);
    }
  }

  /** `events` removes each silo of `silos` exactly once, in some order, and does nothing else. */
  ghost predicate RemovesEach(events: seq<Notification>, silos: set<SiloAddress>) {
    |events| == |silos| &&
    (forall k :: 0 <= k < |events| ==> events[k].SiloRemoved? && events[k].silo in silos) &&
    (forall k, l :: 0 <= k < l < |events| ==> events[k].silo != events[l].silo) &&
    (forall s :: s in silos ==> SiloRemoved(s) in events)
  }

  /** Appending one notification adds one to the count of its silo. */
  lemma CountForAppend(events: seq<Notification>, e: Notification, silo: SiloAddress)
    ensures CountFor(events + [e], silo) == CountFor(events, silo) + (if e.silo == silo then 1 else 0)
  {
    assert (events + [e])[..|events|] == events;
  }

  /** Removing one more silo keeps the removals a one-to-one enumeration. */
  lemma RemovesOneMore(events: seq<Notification>, silos: set<SiloAddress>, silo: SiloAddress)
    requires RemovesEach(events, silos) && silo !in silos
    ensures RemovesEach(events + [SiloRemoved(silo)], silos + {silo})
  {
    var events' := events + [SiloRemoved(silo)];
    forall s | s in silos + {silo} ensures SiloRemoved(s) in events' {
      if s != silo {
        assert SiloRemoved(s) in events;
      } else {
        assert events'[|events|] == SiloRemoved(silo);
      }
    }
  }

  /** Removing the silos one at a time removes them all. */
  lemma MapRemoveOneMore(store: map<SiloAddress, SiloRuntimeStatistics>, silos: set<SiloAddress>, silo: SiloAddress)
    ensures (store - silos) - {silo} == store - (silos + {silo})
  {
  }

  /** A silo the batch does not mention is untouched by the first loop and not notified. */
  lemma {:induction false} ChangePassUntouched(store: map<SiloAddress, SiloRuntimeStatistics>, batch: Batch, s: SiloAddress)
    requires s !in BatchSilos(batch)
    ensures (s in ChangePass(store, batch).0 <==> s in store)
    ensures s in store ==> ChangePass(store, batch).0[s] == store[s]
    ensures CountFor(ChangePass(store, batch).1, s) == 0
    decreases |batch|
  {
    if |batch| > 0 {
      var prefix := batch[..|batch| - 1];
      assert forall i :: 0 <= i < |prefix| ==> prefix[i] == batch[i];
      assert s !in BatchSilos(prefix);
      ChangePassUntouched(store, prefix, s);
      var before := ChangePass(store, prefix);
      var (silo, newStats) := batch[|batch| - 1];
      CountForAppend(before.1, SiloStatisticsChanged(silo, newStats), s);
    }
  }

  /** What the first loop does to a silo the batch reports, when no silo is reported twice: it
      ends with the reported statistics and one notification, unless it was known with equal
      statistics, when it is untouched and silent. */
  lemma {:induction false} ChangePassReported(store: map<SiloAddress, SiloRuntimeStatistics>, batch: Batch, i: nat)
    requires DistinctSilos(batch) && i < |batch|
    ensures batch[i].0 in ChangePass(store, batch).0
    ensures batch[i].0 in store && AreStatisticsEqual(store[batch[i].0], batch[i].1) ==>
      ChangePass(store, batch).0[batch[i].0] == store[batch[i].0] && CountFor(ChangePass(store, batch).1, batch[i].0) == 0
    ensures !(batch[i].0 in store && AreStatisticsEqual(store[batch[i].0], batch[i].1)) ==>
      ChangePass(store, batch).0[batch[i].0] == batch[i].1 && CountFor(ChangePass(store, batch).1, batch[i].0) == 1 &&
      SiloStatisticsChanged(batch[i].0, batch[i].1) in ChangePass(store, batch).1
    decreases |batch|
  {
    var prefix := batch[..|batch| - 1];
    assert forall j :: 0 <= j < |prefix| ==> prefix[j] == batch[j];
    var before := ChangePass(store, prefix);
    assert ChangePass(store, batch) == Step(before.0, before.1, batch[|batch| - 1].0, batch[|batch| - 1].1);
    if i == |batch| - 1 {
      assert batch[i].0 !in BatchSilos(prefix);
      ChangePassUntouched(store, prefix, batch[i].0);
      StepReported(before.0, before.1, store, batch[i].0, batch[i].1);
    } else {
      ChangePassReported(store, prefix, i);
      StepOther(before.0, before.1, batch[|batch| - 1].0, batch[|batch| - 1].1, batch[i].0);
    }
  }

  /** A step for another silo leaves `s` and its notifications as they were. */
  lemma StepOther(store: map<SiloAddress, SiloRuntimeStatistics>, events: seq<Notification>,
                  silo: SiloAddress, newStats: SiloRuntimeStatistics, s: SiloAddress)
    requires silo != s
    ensures (s in Step(store, events, silo, newStats).0 <==> s in store)
    ensures s in store ==> Step(store, events, silo, newStats).0[s] == store[s]
    ensures CountFor(Step(store, events, silo, newStats).1, s) == CountFor(events, s)
    ensures forall e :: e in events ==> e in Step(store, events, silo, newStats).1
  {
    CountForAppend(events, SiloStatisticsChanged(silo, newStats), s);
  }

  /** The step for a silo whose state and notifications still are the original ones. */
  lemma StepReported(store: map<SiloAddress, SiloRuntimeStatistics>, events: seq<Notification>,
                     original: map<SiloAddress, SiloRuntimeStatistics>, s: SiloAddress, newStats: SiloRuntimeStatistics)
    requires (s in store <==> s in original) && (s in original ==> store[s] == original[s])
    requires CountFor(events, s) == 0
    ensures s in Step(store, events, s, newStats).0
    ensures s in original && AreStatisticsEqual(original[s], newStats) ==>
      Step(store, events, s, newStats).0[s] == original[s] && CountFor(Step(store, events, s, newStats).1, s) == 0
    ensures !(s in original && AreStatisticsEqual(original[s], newStats)) ==>
      Step(store, events, s, newStats).0[s] == newStats && CountFor(Step(store, events, s, newStats).1, s) == 1 &&
      SiloStatisticsChanged(s, newStats) in Step(store, events, s, newStats).1
  {
    CountForAppend(events, SiloStatisticsChanged(s, newStats), s);
  }

  /** An unknown silo in the batch is added with its statistics and announced once. */
  lemma UnknownSiloInserted(store: map<SiloAddress, SiloRuntimeStatistics>, batch: Batch, i: nat)
    requires DistinctSilos(batch) && i < |batch| && batch[i].0 !in store
    ensures batch[i].0 in ChangePass(store, batch).0
    ensures ChangePass(store, batch).0[batch[i].0] == batch[i].1
    ensures CountFor(ChangePass(store, batch).1, batch[i].0) == 1
    ensures SiloStatisticsChanged(batch[i].0, batch[i].1) in ChangePass(store, batch).1
  {
    ChangePassReported(store, batch, i);
  }

  /** A known silo whose figures changed is overwritten and announced once. */
  lemma ChangedSiloOverwritten(store: map<SiloAddress, SiloRuntimeStatistics>, batch: Batch, i: nat)
    requires DistinctSilos(batch) && i < |batch| && batch[i].0 in store
    requires !AreStatisticsEqual(store[batch[i].0], batch[i].1)
    ensures batch[i].0 in ChangePass(store, batch).0
    ensures ChangePass(store, batch).0[batch[i].0] == batch[i].1
    ensures CountFor(ChangePass(store, batch).1, batch[i].0) == 1
    ensures SiloStatisticsChanged(batch[i].0, batch[i].1) in ChangePass(store, batch).1
  {
    ChangePassReported(store, batch, i);
  }

  /** A known silo reporting equal figures is left as it is, and the listener hears nothing of it;
      in particular a change of the overload flag alone is neither stored nor announced. */
  lemma EqualSiloUntouched(store: map<SiloAddress, SiloRuntimeStatistics>, batch: Batch, i: nat)
    requires DistinctSilos(batch) && i < |batch| && batch[i].0 in store
    requires AreStatisticsEqual(store[batch[i].0], batch[i].1)
    ensures batch[i].0 in ChangePass(store, batch).0
    ensures ChangePass(store, batch).0[batch[i].0] == store[batch[i].0]
    ensures CountFor(ChangePass(store, batch).1, batch[i].0) == 0
  {
    ChangePassReported(store, batch, i);
  }

  /** A report that differs from the stored one only in the overload flag counts as equal. */
  lemma OverloadFlagIgnored(stats: SiloRuntimeStatistics, isOverloaded: bool)
    ensures AreStatisticsEqual(stats, stats.(isOverloaded := isOverloaded))
  {
  }

  /** The silos the second loop drops: those the dictionary holds after the first loop and the
      batch does not mention, which are the previously known silos missing from the batch. */
  function Removals(store: map<SiloAddress, SiloRuntimeStatistics>, batch: Batch): (r: set<SiloAddress>)
    ensures r == store.Keys - BatchSilos(batch)
  {
    ChangePassShape(store, batch);
    ChangePass(store, batch).0.Keys - BatchSilos(batch)
  }

  /** The whole round on the dictionary: the first loop, then the removal of every silo the
      batch does not mention. The dictionary ends up holding exactly the reported silos. */
  function UpdatedStore(store: map<SiloAddress, SiloRuntimeStatistics>, batch: Batch): (r: map<SiloAddress, SiloRuntimeStatistics>)
    ensures r.Keys == BatchSilos(batch)
  {
    ChangePassShape(store, batch);
    ChangePass(store, batch).0 - Removals(store, batch)
  }

  /** Applying the same batch again changes nothing and notifies nothing. */
  lemma RepeatedBatchIsSilent(store: map<SiloAddress, SiloRuntimeStatistics>, batch: Batch)
    requires DistinctSilos(batch)
    ensures ChangePass(UpdatedStore(store, batch), batch) == (UpdatedStore(store, batch), [])
    ensures UpdatedStore(UpdatedStore(store, batch), batch) == UpdatedStore(store, batch)
  {
    var once := UpdatedStore(store, batch);
    forall i | 0 <= i < |batch|
      ensures batch[i].0 in once && AreStatisticsEqual(once[batch[i].0], batch[i].1)
    {
      ChangePassReported(store, batch, i);
    }
    RepeatSilentPrefix(once, batch, |batch|);
    assert batch[..|batch|] == batch;
  }

  /** The first loop over any prefix of a batch whose every silo is stored with equal figures
      changes nothing. */
  lemma {:induction false} RepeatSilentPrefix(store: map<SiloAddress, SiloRuntimeStatistics>, batch: Batch, n: nat)
    requires n <= |batch|
    requires forall i :: 0 <= i < |batch| ==> batch[i].0 in store && AreStatisticsEqual(store[batch[i].0], batch[i].1)
    ensures ChangePass(store, batch[..n]) == (store, [])
    decreases n
  {
    if n > 0 {
      RepeatSilentPrefix(store, batch, n - 1);
      assert batch[..n][..n - 1] == batch[..n - 1];
    }
  }

  class SiloRuntimeStatisticsCollector {
    var siloStatistics: map<SiloAddress, SiloRuntimeStatistics>
    /** What the listener has been told so far, in order. */
    var notifications: seq<Notification>

    constructor ()
      ensures siloStatistics == map[] && notifications == []
    {
      siloStatistics := map[];
      notifications := [];
    }

    /** One collection round: the reports of `newStatistics`, then the removals; `removals` are
        the removal notifications in the order they were sent. */
    method UpdateSiloStatistics(newStatistics: Batch) returns (ghost removals: seq<Notification>)
      modifies this
      ensures siloStatistics == UpdatedStore(old(siloStatistics), newStatistics)
      ensures notifications == old(notifications) + ChangePass(old(siloStatistics), newStatistics).1 + removals
      ensures RemovesEach(removals, Removals(old(siloStatistics), newStatistics))
    {
      ghost var original := siloStatistics;
      ApplyReports(newStatistics);
      var removedSilos := siloStatistics.Keys - BatchSilos(newStatistics);
      assert removedSilos == Removals(original, newStatistics);
      removals := RemoveSilos(removedSilos);
      assert siloStatistics == UpdatedStore(original, newStatistics);
    }

    /** The first loop of a round: store and announce every report that differs. */
    method ApplyReports(newStatistics: Batch)
      modifies this
      ensures siloStatistics == ChangePass(old(siloStatistics), newStatistics).0
      ensures notifications == old(notifications) + ChangePass(old(siloStatistics), newStatistics).1
    {
      for i := 0 to |newStatistics|
        invariant siloStatistics == ChangePass(old(siloStatistics), newStatistics[..i]).0
        invariant notifications == old(notifications) + ChangePass(old(siloStatistics), newStatistics[..i]).1
      {
        ChangePassSnoc(old(siloStatistics), newStatistics, i);
        var (silo, newStats) := newStatistics[i];
        if silo in siloStatistics {
          var oldStats := siloStatistics[silo];
          if !AreStatisticsEqual(oldStats, newStats) {
            siloStatistics := siloStatistics[silo := newStats];
            notifications := notifications + [SiloStatisticsChanged(silo, newStats)];
          }
        } else {
          siloStatistics := siloStatistics[silo := newStats];
          notifications := notifications + [SiloStatisticsChanged(silo, newStats)];
        }
      }
      assert newStatistics[..|newStatistics|] == newStatistics;
    }

    /** The second loop of a round: drop and announce each given silo, in an unspecified order. */
    method RemoveSilos(removedSilos: set<SiloAddress>) returns (ghost removals: seq<Notification>)
      modifies this
      ensures siloStatistics == old(siloStatistics) - removedSilos
      ensures notifications == old(notifications) + removals
      ensures RemovesEach(removals, removedSilos)
    {
      var remaining := removedSilos;
      ghost var done: set<SiloAddress> := {};
      removals := [];
      while remaining != {}
        invariant done + remaining == removedSilos && done !! remaining
        invariant siloStatistics == old(siloStatistics) - done
        invariant notifications == old(notifications) + removals
        invariant RemovesEach(removals, done)
        decreases |remaining|
      {
        var silo :| silo in remaining;
        RemovesOneMore(removals, done, silo);
        MapRemoveOneMore(old(siloStatistics), done, silo);
        assert old(notifications) + (removals + [SiloRemoved(silo)]) == notifications + [SiloRemoved(silo)];
        siloStatistics := siloStatistics - {silo};
        notifications := notifications + [SiloRemoved(silo)];
        remaining := remaining - {silo};
        done := done + {silo};
        removals := removals + [SiloRemoved(silo)];
      }
    }
  }
}
