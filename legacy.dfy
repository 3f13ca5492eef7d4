/**
  ceph_exporter.py: the older single-file exporter. Its formatting and
  rendering are the package's (modules `Prometheus`, `MetricRegistry`,
  `Server`); what differs is that its `Sample` constructor indexes the
  registry without a membership check (`Registry.RecordStrict`), and its
  `status` collector, which records the `ceph` presence sample itself, uses
  a sixteen-state list, the metric `ceph_pgs_by_state`, and a `remove`
  guarded by membership instead of `discard`.
 */
module Legacy {
  import opened Wrappers
  import opened Prometheus
  import opened MetricRegistry
  import opened Ceph
  import opened Status

  /** The states the older `CephStatus` zero-fills, in listing order. */
  const LegacyStates: seq<string> := [
    "activating",
    "activating+degraded",
    "active+clean",
    "active+clean+scrubbing",
    "active+clean+scrubbing+deep",
    "active+degraded",
    "active+recovering+degraded",
    "active+recovery_wait+degraded",
    "active+undersized+degraded",
    "active+undersized+degraded+remapped",
    "active+undersized+degraded+remapped+backfilling",
    "active+undersized+degraded+remapped+wait_backfill",
    "peering",
    "remapped",
    "remapped+peering",
    "stale+active+clean"
  ]

  // ===========================================================================
  // What the collector records: specification

  function PresenceObs(fsid: string): Observation {
    Observation("ceph", [FsidLabel(fsid)], 1)
  }

  /** Everything one run of the older `CephStatus.processData` records, in order. */
  function LegacyStatusObservations(fsid: string, states: seq<string>, rep: StatusReport): seq<Observation> {
    [PresenceObs(fsid)] + PerStateObs("ceph_pgs_by_state", fsid, states, rep.pgsByState) + [VersionObs(fsid, rep)]
  }

  // ===========================================================================
  // The collector's loops

  /**
    The per-state loop with `remove` guarded by membership: the working copy
    evolves exactly as with `discard`, so a state reported twice is simply
    recorded twice.
   */
  method CollectReportedGuarded(fsid: string, states: seq<string>, reports: seq<PgsByState>)
    returns (obs: seq<Observation>, remaining: seq<string>)
    ensures obs == ReportedObs("ceph_pgs_by_state", fsid, reports)
    ensures remaining == Unreported(states, reports)
  {
    remaining := states;
    obs := [];
    for i := 0 to |reports|
      invariant remaining == Unreported(states, reports[..i])
      invariant obs == ReportedObs("ceph_pgs_by_state", fsid, reports[..i])
    {
      assert reports[..i + 1][..i] == reports[..i];
      var name := reports[i].stateName;
      if name in remaining {
        remaining := Discard(remaining, name);
      }
      obs := obs + [Observation("ceph_pgs_by_state", StateLabels(fsid, name), reports[i].count)];
    }
    assert reports[..|reports|] == reports;
  }

  method CollectLegacyStatus(fsid: string, states: seq<string>, rep: StatusReport) returns (obs: seq<Observation>)
    ensures obs == LegacyStatusObservations(fsid, states, rep)
  {
    var reported, remaining := CollectReportedGuarded(fsid, states, rep.pgsByState);
    var zeros := CollectZeroFill("ceph_pgs_by_state", fsid, remaining);
    obs := [PresenceObs(fsid)] + (reported + zeros) + [VersionObs(fsid, rep)];
  }

  /**
    The older `CephStatus.processData` over the unguarded registry: the run
    records its samples in order until one names an undeclared metric, where
    `KeyError` ends it. With `ceph`, `ceph_pgs_by_state` and
    `ceph_pgmap_version` declared, as the module declares them, it never
    stops early.
   */
  method ProcessData(reg: Registry, fsid: string, rep: StatusReport, ts: int) returns (stopped: Option<nat>)
    requires reg.Valid()
    modifies reg.metrics.Values
    ensures reg.metrics == old(reg.metrics) && reg.Valid()
    ensures var obs := LegacyStatusObservations(fsid, LegacyStates, rep);
      && (stopped.None? ==> reg.Snapshot() == PushAll(old(reg.Snapshot()), obs, ts))
      && (stopped.Some? ==> stopped.value < |obs| && reg.Snapshot() == PushAll(old(reg.Snapshot()), obs[..stopped.value], ts))
    ensures "ceph" in reg.metrics && "ceph_pgs_by_state" in reg.metrics && "ceph_pgmap_version" in reg.metrics
      ==> stopped.None?
  {
    ghost var before := reg.Snapshot();
    var obs := CollectLegacyStatus(fsid, LegacyStates, rep);
    assert reg.Snapshot() == before;
    LegacyMetrics(fsid, LegacyStates, rep);
    stopped := reg.RecordAllStrict(obs, ts);
    assert obs[..|obs|] == obs;
  }

  // ===========================================================================
  // Properties of what is recorded

  /** Only three metric names ever occur, so declaring them rules out `KeyError`. */
  lemma LegacyMetrics(fsid: string, states: seq<string>, rep: StatusReport)
    ensures var r := LegacyStatusObservations(fsid, states, rep);
      && r[0] == PresenceObs(fsid)
      && r[|r| - 1] == VersionObs(fsid, rep)
      && forall i :: 0 <= i < |r| ==>
           r[i].metric == "ceph" || r[i].metric == "ceph_pgs_by_state" || r[i].metric == "ceph_pgmap_version"
  {
  }

  /**
    The per-state samples of a run: a state gets its reported counts in
    report order (all of them, when reported more than once), then a single
    0 when it is one of the listed states and was not reported.
   */
  lemma LegacyStateValues(fsid: string, states: seq<string>, rep: StatusReport, state: string)
    requires Distinct(states)
    ensures ValuesLabelled(LegacyStatusObservations(fsid, states, rep), "ceph_pgs_by_state", StateLabels(fsid, state))
      == ReportedCounts(rep.pgsByState, state)
         + (if state in states && state !in ReportedNames(rep.pgsByState) then [0] else [])
  {
    var metric := "ceph_pgs_by_state";
    var labels := StateLabels(fsid, state);
    var section := PerStateObs(metric, fsid, states, rep.pgsByState);
    PerStateValues(metric, fsid, states, rep.pgsByState, state);
    ValuesLabelledAppend([PresenceObs(fsid)], section, metric, labels);
    ValuesLabelledAppend([PresenceObs(fsid)] + section, [VersionObs(fsid, rep)], metric, labels);
    ValuesLabelledSingle(PresenceObs(fsid), metric, labels);
    ValuesLabelledSingle(VersionObs(fsid, rep), metric, labels);
  }

  /**
    Each listed state left out of the report gets exactly one sample, valued
    0, whatever else the report repeats.
   */
  lemma LegacyZeroFillOnce(fsid: string, rep: StatusReport, state: string)
    requires state in LegacyStates && state !in ReportedNames(rep.pgsByState)
    ensures ValuesLabelled(LegacyStatusObservations(fsid, LegacyStates, rep), "ceph_pgs_by_state", StateLabels(fsid, state)) == [0]
  {
    LegacyStatesDistinct();
    LegacyStateValues(fsid, LegacyStates, rep, state);
  }

  lemma LegacyStatesDistinct()
    ensures Distinct(LegacyStates)
  {
  }
}
