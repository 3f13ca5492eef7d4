/**
  ceph_exporter/ceph/commands/ceph_status.py: the `status` collector. Every
  state the report lists is recorded with its count; every known state the
  report leaves out is recorded with 0; the pgmap version comes last.

  The parts shared with the older single-file copy (the per-state loop and
  the zero-fill) take the metric name as a parameter.
 */
module Status {
  import opened Wrappers
  import opened Prometheus
  import opened MetricRegistry
  import opened Ceph

  /** One entry of `pgmap.pgs_by_state`. */
  datatype PgsByState = PgsByState(stateName: string, count: int)

  /** The members of the decoded `status` report the collector reads. */
  datatype StatusReport = StatusReport(pgsByState: seq<PgsByState>, version: int)

  // ===========================================================================
  // The working copy of the state set

  /** `set.discard(x)` on a set kept as its iteration sequence. */
  function Discard(xs: seq<string>, x: string): (r: seq<string>)
    ensures forall y :: y in r <==> y in xs && y != x
    ensures Distinct(xs) ==> Distinct(r)
    ensures x !in xs ==> r == xs
  {
    if xs == [] then []
    else
      var rest := Discard(xs[..|xs| - 1], x);
      var last := xs[|xs| - 1];
      assert forall y :: y in xs <==> y in xs[..|xs| - 1] || y == last;
      assert Distinct(xs) ==> last !in xs[..|xs| - 1] by {
        if Distinct(xs) {
          assert forall k :: 0 <= k < |xs| - 1 ==> xs[k] != last;
        }
      }
      if last == x then rest else rest + [last]
  }

  /** The names the report lists, in report order. */
  function ReportedNames(reports: seq<PgsByState>): (names: seq<string>)
    ensures |names| == |reports|
    ensures forall i :: 0 <= i < |reports| ==> names[i] == reports[i].stateName
  {
    if reports == [] then [] else ReportedNames(reports[..|reports| - 1]) + [reports[|reports| - 1].stateName]
  }

  /** The working copy after every reported name has been discarded, in order. */
  function Unreported(states: seq<string>, reports: seq<PgsByState>): seq<string> {
    if reports == [] then states
    else Discard(Unreported(states, reports[..|reports| - 1]), reports[|reports| - 1].stateName)
  }

  /** What is left is exactly the known states nobody reported, still without repeats. */
  lemma {:induction false} UnreportedIs(states: seq<string>, reports: seq<PgsByState>)
    ensures forall y :: y in Unreported(states, reports) <==> y in states && y !in ReportedNames(reports)
    ensures Distinct(states) ==> Distinct(Unreported(states, reports))
  {
    if reports != [] {
      var init := reports[..|reports| - 1];
      UnreportedIs(states, init);
      assert ReportedNames(reports) == ReportedNames(init) + [reports[|reports| - 1].stateName];
    }
  }

  // ===========================================================================
  // What the collector records: specification

  /** The label pair of a per-state sample. */
  function StateLabels(fsid: string, state: string): seq<Label> {
    [FsidLabel(fsid), StrLabel("state", state)]
  }

  /** One sample per report entry carrying its count, in report order. */
  function ReportedObs(metric: string, fsid: string, reports: seq<PgsByState>): (r: seq<Observation>)
    ensures |r| == |reports|
    ensures forall i :: 0 <= i < |reports| ==>
      r[i] == Observation(metric, StateLabels(fsid, reports[i].stateName), reports[i].count)
  {
    if reports == [] then []
    else
      var p := reports[|reports| - 1];
      ReportedObs(metric, fsid, reports[..|reports| - 1]) + [Observation(metric, StateLabels(fsid, p.stateName), p.count)]
  }

  /** One 0-valued sample per state in `states`, in that order. */
  function ZeroFillObs(metric: string, fsid: string, states: seq<string>): (r: seq<Observation>)
    ensures |r| == |states|
    ensures forall i :: 0 <= i < |states| ==> r[i] == Observation(metric, StateLabels(fsid, states[i]), 0)
  {
    if states == [] then []
    else ZeroFillObs(metric, fsid, states[..|states| - 1]) + [Observation(metric, StateLabels(fsid, states[|states| - 1]), 0)]
  }

  function VersionObs(fsid: string, rep: StatusReport): Observation {
    Observation("ceph_pgmap_version", [FsidLabel(fsid)], rep.version)
  }

  /** The per-state samples: the report's entries, then a 0 for each known state left unreported. */
  function PerStateObs(metric: string, fsid: string, states: seq<string>, reports: seq<PgsByState>): seq<Observation> {
    ReportedObs(metric, fsid, reports) + ZeroFillObs(metric, fsid, Unreported(states, reports))
  }

  /** Everything one run of `CephStatus.processData` records, in order. */
  function StatusObservations(fsid: string, states: seq<string>, rep: StatusReport): seq<Observation> {
    PerStateObs("ceph_pg_states", fsid, states, rep.pgsByState) + [VersionObs(fsid, rep)]
  }

  // ===========================================================================
  // The collector's loops

  /** The per-state loop: records each entry and discards its name from the working copy. */
  method CollectReported(metric: string, fsid: string, states: seq<string>, reports: seq<PgsByState>)
    returns (obs: seq<Observation>, remaining: seq<string>)
    ensures obs == ReportedObs(metric, fsid, reports)
    ensures remaining == Unreported(states, reports)
  {
    remaining := states;
    obs := [];
    for i := 0 to |reports|
      invariant remaining == Unreported(states, reports[..i])
      invariant obs == ReportedObs(metric, fsid, reports[..i])
    {
      assert reports[..i + 1][..i] == reports[..i];
      var name := reports[i].stateName;
      remaining := Discard(remaining, name);
      obs := obs + [Observation(metric, StateLabels(fsid, name), reports[i].count)];
    }
    assert reports[..|reports|] == reports;
  }

  /** The zero-fill loop over what is left of the working copy. */
  method CollectZeroFill(metric: string, fsid: string, remaining: seq<string>) returns (obs: seq<Observation>)
    ensures obs == ZeroFillObs(metric, fsid, remaining)
  {
    obs := [];
    for i := 0 to |remaining|
      invariant obs == ZeroFillObs(metric, fsid, remaining[..i])
    {
      assert remaining[..i + 1][..i] == remaining[..i];
      obs := obs + [Observation(metric, StateLabels(fsid, remaining[i]), 0)];
    }
    assert remaining[..|remaining|] == remaining;
  }

  /**
    `CephStatus.processData` without the recording. The known states are
    passed by value, so the collector's own copy is the only one it changes.
   */
  method CollectStatus(fsid: string, states: seq<string>, rep: StatusReport) returns (obs: seq<Observation>)
    ensures obs == StatusObservations(fsid, states, rep)
  {
    var reported, remaining := CollectReported("ceph_pg_states", fsid, states, rep.pgsByState);
    var zeros := CollectZeroFill("ceph_pg_states", fsid, remaining);
    obs := (reported + zeros) + [VersionObs(fsid, rep)];
  }

  /** `CephStatus.processData`: one run's samples are recorded, all stamped `ts`. */
  method ProcessData(reg: Registry, fsid: string, rep: StatusReport, ts: int)
    requires reg.Valid()
    modifies reg.metrics.Values
    ensures reg.metrics == old(reg.metrics) && reg.Valid()
    ensures reg.Snapshot() == PushAll(old(reg.Snapshot()), StatusObservations(fsid, KnownStates, rep), ts)
  {
    var obs := CollectStatus(fsid, KnownStates, rep);
    reg.RecordAll(obs, ts);
  }

  // ===========================================================================
  // Properties of what is recorded

  /** The values of the samples of `metric` that carry exactly `labels`, in order. */
  function ValuesLabelled(obs: seq<Observation>, metric: string, labels: seq<Label>): seq<int> {
    if obs == [] then []
    else
      var o := obs[|obs| - 1];
      ValuesLabelled(obs[..|obs| - 1], metric, labels) + (if o.metric == metric && o.labels == labels then [o.value] else [])
  }

  lemma {:induction false} ValuesLabelledAppend(a: seq<Observation>, b: seq<Observation>, metric: string, labels: seq<Label>)
    ensures ValuesLabelled(a + b, metric, labels) == ValuesLabelled(a, metric, labels) + ValuesLabelled(b, metric, labels)
    decreases |b|
  {
    if b == [] {
      assert a + b == a;
    } else {
      assert (a + b)[..|a + b| - 1] == a + b[..|b| - 1];
      ValuesLabelledAppend(a, b[..|b| - 1], metric, labels);
    }
  }

  lemma ValuesLabelledSingle(o: Observation, metric: string, labels: seq<Label>)
    ensures ValuesLabelled([o], metric, labels) == if o.metric == metric && o.labels == labels then [o.value] else []
  {
    assert [o][..0] == [];
  }

  /** The counts the report gives for `state`, in report order. */
  function ReportedCounts(reports: seq<PgsByState>, state: string): (r: seq<int>)
    ensures r == [] <==> state !in ReportedNames(reports)
  {
    if reports == [] then []
    else
      var p := reports[|reports| - 1];
      assert ReportedNames(reports) == ReportedNames(reports[..|reports| - 1]) + [p.stateName];
      ReportedCounts(reports[..|reports| - 1], state) + (if p.stateName == state then [p.count] else [])
  }

  lemma StateLabelsInjective(fsid: string, a: string, b: string)
    ensures StateLabels(fsid, a) == StateLabels(fsid, b) <==> a == b
  {
    if StateLabels(fsid, a) == StateLabels(fsid, b) {
      assert StateLabels(fsid, a)[1] == StateLabels(fsid, b)[1];
    }
  }

  lemma {:induction false} ReportedValues(metric: string, fsid: string, reports: seq<PgsByState>, state: string)
    ensures ValuesLabelled(ReportedObs(metric, fsid, reports), metric, StateLabels(fsid, state)) == ReportedCounts(reports, state)
  {
    if reports != [] {
      var init := reports[..|reports| - 1];
      ReportedValues(metric, fsid, init, state);
      StateLabelsInjective(fsid, reports[|reports| - 1].stateName, state);
      var r := ReportedObs(metric, fsid, reports);
      assert r[..|r| - 1] == ReportedObs(metric, fsid, init);
    }
  }

  lemma {:induction false} ZeroFillValues(metric: string, fsid: string, xs: seq<string>, state: string)
    requires Distinct(xs)
    ensures ValuesLabelled(ZeroFillObs(metric, fsid, xs), metric, StateLabels(fsid, state)) == if state in xs then [0] else []
  {
    if xs != [] {
      var init, last := xs[..|xs| - 1], xs[|xs| - 1];
      var labels := StateLabels(fsid, state);
      var zero := Observation(metric, StateLabels(fsid, last), 0);
      DistinctSnoc(xs);
      ZeroFillValues(metric, fsid, init, state);
      ZeroFillSnoc(metric, fsid, xs);
      ValuesLabelledAppend(ZeroFillObs(metric, fsid, init), [zero], metric, labels);
      ValuesLabelledSingle(zero, metric, labels);
      StateLabelsInjective(fsid, last, state);
    }
  }

  /** Without its last element a distinct list stays distinct and no longer holds that element. */
  lemma DistinctSnoc(xs: seq<string>)
    requires Distinct(xs) && xs != []
    ensures Distinct(xs[..|xs| - 1]) && xs[|xs| - 1] !in xs[..|xs| - 1]
    ensures xs == xs[..|xs| - 1] + [xs[|xs| - 1]]
  {
    var init := xs[..|xs| - 1];
    forall i, j | 0 <= i < j < |init| ensures init[i] != init[j] {
      assert init[i] == xs[i] && init[j] == xs[j];
    }
    forall k | 0 <= k < |init| ensures init[k] != xs[|xs| - 1] {
      assert init[k] == xs[k];
    }
  }

  lemma ZeroFillSnoc(metric: string, fsid: string, xs: seq<string>)
    requires xs != []
    ensures ZeroFillObs(metric, fsid, xs)
      == ZeroFillObs(metric, fsid, xs[..|xs| - 1]) + [Observation(metric, StateLabels(fsid, xs[|xs| - 1]), 0)]
  {
  }


  /**
    The per-state section: a state gets the reported counts, in report
    order, followed by one 0 when it is known and was not reported; nothing
    else carries its label.
   */
  lemma PerStateValues(metric: string, fsid: string, states: seq<string>, reports: seq<PgsByState>, state: string)
    requires Distinct(states)
    ensures ValuesLabelled(PerStateObs(metric, fsid, states, reports), metric, StateLabels(fsid, state))
      == ReportedCounts(reports, state) + (if state in states && state !in ReportedNames(reports) then [0] else [])
  {
    var left := Unreported(states, reports);
    UnreportedIs(states, reports);
    ReportedValues(metric, fsid, reports, state);
    ZeroFillValues(metric, fsid, left, state);
    ValuesLabelledAppend(ReportedObs(metric, fsid, reports), ZeroFillObs(metric, fsid, left), metric, StateLabels(fsid, state));
  }

  /** The per-state samples of a run; the closing version sample carries no state label. */
  lemma StatusStateValues(fsid: string, states: seq<string>, rep: StatusReport, state: string)
    requires Distinct(states)
    ensures ValuesLabelled(StatusObservations(fsid, states, rep), "ceph_pg_states", StateLabels(fsid, state))
      == ReportedCounts(rep.pgsByState, state)
         + (if state in states && state !in ReportedNames(rep.pgsByState) then [0] else [])
  {
    var labels := StateLabels(fsid, state);
    var section := PerStateObs("ceph_pg_states", fsid, states, rep.pgsByState);
    PerStateValues("ceph_pg_states", fsid, states, rep.pgsByState, state);
    ValuesLabelledAppend(section, [VersionObs(fsid, rep)], "ceph_pg_states", labels);
    ValuesLabelledSingle(VersionObs(fsid, rep), "ceph_pg_states", labels);
  }

  /**
    A known state the report leaves out gets exactly one sample, valued 0; a
    state gets any sample at all exactly when it is known or reported.
   */
  lemma StatusZeroFill(fsid: string, states: seq<string>, rep: StatusReport, state: string)
    requires Distinct(states)
    ensures state in states && state !in ReportedNames(rep.pgsByState) ==>
      ValuesLabelled(StatusObservations(fsid, states, rep), "ceph_pg_states", StateLabels(fsid, state)) == [0]
    ensures ValuesLabelled(StatusObservations(fsid, states, rep), "ceph_pg_states", StateLabels(fsid, state)) != []
      <==> state in states || state in ReportedNames(rep.pgsByState)
  {
    StatusStateValues(fsid, states, rep, state);
  }

  /**
    Over the known states a run uses, each one the report leaves out gets
    exactly one sample, valued 0.
   */
  lemma KnownStatesZeroFill(fsid: string, rep: StatusReport, state: string)
    requires state in KnownStates && state !in ReportedNames(rep.pgsByState)
    ensures ValuesLabelled(StatusObservations(fsid, KnownStates, rep), "ceph_pg_states", StateLabels(fsid, state)) == [0]
  {
    KnownStatesDistinct();
    StatusZeroFill(fsid, KnownStates, rep, state);
  }

  /**
    The run opens with the reported entries in report order and closes with
    the single pgmap version sample; everything before it is a per-state
    sample.
   */
  lemma StatusLayout(fsid: string, states: seq<string>, rep: StatusReport)
    ensures var r := StatusObservations(fsid, states, rep);
      && |rep.pgsByState| < |r|
      && (forall i :: 0 <= i < |rep.pgsByState| ==>
            r[i] == Observation("ceph_pg_states", StateLabels(fsid, rep.pgsByState[i].stateName), rep.pgsByState[i].count))
      && r[|r| - 1] == Observation("ceph_pgmap_version", [FsidLabel(fsid)], rep.version)
      && (forall i :: 0 <= i < |r| - 1 ==> r[i].metric == "ceph_pg_states")
  {
  }
}
