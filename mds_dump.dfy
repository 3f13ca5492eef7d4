/**
  ceph_exporter/ceph/commands/ceph_mds_dump.py: the `mds dump` collector.
  A run records the map's epoch, then for each MDS daemon a one-hot
  encoding of its state over `up:active`, `up:replay`, `up:rejoin` (plus
  its own state when that is none of them) and the time it has been laggy
  since, in whole seconds.

  The `laggy_since` branch of the source calls `arrow` and `tzlocal`, which
  the module never imports: the first daemon that carries the key raises
  `NameError` after its state samples. `MdsDumpObservationsAsWritten`
  models that; the rest of the model uses the evidently intended
  `MdsDumpObservations`.
 */
module MdsDump {
  import opened Wrappers
  import opened Text
  import opened Prometheus
  import opened MetricRegistry
  import opened Ceph

  /**
    One value of the `info` object. `laggySince` is the daemon's
    `laggy_since` time already read as whole seconds since the epoch, or
    `None` when the key is absent.
   */
  datatype MdsInfo = MdsInfo(gid: int, rank: int, name: string, state: string, laggySince: Option<int>)

  /** The decoded document; `info` lists the values of `info` in dictionary order. */
  datatype MdsDumpReport = MdsDumpReport(epoch: int, info: seq<MdsInfo>)

  /** The states the collector always reports, 0 or 1. */
  const MdsStates: seq<string> := ["up:active", "up:replay", "up:rejoin"]

  // ===========================================================================
  // What the collector records: specification

  function EpochObs(fsid: string, epoch: int): Observation {
    Observation("ceph_epoch", [FsidLabel(fsid), StrLabel("type", "mds")], epoch)
  }

  function MdsLabels(fsid: string, m: MdsInfo): seq<Label> {
    [FsidLabel(fsid), StrLabel("gid", Decimal(m.gid)), StrLabel("rank", Decimal(m.rank)), StrLabel("name", m.name)]
  }

  /**
    The laggy-since sample: the daemon's own time when it has one, otherwise
    the run's timestamp (milliseconds) in whole seconds.
   */
  function LaggyObs(fsid: string, m: MdsInfo, ts: int): Observation {
    Observation("ceph_mds_laggy_since", MdsLabels(fsid, m), if m.laggySince.Some? then m.laggySince.value else ts / 1000)
  }

  /** Everything recorded for one daemon. */
  function MdsObs(fsid: string, m: MdsInfo, ts: int): seq<Observation> {
    OneHotObs("ceph_mds_state", MdsLabels(fsid, m), MdsStates, m.state) + [LaggyObs(fsid, m, ts)]
  }

  function MdssObs(fsid: string, infos: seq<MdsInfo>, ts: int): seq<Observation> {
    if infos == [] then []
    else MdssObs(fsid, infos[..|infos| - 1], ts) + MdsObs(fsid, infos[|infos| - 1], ts)
  }

  /** Everything one run of `CephMdsDump.processData` records, in order (as intended). */
  function MdsDumpObservations(fsid: string, d: MdsDumpReport, ts: int): seq<Observation> {
    [EpochObs(fsid, d.epoch)] + MdssObs(fsid, d.info, ts)
  }

  // ===========================================================================
  // The code as written: the laggy branch raises NameError

  /**
    The daemons' samples as the loop records them, and whether it stopped
    with `NameError`: a daemon with `laggy_since` gets its state samples and
    then the loop ends.
   */
  function MdssObsAsWritten(fsid: string, infos: seq<MdsInfo>, ts: int): (seq<Observation>, bool) {
    if infos == [] then ([], false)
    else
      var (init, raised) := MdssObsAsWritten(fsid, infos[..|infos| - 1], ts);
      var m := infos[|infos| - 1];
      if raised then (init, true)
      else if m.laggySince.Some? then (init + OneHotObs("ceph_mds_state", MdsLabels(fsid, m), MdsStates, m.state), true)
      else (init + MdsObs(fsid, m, ts), false)
  }

  function MdsDumpObservationsAsWritten(fsid: string, d: MdsDumpReport, ts: int): (seq<Observation>, bool) {
    var (obs, raised) := MdssObsAsWritten(fsid, d.info, ts);
    ([EpochObs(fsid, d.epoch)] + obs, raised)
  }

  predicate NoneLaggy(infos: seq<MdsInfo>) {
    forall i :: 0 <= i < |infos| ==> infos[i].laggySince.None?
  }

  /** Without any `laggy_since`, the code as written records what is intended and does not raise. */
  lemma {:induction false} AsWrittenAgrees(fsid: string, infos: seq<MdsInfo>, ts: int)
    requires NoneLaggy(infos)
    ensures MdssObsAsWritten(fsid, infos, ts) == (MdssObs(fsid, infos, ts), false)
  {
    if infos != [] {
      AsWrittenAgrees(fsid, infos[..|infos| - 1], ts);
    }
  }

  /**
    When daemon `k` is the first with `laggy_since`, the code as written
    raises, having recorded the samples of the daemons before it and the
    state samples of daemon `k`, but not its laggy sample nor anything for
    the daemons after it.
   */
  lemma {:induction false} LaggyStopsRun(fsid: string, infos: seq<MdsInfo>, ts: int, k: nat)
    requires k < |infos| && infos[k].laggySince.Some? && NoneLaggy(infos[..k])
    ensures MdssObsAsWritten(fsid, infos, ts)
         == (MdssObs(fsid, infos[..k], ts)
               + OneHotObs("ceph_mds_state", MdsLabels(fsid, infos[k]), MdsStates, infos[k].state), true)
  {
    var n := |infos|;
    if n == k + 1 {
      assert infos[..n - 1] == infos[..k];
      AsWrittenAgrees(fsid, infos[..k], ts);
    } else {
      assert infos[..n - 1][..k] == infos[..k];
      LaggyStopsRun(fsid, infos[..n - 1], ts, k);
    }
  }

  /**
    The discrepancy on a concrete document: one daemon `a` (gid 1, rank 0,
    `up:active`) laggy since second 7. The intended run records five
    samples, the last its laggy time; the code as written records four and
    raises.
   */
  lemma LaggyDaemonLosesSample(fsid: string, ts: int)
    ensures var d := MdsDumpReport(3, [MdsInfo(1, 0, "a", "up:active", Some(7))]);
      && var intended := MdsDumpObservations(fsid, d, ts);
      && var (written, raised) := MdsDumpObservationsAsWritten(fsid, d, ts);
      && |intended| == 5 && intended[4].metric == "ceph_mds_laggy_since" && intended[4].value == 7
      && |written| == 4 && raised
      && forall i :: 0 <= i < |written| ==> written[i].metric != "ceph_mds_laggy_since"
  {
    var m := MdsInfo(1, 0, "a", "up:active", Some(7));
    var d := MdsDumpReport(3, [m]);
    assert d.info[..0] == [];
    LaggyStopsRun(fsid, d.info, ts, 0);
    OneHotExactlyOne("ceph_mds_state", MdsLabels(fsid, m), MdsStates, m.state);
    assert d.info == [] + [m];
  }

  // ===========================================================================
  // The collector's loop (as intended)

  method CollectMdss(fsid: string, infos: seq<MdsInfo>, ts: int) returns (obs: seq<Observation>)
    ensures obs == MdssObs(fsid, infos, ts)
  {
    obs := [];
    for i := 0 to |infos|
      invariant obs == MdssObs(fsid, infos[..i], ts)
    {
      assert infos[..i + 1][..i] == infos[..i];
      var info := infos[i];
      var labels := MdsLabels(fsid, info);
      var states := CollectOneHot("ceph_mds_state", labels, MdsStates, info.state);
      var laggy := if info.laggySince.Some? then info.laggySince.value else ts / 1000;
      obs := obs + states + [Observation("ceph_mds_laggy_since", labels, laggy)];
    }
    assert infos[..|infos|] == infos;
  }

  method CollectMdsDump(fsid: string, d: MdsDumpReport, ts: int) returns (obs: seq<Observation>)
    ensures obs == MdsDumpObservations(fsid, d, ts)
  {
    var mdss := CollectMdss(fsid, d.info, ts);
    obs := [EpochObs(fsid, d.epoch)] + mdss;
  }

  /** `CephMdsDump.processData` as intended: one run's samples are recorded, all stamped `ts`. */
  method ProcessData(reg: Registry, fsid: string, d: MdsDumpReport, ts: int)
    requires reg.Valid()
    modifies reg.metrics.Values
    ensures reg.metrics == old(reg.metrics) && reg.Valid()
    ensures reg.Snapshot() == PushAll(old(reg.Snapshot()), MdsDumpObservations(fsid, d, ts), ts)
  {
    var obs := CollectMdsDump(fsid, d, ts);
    reg.RecordAll(obs, ts);
  }

  // ===========================================================================
  // Properties of what is recorded

  /** Samples of `metric` carrying value `v`. */
  function CountOn(obs: seq<Observation>, metric: string, v: int): nat {
    if obs == [] then 0
    else
      var last := obs[|obs| - 1];
      CountOn(obs[..|obs| - 1], metric, v) + (if last.metric == metric && last.value == v then 1 else 0)
  }

  /** Samples of `metric`. */
  function CountMetric(obs: seq<Observation>, metric: string): nat {
    if obs == [] then 0
    else CountMetric(obs[..|obs| - 1], metric) + (if obs[|obs| - 1].metric == metric then 1 else 0)
  }

  lemma {:induction false} CountsAppend(a: seq<Observation>, b: seq<Observation>, metric: string, v: int)
    ensures CountOn(a + b, metric, v) == CountOn(a, metric, v) + CountOn(b, metric, v)
    ensures CountMetric(a + b, metric) == CountMetric(a, metric) + CountMetric(b, metric)
    decreases |b|
  {
    if b == [] {
      assert a + b == a;
    } else {
      assert (a + b)[..|a + b| - 1] == a + b[..|b| - 1];
      CountsAppend(a, b[..|b| - 1], metric, v);
    }
  }

  /** Over samples all of one metric, the per-metric counts are the plain ones. */
  lemma {:induction false} CountsOfOneMetric(obs: seq<Observation>, metric: string, v: int)
    requires forall i :: 0 <= i < |obs| ==> obs[i].metric == metric
    ensures CountOn(obs, metric, v) == CountValue(obs, v)
    ensures CountMetric(obs, metric) == |obs|
  {
    if obs != [] {
      CountsOfOneMetric(obs[..|obs| - 1], metric, v);
    }
  }

  /**
    One daemon's block: its state samples come first, exactly one of them
    is 1 and it is labelled with the daemon's own state; there are three
    when that state is one of the always-reported ones and four otherwise;
    the block ends with the single laggy sample, whose value is the laggy
    time when present and the run's time in seconds otherwise.
   */
  lemma MdsBlock(fsid: string, m: MdsInfo, ts: int)
    ensures var r := MdsObs(fsid, m, ts);
      && var n := if m.state in MdsStates then 3 else 4;
      && |r| == n + 1
      && CountMetric(r, "ceph_mds_state") == n
      && CountOn(r, "ceph_mds_state", 1) == 1
      && CountMetric(r, "ceph_mds_laggy_since") == 1
      && (forall i :: 0 <= i < n && r[i].value == 1 ==>
            r[i].labels == MdsLabels(fsid, m) + [StrLabel("state", m.state)])
      && r[n].metric == "ceph_mds_laggy_since" && r[n].labels == MdsLabels(fsid, m)
      && r[n].value == (if m.laggySince.Some? then m.laggySince.value else ts / 1000)
  {
    var states := OneHotObs("ceph_mds_state", MdsLabels(fsid, m), MdsStates, m.state);
    var laggy := [LaggyObs(fsid, m, ts)];
    OneHotExactlyOne("ceph_mds_state", MdsLabels(fsid, m), MdsStates, m.state);
    CountsOfOneMetric(states, "ceph_mds_state", 1);
    CountsAppend(states, laggy, "ceph_mds_state", 1);
    CountsAppend(states, laggy, "ceph_mds_laggy_since", 1);
    assert CountMetric(laggy, "ceph_mds_laggy_since") == CountMetric(laggy[..0], "ceph_mds_laggy_since") + 1;
    assert CountMetric(laggy, "ceph_mds_state") == CountMetric(laggy[..0], "ceph_mds_state");
    assert CountOn(laggy, "ceph_mds_state", 1) == CountOn(laggy[..0], "ceph_mds_state", 1);
    assert forall i :: 0 <= i < |states| ==> states[i].metric != "ceph_mds_laggy_since";
    assert CountMetric(states, "ceph_mds_laggy_since") == 0 by {
      NoLaggyIn(states);
    }
  }

  lemma {:induction false} NoLaggyIn(obs: seq<Observation>)
    requires forall i :: 0 <= i < |obs| ==> obs[i].metric != "ceph_mds_laggy_since"
    ensures CountMetric(obs, "ceph_mds_laggy_since") == 0
  {
    if obs != [] {
      NoLaggyIn(obs[..|obs| - 1]);
    }
  }

  /**
    A run records the epoch first, then for every daemon exactly one state
    sample of value 1 and exactly one laggy sample.
   */
  lemma MdsDumpCounts(fsid: string, d: MdsDumpReport, ts: int)
    ensures var r := MdsDumpObservations(fsid, d, ts);
      && r[0] == EpochObs(fsid, d.epoch)
      && CountOn(r, "ceph_mds_state", 1) == |d.info|
      && CountMetric(r, "ceph_mds_laggy_since") == |d.info|
  {
    var e := [EpochObs(fsid, d.epoch)];
    MdssCounts(fsid, d.info, ts);
    CountsAppend(e, MdssObs(fsid, d.info, ts), "ceph_mds_state", 1);
    CountsAppend(e, MdssObs(fsid, d.info, ts), "ceph_mds_laggy_since", 1);
    assert CountOn(e, "ceph_mds_state", 1) == CountOn(e[..0], "ceph_mds_state", 1);
    assert CountMetric(e, "ceph_mds_laggy_since") == CountMetric(e[..0], "ceph_mds_laggy_since");
  }

  lemma {:induction false} MdssCounts(fsid: string, infos: seq<MdsInfo>, ts: int)
    ensures CountOn(MdssObs(fsid, infos, ts), "ceph_mds_state", 1) == |infos|
    ensures CountMetric(MdssObs(fsid, infos, ts), "ceph_mds_laggy_since") == |infos|
  {
    if infos != [] {
      var init := infos[..|infos| - 1];
      var m := infos[|infos| - 1];
      MdssCounts(fsid, init, ts);
      MdsBlock(fsid, m, ts);
      CountsAppend(MdssObs(fsid, init, ts), MdsObs(fsid, m, ts), "ceph_mds_state", 1);
      CountsAppend(MdssObs(fsid, init, ts), MdsObs(fsid, m, ts), "ceph_mds_laggy_since", 1);
    }
  }
}
