/**
  ceph_exporter/ceph/commands/ceph_pg_dump.py: the placement-group id parser
  and the `pg dump` collector, which turns one decoded report into the
  cluster-wide object and I/O counters, per-OSD storage and trim figures, and
  per-placement-group counters, event times and a one-hot state.

  JSON objects whose members the collector looks up by a key taken from a
  fixed list are maps from key to number; the others are records.
 */
module PgDump {
  import opened Wrappers
  import opened Text
  import opened Prometheus
  import opened MetricRegistry
  import opened Ceph

  // ===========================================================================
  // pgid_to_pool

  /** A character of the class `[a-f0-9]` matched case-insensitively. */
  predicate IsHexDigit(c: char) {
    '0' <= c <= '9' || 'a' <= c <= 'f' || 'A' <= c <= 'F'
  }

  predicate AllHex(s: string) {
    forall i :: 0 <= i < |s| ==> IsHexDigit(s[i])
  }

  /** Position of the first `.` in `s`. */
  function FirstDot(s: string): (r: Option<nat>)
    ensures r.Some? ==> r.value < |s| && s[r.value] == '.' && '.' !in s[..r.value]
    ensures r.None? ==> '.' !in s
  {
    if s == [] then None
    else if s[0] == '.' then Some(0)
    else match FirstDot(s[1..])
      case Some(i) => assert s[..i + 1] == [s[0]] + s[1..][..i]; Some(i + 1)
      case None => None
  }

  /**
    `pgid_to_pool`: the pool part of a placement-group id `<hex>.<hex>`, or
    `None` when the text does not have that shape.
   */
  function PgidToPool(pgid: string): Option<string> {
    match FirstDot(pgid)
    case None => None
    case Some(i) =>
      if 0 < i && i + 1 < |pgid| && AllHex(pgid[..i]) && AllHex(pgid[i + 1..]) then Some(pgid[..i])
      else None
  }

  /** The whole-string shape the regular expression `\A([a-f0-9]+)\.([a-f0-9]+)\Z` accepts. */
  predicate PgidSplits(pgid: string, pool: string, pg: string) {
    pgid == pool + "." + pg && |pool| > 0 && |pg| > 0 && AllHex(pool) && AllHex(pg)
  }

  /**
    The parser returns `pool` exactly when the id is `pool`, a dot, and a
    second group, both non-empty hexadecimal in either case.
   */
  lemma PgidToPoolMatches(pgid: string, pool: string)
    ensures PgidToPool(pgid) == Some(pool) <==> exists pg :: PgidSplits(pgid, pool, pg)
  {
    if PgidToPool(pgid) == Some(pool) {
      var i := FirstDot(pgid).value;
      var pg := pgid[i + 1..];
      assert pgid == pool + "." + pg;
      assert PgidSplits(pgid, pool, pg);
    }
    if pg :| PgidSplits(pgid, pool, pg) {
      assert pgid[..|pool|] == pool && pgid[|pool| + 1..] == pg;
      FirstDotAt(pgid, |pool|);
    }
  }

  /** The first dot is found where it is. */
  lemma {:induction false} FirstDotAt(s: string, i: nat)
    requires i < |s| && s[i] == '.' && '.' !in s[..i]
    ensures FirstDot(s) == Some(i)
  {
    if i > 0 {
      assert s[0] == s[..i][0];
      assert s[1..][..i - 1] == s[..i][1..];
      FirstDotAt(s[1..], i - 1);
    }
  }

  /**
    A pool id, when there is one, is a non-empty proper prefix of the
    placement-group id, followed there by a dot, and contains no dot.
   */
  lemma PgidToPoolPrefix(pgid: string)
    ensures PgidToPool(pgid).Some? ==>
      var pool := PgidToPool(pgid).value;
      && 0 < |pool| < |pgid| - 1
      && pgid[..|pool|] == pool
      && pgid[|pool|] == '.'
      && '.' !in pool
  {
  }

  /** Well-formed ids name their pool. */
  lemma PgidExamples()
    ensures PgidToPool("8.4c") == Some("8")
    ensures PgidToPool("1F.A0") == Some("1F")
  {
    assert FirstDot("8.4c") == Some(1) by {
      assert "8.4c"[1..] == ".4c";
    }
    assert "8.4c"[..1] == "8" && "8.4c"[2..] == "4c";
    assert FirstDot("1F.A0") == Some(2) by {
      assert "1F.A0"[1..] == "F.A0" && "F.A0"[1..] == ".A0";
    }
    assert "1F.A0"[..2] == "1F" && "1F.A0"[3..] == "A0";
  }

  /** A second dot, an empty part after the dot or a non-hex pool makes the pool missing. */
  lemma MalformedPgidExamples()
    ensures PgidToPool("8.4c.1") == None
    ensures PgidToPool("8.") == None
    ensures PgidToPool("x.1") == None
  {
    assert FirstDot("8.4c.1") == Some(1) by {
      assert "8.4c.1"[1..] == ".4c.1";
    }
    assert "8.4c.1"[2..][2] == '.';
    assert FirstDot("8.") == Some(1) by {
      assert "8."[1..] == ".";
    }
    assert FirstDot("x.1") == Some(1) by {
      assert "x.1"[1..] == ".1";
    }
    assert "x.1"[..1][0] == 'x';
  }


  // ===========================================================================
  // The decoded report

  /** One entry of `osd_stats`: counters under `stats`, latencies under `fs_perf_stat`. */
  datatype OsdStat = OsdStat(osd: int, stats: map<string, int>, perf: map<string, int>)

  /**
    One entry of `pg_stats`: its id, state, `stat_sum`, and the event times it
    carries, already read as seconds since the epoch.
   */
  datatype PgStat = PgStat(pgid: string, state: string, statSum: map<string, int>, stamps: map<string, int>)

  datatype PgDumpReport = PgDumpReport(statSum: map<string, int>, osdStats: seq<OsdStat>, pgStats: seq<PgStat>)

  /** `stat_sum` key and `type` label of each object counter, in emission order. */
  const ObjectStats: seq<(string, string)> := [
    ("num_objects", "objects"),
    ("num_object_clones", "clones"),
    ("num_object_copies", "copies"),
    ("num_objects_missing_on_primary", "missing_on_primary"),
    ("num_objects_degraded", "degraded"),
    ("num_objects_misplaced", "misplaced"),
    ("num_objects_unfound", "unfound"),
    ("num_objects_dirty", "dirty")
  ]

  const Directions: seq<string> := ["read", "write"]

  /** OSD storage counters (in KiB) and their `type` label. */
  const StorageStats: seq<(string, string)> := [("kb_avail", "available"), ("kb_used", "used")]

  const RecoveredStats: seq<string> := ["objects", "bytes", "keys"]

  /** Event time key of a placement group and its `event` label. */
  const PgEvents: seq<(string, string)> := [
    ("last_fresh", "last_fresh"),
    ("last_change", "last_change"),
    ("last_active", "last_active"),
    ("last_peered", "last_peered"),
    ("last_clean", "last_clean"),
    ("last_became_active", "last_became_active"),
    ("last_became_peered", "last_became_peered"),
    ("last_unstale", "last_unstale"),
    ("last_undegraded", "last_undegraded"),
    ("last_fullsized", "last_fullsized"),
    ("last_scrub_stamp", "last_scrub"),
    ("last_deep_scrub_stamp", "last_deep_scrub"),
    ("last_clean_scrub_stamp", "last_clean_scrub")
  ]

  /** Every key of `pairs` is present in `m`. */
  predicate HasKeys(m: map<string, int>, pairs: seq<(string, string)>) {
    forall i :: 0 <= i < |pairs| ==> pairs[i].0 in m
  }

  predicate HasDirectionKeys(m: map<string, int>, dirs: seq<string>) {
    forall k :: 0 <= k < |dirs| ==> "num_" + dirs[k] in m && "num_" + dirs[k] + "_kb" in m
  }

  predicate HasRecoveredKeys(m: map<string, int>, stats: seq<string>) {
    forall k :: 0 <= k < |stats| ==> "num_" + stats[k] + "_recovered" in m
  }

  predicate OsdComplete(o: OsdStat) {
    && HasKeys(o.stats, StorageStats)
    && "snap_trim_queue_len" in o.stats && "num_snap_trimming" in o.stats
    && "apply_latency_ms" in o.perf && "commit_latency_ms" in o.perf
  }

  predicate PgComplete(pg: PgStat) {
    && HasKeys(pg.statSum, ObjectStats)
    && HasDirectionKeys(pg.statSum, Directions)
    && HasRecoveredKeys(pg.statSum, RecoveredStats)
    && "num_bytes" in pg.statSum
  }

  /** The report carries every member the collector reads. */
  predicate ReportComplete(d: PgDumpReport) {
    && HasKeys(d.statSum, ObjectStats)
    && HasDirectionKeys(d.statSum, Directions)
    && (forall i :: 0 <= i < |d.osdStats| ==> OsdComplete(d.osdStats[i]))
    && (forall i :: 0 <= i < |d.pgStats| ==> PgComplete(d.pgStats[i]))
  }

  // ===========================================================================
  // What the collector records: specification

  /** One sample per `(key, type)` pair: `m[key]` scaled by `scale`, labelled `labels` plus its type. */
  function TypedObs(metric: string, labels: seq<Label>, m: map<string, int>, pairs: seq<(string, string)>,
                    scale: int): (r: seq<Observation>)
    requires HasKeys(m, pairs)
    ensures |r| == |pairs|
    ensures forall i :: 0 <= i < |pairs| ==>
      r[i] == Observation(metric, labels + [StrLabel("type", pairs[i].1)], m[pairs[i].0] * scale)
  {
    if pairs == [] then []
    else
      var p := pairs[|pairs| - 1];
      TypedObs(metric, labels, m, pairs[..|pairs| - 1], scale)
        + [Observation(metric, labels + [StrLabel("type", p.1)], m[p.0] * scale)]
  }

  /** Per direction, an operation count and a byte count converted from KiB. */
  function DirectionObs(labels: seq<Label>, m: map<string, int>, dirs: seq<string>): (r: seq<Observation>)
    requires HasDirectionKeys(m, dirs)
    ensures |r| == 2 * |dirs|
    ensures forall k :: 0 <= k < |dirs| ==>
      && r[2 * k] == Observation("ceph_" + dirs[k] + "_ops", labels, m["num_" + dirs[k]])
      && r[2 * k + 1] == Observation("ceph_" + dirs[k] + "_bytes", labels, m["num_" + dirs[k] + "_kb"] * 1024)
  {
    if dirs == [] then []
    else
      var d := dirs[|dirs| - 1];
      DirectionObs(labels, m, dirs[..|dirs| - 1])
        + [Observation("ceph_" + d + "_ops", labels, m["num_" + d]),
           Observation("ceph_" + d + "_bytes", labels, m["num_" + d + "_kb"] * 1024)]
  }

  /** One recovery counter per statistic. */
  function RecoveredObs(labels: seq<Label>, m: map<string, int>, stats: seq<string>): (r: seq<Observation>)
    requires HasRecoveredKeys(m, stats)
    ensures |r| == |stats|
    ensures forall k :: 0 <= k < |stats| ==>
      r[k] == Observation("ceph_" + stats[k] + "_recovered", labels, m["num_" + stats[k] + "_recovered"])
  {
    if stats == [] then []
    else
      var s := stats[|stats| - 1];
      RecoveredObs(labels, m, stats[..|stats| - 1])
        + [Observation("ceph_" + s + "_recovered", labels, m["num_" + s + "_recovered"])]
  }

  /** One event-time sample per listed event the placement group carries. */
  function StampObs(labels: seq<Label>, stamps: map<string, int>, events: seq<(string, string)>): (r: seq<Observation>)
    ensures |r| <= |events|
    ensures forall i :: 0 <= i < |r| ==>
      && r[i].metric == "ceph_pg_timestamp"
      && |r[i].labels| == |labels| + 1
      && forall j :: 0 <= j < |labels| ==> r[i].labels[j] == labels[j]
  {
    if events == [] then []
    else
      var e := events[|events| - 1];
      StampObs(labels, stamps, events[..|events| - 1])
        + (if e.0 in stamps then [Observation("ceph_pg_timestamp", labels + [StrLabel("event", e.1)], stamps[e.0])]
           else [])
  }

  /** The sample the event loop records for the listed event `k`. */
  function StampSample(labels: seq<Label>, stamps: map<string, int>, events: seq<(string, string)>, k: nat): Observation
    requires k < |events| && events[k].0 in stamps
  {
    Observation("ceph_pg_timestamp", labels + [StrLabel("event", events[k].1)], stamps[events[k].0])
  }

  /** `o` is the event-time sample of some listed event the placement group carries. */
  predicate StampFor(labels: seq<Label>, stamps: map<string, int>, events: seq<(string, string)>, o: Observation) {
    exists k :: 0 <= k < |events| && events[k].0 in stamps && o == StampSample(labels, stamps, events, k)
  }

  /**
    Every event-time sample belongs to a listed event present in the pg: it
    is labelled `event=<stat>` after the pg labels and carries that event's
    stamp.
   */
  lemma {:induction false} StampObsSound(labels: seq<Label>, stamps: map<string, int>, events: seq<(string, string)>)
    ensures forall i :: 0 <= i < |StampObs(labels, stamps, events)| ==>
      StampFor(labels, stamps, events, StampObs(labels, stamps, events)[i])
  {
    if events != [] {
      var n := |events| - 1;
      var init := events[..n];
      StampObsSound(labels, stamps, init);
      var prev := StampObs(labels, stamps, init);
      var r := StampObs(labels, stamps, events);
      forall i | 0 <= i < |r|
        ensures StampFor(labels, stamps, events, r[i])
      {
        if i < |prev| {
          assert StampFor(labels, stamps, init, prev[i]);
          var k :| 0 <= k < |init| && init[k].0 in stamps && prev[i] == StampSample(labels, stamps, init, k);
          assert events[k] == init[k];
          assert r[i] == StampSample(labels, stamps, events, k);
        } else {
          assert r[i] == StampSample(labels, stamps, events, n);
        }
      }
    }
  }

  /** Every listed event the pg carries gets its event-time sample. */
  lemma {:induction false} StampObsComplete(labels: seq<Label>, stamps: map<string, int>, events: seq<(string, string)>)
    ensures forall k :: 0 <= k < |events| && events[k].0 in stamps ==>
      StampSample(labels, stamps, events, k) in StampObs(labels, stamps, events)
  {
    if events != [] {
      var n := |events| - 1;
      var init := events[..n];
      StampObsComplete(labels, stamps, init);
      var prev := StampObs(labels, stamps, init);
      var r := StampObs(labels, stamps, events);
      forall k | 0 <= k < |events| && events[k].0 in stamps
        ensures StampSample(labels, stamps, events, k) in r
      {
        if k < n {
          assert init[k] == events[k];
          assert StampSample(labels, stamps, init, k) in prev;
        } else {
          assert r[|r| - 1] == StampSample(labels, stamps, events, n);
        }
      }
    }
  }

  /** With every listed event present, there is one sample per event. */
  lemma {:induction false} StampObsAllPresent(labels: seq<Label>, stamps: map<string, int>, events: seq<(string, string)>)
    requires forall k :: 0 <= k < |events| ==> events[k].0 in stamps
    ensures |StampObs(labels, stamps, events)| == |events|
  {
    if events != [] {
      var n := |events| - 1;
      assert events[n].0 in stamps;
      StampObsAllPresent(labels, stamps, events[..n]);
    }
  }

  /** The label identifying an OSD. */
  function OsdLabel(o: OsdStat): Label {
    StrLabel("osd", Decimal(o.osd))
  }

  /** Everything recorded for one OSD. */
  function OsdObs(fsid: string, o: OsdStat): seq<Observation>
    requires OsdComplete(o)
  {
    var f := FsidLabel(fsid);
    var osd := OsdLabel(o);
    [Observation("ceph_osd", [f, osd], 1)]
      + TypedObs("ceph_storage_bytes", [f, StrLabel("scope", "osd"), osd], o.stats, StorageStats, 1024)
      + [Observation("ceph_osd_snap_trim_queue_length", [f, osd], o.stats["snap_trim_queue_len"]),
         Observation("ceph_osd_number_snap_trimming", [f, osd], o.stats["num_snap_trimming"]),
         Observation("ceph_osd_latency_seconds", [f, osd, StrLabel("type", "apply")], o.perf["apply_latency_ms"]),
         Observation("ceph_osd_latency_seconds", [f, osd, StrLabel("type", "commit")], o.perf["commit_latency_ms"])]
  }

  /** The labels naming a placement group: fsid, pool (possibly missing), pgid. */
  function PgLabels(fsid: string, pg: PgStat): seq<Label> {
    [FsidLabel(fsid), Label("pool", PgidToPool(pg.pgid)), StrLabel("pgid", pg.pgid)]
  }

  /** The same with `scope="pg"` after the fsid. */
  function PgScoped(fsid: string, pg: PgStat): seq<Label> {
    [FsidLabel(fsid), StrLabel("scope", "pg"), Label("pool", PgidToPool(pg.pgid)), StrLabel("pgid", pg.pgid)]
  }

  /** Everything recorded for one placement group. */
  function PgObs(fsid: string, states: seq<string>, pg: PgStat): seq<Observation>
    requires PgComplete(pg)
  {
    [Observation("ceph_pg", PgLabels(fsid, pg), 1),
     Observation("ceph_storage_bytes", PgScoped(fsid, pg) + [StrLabel("type", "used")], pg.statSum["num_bytes"])]
      + TypedObs("ceph_objects", PgScoped(fsid, pg), pg.statSum, ObjectStats, 1)
      + DirectionObs(PgScoped(fsid, pg), pg.statSum, Directions)
      + RecoveredObs(PgScoped(fsid, pg), pg.statSum, RecoveredStats)
      + StampObs(PgLabels(fsid, pg), pg.stamps, PgEvents)
      + OneHotObs("ceph_pg_state", PgLabels(fsid, pg), states, pg.state)
  }

  function OsdsObs(fsid: string, osds: seq<OsdStat>): seq<Observation>
    requires forall i :: 0 <= i < |osds| ==> OsdComplete(osds[i])
  {
    if osds == [] then [] else OsdsObs(fsid, osds[..|osds| - 1]) + OsdObs(fsid, osds[|osds| - 1])
  }

  function PgsObs(fsid: string, states: seq<string>, pgs: seq<PgStat>): seq<Observation>
    requires forall i :: 0 <= i < |pgs| ==> PgComplete(pgs[i])
  {
    if pgs == [] then [] else PgsObs(fsid, states, pgs[..|pgs| - 1]) + PgObs(fsid, states, pgs[|pgs| - 1])
  }

  /** The labels of cluster-wide counters. */
  function ClusterLabels(fsid: string): seq<Label> {
    [FsidLabel(fsid), StrLabel("scope", "cluster")]
  }

  /** Everything one run of the collector records, in order. */
  function PgDumpObservations(fsid: string, states: seq<string>, d: PgDumpReport): seq<Observation>
    requires ReportComplete(d)
  {
    TypedObs("ceph_objects", ClusterLabels(fsid), d.statSum, ObjectStats, 1)
      + DirectionObs(ClusterLabels(fsid), d.statSum, Directions)
      + OsdsObs(fsid, d.osdStats)
      + PgsObs(fsid, states, d.pgStats)
  }

  // ===========================================================================
  // Properties of what is recorded

  /** A cluster-wide object counter. */
  predicate IsClusterObjects(o: Observation) {
    o.metric == "ceph_objects" && 2 <= |o.labels| && o.labels[1] == StrLabel("scope", "cluster")
  }

  function CountClusterObjects(obs: seq<Observation>): nat {
    if obs == [] then 0
    else CountClusterObjects(obs[..|obs| - 1]) + (if IsClusterObjects(obs[|obs| - 1]) then 1 else 0)
  }

  lemma {:induction false} CountClusterObjectsAppend(a: seq<Observation>, b: seq<Observation>)
    ensures CountClusterObjects(a + b) == CountClusterObjects(a) + CountClusterObjects(b)
    decreases |b|
  {
    if b == [] {
      assert a + b == a;
    } else {
      assert (a + b)[..|a + b| - 1] == a + b[..|b| - 1];
      CountClusterObjectsAppend(a, b[..|b| - 1]);
    }
  }

  lemma {:induction false} CountClusterObjectsOf(obs: seq<Observation>, all: bool)
    requires forall i :: 0 <= i < |obs| ==> IsClusterObjects(obs[i]) == all
    ensures CountClusterObjects(obs) == if all then |obs| else 0
  {
    if obs != [] {
      CountClusterObjectsOf(obs[..|obs| - 1], all);
    }
  }

  /** Every observation names the cluster first. */
  predicate FsidFirst(obs: seq<Observation>, fsid: string) {
    forall i :: 0 <= i < |obs| ==> 1 <= |obs[i].labels| && obs[i].labels[0] == FsidLabel(fsid)
  }

  predicate NoClusterObjects(obs: seq<Observation>) {
    forall i :: 0 <= i < |obs| ==> !IsClusterObjects(obs[i])
  }

  lemma ShapeAppend(a: seq<Observation>, b: seq<Observation>, fsid: string)
    ensures FsidFirst(a, fsid) && FsidFirst(b, fsid) ==> FsidFirst(a + b, fsid)
    ensures NoClusterObjects(a) && NoClusterObjects(b) ==> NoClusterObjects(a + b)
  {
  }

  /** Labels that name the cluster first and are not cluster-scoped. */
  predicate PlainLabels(labels: seq<Label>, fsid: string) {
    2 <= |labels| && labels[0] == FsidLabel(fsid) && labels[1] != StrLabel("scope", "cluster")
  }

  lemma TypedObsShape(metric: string, labels: seq<Label>, m: map<string, int>, pairs: seq<(string, string)>,
                      scale: int, fsid: string)
    requires HasKeys(m, pairs) && PlainLabels(labels, fsid)
    ensures var r := TypedObs(metric, labels, m, pairs, scale); FsidFirst(r, fsid) && NoClusterObjects(r)
  {
  }

  lemma {:induction false} DirectionObsShape(labels: seq<Label>, m: map<string, int>, dirs: seq<string>, fsid: string)
    requires HasDirectionKeys(m, dirs) && PlainLabels(labels, fsid)
    ensures var r := DirectionObs(labels, m, dirs); FsidFirst(r, fsid) && NoClusterObjects(r)
  {
    if dirs != [] {
      var init, d := dirs[..|dirs| - 1], dirs[|dirs| - 1];
      assert HasDirectionKeys(m, init) by {
        forall k | 0 <= k < |init| ensures "num_" + init[k] in m && "num_" + init[k] + "_kb" in m {
          assert init[k] == dirs[k];
        }
      }
      DirectionObsShape(labels, m, init, fsid);
      var pair := [Observation("ceph_" + d + "_ops", labels, m["num_" + d]),
                   Observation("ceph_" + d + "_bytes", labels, m["num_" + d + "_kb"] * 1024)];
      assert DirectionObs(labels, m, dirs) == DirectionObs(labels, m, init) + pair;
      ShapeAppend(DirectionObs(labels, m, init), pair, fsid);
    }
  }

  lemma RecoveredObsShape(labels: seq<Label>, m: map<string, int>, stats: seq<string>, fsid: string)
    requires HasRecoveredKeys(m, stats) && PlainLabels(labels, fsid)
    ensures var r := RecoveredObs(labels, m, stats); FsidFirst(r, fsid) && NoClusterObjects(r)
  {
  }

  /**
    Over the known states a run uses, every placement group's state samples
    hold exactly one 1, labelled with the pg's own state, and one sample per
    known state plus one only for an unknown state.
   */
  lemma KnownStatesOneHot(fsid: string, pg: PgStat)
    ensures var r := OneHotObs("ceph_pg_state", PgLabels(fsid, pg), KnownStates, pg.state);
      && |r| == (if pg.state in KnownStates then |KnownStates| else |KnownStates| + 1)
      && CountValue(r, 1) == 1
      && (forall i :: 0 <= i < |r| && r[i].value == 1 ==> r[i].labels == PgLabels(fsid, pg) + [StrLabel("state", pg.state)])
  {
    KnownStatesDistinct();
    OneHotExactlyOne("ceph_pg_state", PgLabels(fsid, pg), KnownStates, pg.state);
  }

  lemma StateObsShape(labels: seq<Label>, states: seq<string>, state: string, fsid: string)
    requires PlainLabels(labels, fsid)
    ensures var r := OneHotObs("ceph_pg_state", labels, states, state); FsidFirst(r, fsid) && NoClusterObjects(r)
  {
  }

  /** Nothing recorded for one OSD is a cluster-wide object counter, and all of it names the cluster first. */
  lemma OsdObsShape(fsid: string, o: OsdStat)
    requires OsdComplete(o)
    ensures var r := OsdObs(fsid, o);
      && |r| == 7
      && FsidFirst(r, fsid)
      && NoClusterObjects(r)
      && r[1].value == o.stats["kb_avail"] * 1024
      && r[2].value == o.stats["kb_used"] * 1024
  {
    var f := FsidLabel(fsid);
    var osd := OsdLabel(o);
    var head := [Observation("ceph_osd", [f, osd], 1)];
    var storage := TypedObs("ceph_storage_bytes", [f, StrLabel("scope", "osd"), osd], o.stats, StorageStats, 1024);
    var tail := [Observation("ceph_osd_snap_trim_queue_length", [f, osd], o.stats["snap_trim_queue_len"]),
                 Observation("ceph_osd_number_snap_trimming", [f, osd], o.stats["num_snap_trimming"]),
                 Observation("ceph_osd_latency_seconds", [f, osd, StrLabel("type", "apply")], o.perf["apply_latency_ms"]),
                 Observation("ceph_osd_latency_seconds", [f, osd, StrLabel("type", "commit")], o.perf["commit_latency_ms"])];
    TypedObsShape("ceph_storage_bytes", [f, StrLabel("scope", "osd"), osd], o.stats, StorageStats, 1024, fsid);
    ShapeAppend(head, storage, fsid);
    ShapeAppend(head + storage, tail, fsid);
  }

  /** Nothing recorded for one placement group is a cluster-wide object counter, and all of it names the cluster first. */
  lemma PgObsShape(fsid: string, states: seq<string>, pg: PgStat)
    requires PgComplete(pg)
    ensures var r := PgObs(fsid, states, pg);
      && |r| == 17 + |StampObs(PgLabels(fsid, pg), pg.stamps, PgEvents)|
                   + (if pg.state in states then |states| else |states| + 1)
      && FsidFirst(r, fsid)
      && NoClusterObjects(r)
  {
    var named := PgLabels(fsid, pg);
    var scoped := PgScoped(fsid, pg);
    var p1 := [Observation("ceph_pg", named, 1),
               Observation("ceph_storage_bytes", scoped + [StrLabel("type", "used")], pg.statSum["num_bytes"])];
    var p2 := TypedObs("ceph_objects", scoped, pg.statSum, ObjectStats, 1);
    var p3 := DirectionObs(scoped, pg.statSum, Directions);
    var p4 := RecoveredObs(scoped, pg.statSum, RecoveredStats);
    var p5 := StampObs(named, pg.stamps, PgEvents);
    var p6 := OneHotObs("ceph_pg_state", named, states, pg.state);
    TypedObsShape("ceph_objects", scoped, pg.statSum, ObjectStats, 1, fsid);
    DirectionObsShape(scoped, pg.statSum, Directions, fsid);
    RecoveredObsShape(scoped, pg.statSum, RecoveredStats, fsid);
    StateObsShape(named, states, pg.state, fsid);
    assert FsidFirst(p1, fsid) && NoClusterObjects(p1);
    assert FsidFirst(p5, fsid) && NoClusterObjects(p5);
    ShapeAppend(p1, p2, fsid);
    ShapeAppend(p1 + p2, p3, fsid);
    ShapeAppend(p1 + p2 + p3, p4, fsid);
    ShapeAppend(p1 + p2 + p3 + p4, p5, fsid);
    ShapeAppend(p1 + p2 + p3 + p4 + p5, p6, fsid);
  }

  lemma {:induction false} OsdsObsShape(fsid: string, osds: seq<OsdStat>)
    requires forall i :: 0 <= i < |osds| ==> OsdComplete(osds[i])
    ensures FsidFirst(OsdsObs(fsid, osds), fsid)
    ensures CountClusterObjects(OsdsObs(fsid, osds)) == 0
  {
    if osds != [] {
      var init := osds[..|osds| - 1];
      OsdsObsShape(fsid, init);
      OsdObsShape(fsid, osds[|osds| - 1]);
      CountClusterObjectsOf(OsdObs(fsid, osds[|osds| - 1]), false);
      ShapeAppend(OsdsObs(fsid, init), OsdObs(fsid, osds[|osds| - 1]), fsid);
      CountClusterObjectsAppend(OsdsObs(fsid, init), OsdObs(fsid, osds[|osds| - 1]));
    }
  }

  lemma {:induction false} PgsObsShape(fsid: string, states: seq<string>, pgs: seq<PgStat>)
    requires forall i :: 0 <= i < |pgs| ==> PgComplete(pgs[i])
    ensures FsidFirst(PgsObs(fsid, states, pgs), fsid)
    ensures CountClusterObjects(PgsObs(fsid, states, pgs)) == 0
  {
    if pgs != [] {
      var init := pgs[..|pgs| - 1];
      PgsObsShape(fsid, states, init);
      PgObsShape(fsid, states, pgs[|pgs| - 1]);
      CountClusterObjectsOf(PgObs(fsid, states, pgs[|pgs| - 1]), false);
      ShapeAppend(PgsObs(fsid, states, init), PgObs(fsid, states, pgs[|pgs| - 1]), fsid);
      CountClusterObjectsAppend(PgsObs(fsid, states, init), PgObs(fsid, states, pgs[|pgs| - 1]));
    }
  }

  /** A run starts with the eight cluster-wide object counters, in list order. */
  lemma PgDumpClusterFirst(fsid: string, states: seq<string>, d: PgDumpReport)
    requires ReportComplete(d)
    ensures var r := PgDumpObservations(fsid, states, d);
      && 8 <= |r|
      && forall i :: 0 <= i < 8 ==>
           r[i] == Observation("ceph_objects", ClusterLabels(fsid) + [StrLabel("type", ObjectStats[i].1)],
                               d.statSum[ObjectStats[i].0])
  {
    ClusterFront(TypedObs("ceph_objects", ClusterLabels(fsid), d.statSum, ObjectStats, 1),
                 DirectionObs(ClusterLabels(fsid), d.statSum, Directions),
                 OsdsObs(fsid, d.osdStats), PgsObs(fsid, states, d.pgStats));
  }

  /**
    The object counters are followed by the cluster read and write counters,
    operations then bytes, with byte counts converted from KiB.
   */
  lemma PgDumpClusterIo(fsid: string, states: seq<string>, d: PgDumpReport)
    requires ReportComplete(d)
    ensures var r := PgDumpObservations(fsid, states, d);
      && 12 <= |r|
      && forall k :: 0 <= k < 2 ==>
           && r[8 + 2 * k] == Observation("ceph_" + Directions[k] + "_ops", ClusterLabels(fsid),
                                          d.statSum["num_" + Directions[k]])
           && r[9 + 2 * k] == Observation("ceph_" + Directions[k] + "_bytes", ClusterLabels(fsid),
                                          d.statSum["num_" + Directions[k] + "_kb"] * 1024)
  {
    ClusterFront(TypedObs("ceph_objects", ClusterLabels(fsid), d.statSum, ObjectStats, 1),
                 DirectionObs(ClusterLabels(fsid), d.statSum, Directions),
                 OsdsObs(fsid, d.osdStats), PgsObs(fsid, states, d.pgStats));
  }

  /** Where the cluster-wide sections sit, whatever follows them. */
  lemma ClusterFront(objects: seq<Observation>, io: seq<Observation>, osds: seq<Observation>, pgs: seq<Observation>)
    requires |objects| == 8 && |io| == 4
    ensures var r := objects + io + osds + pgs;
      && 12 <= |r|
      && (forall i :: 0 <= i < 8 ==> r[i] == objects[i])
      && (forall k :: 0 <= k < 4 ==> r[8 + k] == io[k])
  {
  }

  /**
    Exactly eight cluster-wide object counters are recorded per run, and every
    observation's first label is the cluster's fsid.
   */
  lemma PgDumpCounts(fsid: string, states: seq<string>, d: PgDumpReport)
    requires ReportComplete(d)
    ensures CountClusterObjects(PgDumpObservations(fsid, states, d)) == 8
    ensures FsidFirst(PgDumpObservations(fsid, states, d), fsid)
  {
    ClusterObjectsShape(fsid, d.statSum, ObjectStats);
    ClusterIoShape(fsid, d.statSum);
    OsdsObsShape(fsid, d.osdStats);
    PgsObsShape(fsid, states, d.pgStats);
    SectionsTally(fsid, TypedObs("ceph_objects", ClusterLabels(fsid), d.statSum, ObjectStats, 1),
                  DirectionObs(ClusterLabels(fsid), d.statSum, Directions),
                  OsdsObs(fsid, d.osdStats), PgsObs(fsid, states, d.pgStats));
  }

  /** The per-type cluster object samples are all cluster-scoped `ceph_objects`. */
  lemma ClusterObjectsShape(fsid: string, m: map<string, int>, pairs: seq<(string, string)>)
    requires HasKeys(m, pairs)
    ensures FsidFirst(TypedObs("ceph_objects", ClusterLabels(fsid), m, pairs, 1), fsid)
    ensures CountClusterObjects(TypedObs("ceph_objects", ClusterLabels(fsid), m, pairs, 1)) == |pairs|
  {
    CountClusterObjectsOf(TypedObs("ceph_objects", ClusterLabels(fsid), m, pairs, 1), true);
  }

  /** Four sections, only the first holding cluster object counts. */
  lemma SectionsTally(fsid: string, objects: seq<Observation>, io: seq<Observation>,
                      osds: seq<Observation>, pgs: seq<Observation>)
    requires FsidFirst(objects, fsid) && FsidFirst(io, fsid) && FsidFirst(osds, fsid) && FsidFirst(pgs, fsid)
    requires CountClusterObjects(io) == 0 && CountClusterObjects(osds) == 0 && CountClusterObjects(pgs) == 0
    ensures CountClusterObjects(objects + io + osds + pgs) == CountClusterObjects(objects)
    ensures FsidFirst(objects + io + osds + pgs, fsid)
  {
    ShapeAppend(objects, io, fsid);
    ShapeAppend(objects + io, osds, fsid);
    ShapeAppend(objects + io + osds, pgs, fsid);
    CountClusterObjectsAppend(objects, io);
    CountClusterObjectsAppend(objects + io, osds);
    CountClusterObjectsAppend(objects + io + osds, pgs);
  }


  /** The cluster read/write counters name the cluster first and are not object counters. */
  lemma ClusterIoShape(fsid: string, m: map<string, int>)
    requires HasDirectionKeys(m, Directions)
    ensures var io := DirectionObs(ClusterLabels(fsid), m, Directions);
      FsidFirst(io, fsid) && CountClusterObjects(io) == 0
  {
    var io := DirectionObs(ClusterLabels(fsid), m, Directions);
    assert |Directions[0]| == 4 && |Directions[1]| == 5;
    forall i | 0 <= i < |io| ensures io[i].labels == ClusterLabels(fsid) && |io[i].metric| > |"ceph_objects"| {
      if i == 0 { assert io[i] == io[2 * 0]; }
      else if i == 1 { assert io[i] == io[2 * 0 + 1]; }
      else if i == 2 { assert io[i] == io[2 * 1]; }
      else { assert io[i] == io[2 * 1 + 1]; }
    }
    CountClusterObjectsOf(io, false);
  }

  // ===========================================================================
  // The collector's loops

  method CollectTyped(metric: string, labels: seq<Label>, m: map<string, int>, pairs: seq<(string, string)>,
                      scale: int) returns (obs: seq<Observation>)
    requires HasKeys(m, pairs)
    ensures obs == TypedObs(metric, labels, m, pairs, scale)
  {
    obs := [];
    for i := 0 to |pairs|
      invariant obs == TypedObs(metric, labels, m, pairs[..i], scale)
    {
      assert pairs[..i + 1][..i] == pairs[..i];
      var (key, stat) := pairs[i];
      obs := obs + [Observation(metric, labels + [StrLabel("type", stat)], m[key] * scale)];
    }
    assert pairs[..|pairs|] == pairs;
  }

  method CollectDirections(labels: seq<Label>, m: map<string, int>, dirs: seq<string>) returns (obs: seq<Observation>)
    requires HasDirectionKeys(m, dirs)
    ensures obs == DirectionObs(labels, m, dirs)
  {
    obs := [];
    for i := 0 to |dirs|
      invariant obs == DirectionObs(labels, m, dirs[..i])
    {
      assert dirs[..i + 1][..i] == dirs[..i];
      var direction := dirs[i];
      obs := obs + [Observation("ceph_" + direction + "_ops", labels, m["num_" + direction]),
                    Observation("ceph_" + direction + "_bytes", labels, m["num_" + direction + "_kb"] * 1024)];
    }
    assert dirs[..|dirs|] == dirs;
  }

  method CollectRecovered(labels: seq<Label>, m: map<string, int>, stats: seq<string>) returns (obs: seq<Observation>)
    requires HasRecoveredKeys(m, stats)
    ensures obs == RecoveredObs(labels, m, stats)
  {
    obs := [];
    for i := 0 to |stats|
      invariant obs == RecoveredObs(labels, m, stats[..i])
    {
      assert stats[..i + 1][..i] == stats[..i];
      var stat := stats[i];
      obs := obs + [Observation("ceph_" + stat + "_recovered", labels, m["num_" + stat + "_recovered"])];
    }
    assert stats[..|stats|] == stats;
  }

  method CollectStamps(labels: seq<Label>, stamps: map<string, int>, events: seq<(string, string)>)
    returns (obs: seq<Observation>)
    ensures obs == StampObs(labels, stamps, events)
  {
    obs := [];
    for i := 0 to |events|
      invariant obs == StampObs(labels, stamps, events[..i])
    {
      assert events[..i + 1][..i] == events[..i];
      var (key, stat) := events[i];
      if key in stamps {
        obs := obs + [Observation("ceph_pg_timestamp", labels + [StrLabel("event", stat)], stamps[key])];
      }
    }
    assert events[..|events|] == events;
  }

  method CollectOsd(fsid: string, o: OsdStat) returns (obs: seq<Observation>)
    requires OsdComplete(o)
    ensures obs == OsdObs(fsid, o)
  {
    var f := FsidLabel(fsid);
    var osd := OsdLabel(o);
    obs := [Observation("ceph_osd", [f, osd], 1)];
    var storage := CollectTyped("ceph_storage_bytes", [f, StrLabel("scope", "osd"), osd], o.stats, StorageStats, 1024);
    obs := obs + storage;
    obs := obs + [Observation("ceph_osd_snap_trim_queue_length", [f, osd], o.stats["snap_trim_queue_len"]),
                  Observation("ceph_osd_number_snap_trimming", [f, osd], o.stats["num_snap_trimming"]),
                  Observation("ceph_osd_latency_seconds", [f, osd, StrLabel("type", "apply")], o.perf["apply_latency_ms"]),
                  Observation("ceph_osd_latency_seconds", [f, osd, StrLabel("type", "commit")], o.perf["commit_latency_ms"])];
  }

  method CollectPg(fsid: string, states: seq<string>, pg: PgStat) returns (obs: seq<Observation>)
    requires PgComplete(pg)
    ensures obs == PgObs(fsid, states, pg)
  {
    var named := PgLabels(fsid, pg);
    var scoped := PgScoped(fsid, pg);
    obs := [Observation("ceph_pg", named, 1),
            Observation("ceph_storage_bytes", scoped + [StrLabel("type", "used")], pg.statSum["num_bytes"])];
    var objects := CollectTyped("ceph_objects", scoped, pg.statSum, ObjectStats, 1);
    obs := obs + objects;
    var io := CollectDirections(scoped, pg.statSum, Directions);
    obs := obs + io;
    var recovered := CollectRecovered(scoped, pg.statSum, RecoveredStats);
    obs := obs + recovered;
    var stamps := CollectStamps(named, pg.stamps, PgEvents);
    obs := obs + stamps;
    var oneHot := CollectOneHot("ceph_pg_state", named, states, pg.state);
    obs := obs + oneHot;
  }

  /** `CephPgDump.processData` without the recording: what one run observes. */
  method CollectPgDump(fsid: string, states: seq<string>, d: PgDumpReport) returns (obs: seq<Observation>)
    requires ReportComplete(d)
    ensures obs == PgDumpObservations(fsid, states, d)
  {
    obs := CollectTyped("ceph_objects", ClusterLabels(fsid), d.statSum, ObjectStats, 1);
    var io := CollectDirections(ClusterLabels(fsid), d.statSum, Directions);
    obs := obs + io;
    var osds := CollectOsds(fsid, d.osdStats);
    obs := obs + osds;
    var pgs := CollectPgs(fsid, states, d.pgStats);
    obs := obs + pgs;
  }

  method CollectOsds(fsid: string, osdStats: seq<OsdStat>) returns (obs: seq<Observation>)
    requires forall i :: 0 <= i < |osdStats| ==> OsdComplete(osdStats[i])
    ensures obs == OsdsObs(fsid, osdStats)
  {
    obs := [];
    for i := 0 to |osdStats|
      invariant obs == OsdsObs(fsid, osdStats[..i])
    {
      assert osdStats[..i + 1][..i] == osdStats[..i];
      var more := CollectOsd(fsid, osdStats[i]);
      obs := obs + more;
    }
    assert osdStats[..|osdStats|] == osdStats;
  }

  method CollectPgs(fsid: string, states: seq<string>, pgStats: seq<PgStat>) returns (obs: seq<Observation>)
    requires forall i :: 0 <= i < |pgStats| ==> PgComplete(pgStats[i])
    ensures obs == PgsObs(fsid, states, pgStats)
  {
    obs := [];
    for i := 0 to |pgStats|
      invariant obs == PgsObs(fsid, states, pgStats[..i])
    {
      assert pgStats[..i + 1][..i] == pgStats[..i];
      var more := CollectPg(fsid, states, pgStats[i]);
      obs := obs + more;
    }
    assert pgStats[..|pgStats|] == pgStats;
  }

  /** `CephPgDump.processData`: one run's samples are recorded, all stamped `ts`. */
  method ProcessData(reg: Registry, fsid: string, d: PgDumpReport, ts: int)
    requires reg.Valid() && ReportComplete(d)
    modifies reg.metrics.Values
    ensures reg.metrics == old(reg.metrics) && reg.Valid()
    ensures reg.Snapshot() == PushAll(old(reg.Snapshot()), PgDumpObservations(fsid, KnownStates, d), ts)
  {
    RecordRun(reg, fsid, KnownStates, d, ts);
  }

  /** The run over any state list, as `processData` records it. */
  method RecordRun(reg: Registry, fsid: string, states: seq<string>, d: PgDumpReport, ts: int)
    requires reg.Valid() && ReportComplete(d)
    modifies reg.metrics.Values
    ensures reg.metrics == old(reg.metrics) && reg.Valid()
    ensures reg.Snapshot() == PushAll(old(reg.Snapshot()), PgDumpObservations(fsid, states, d), ts)
  {
    ghost var before := reg.Snapshot();
    var obs := CollectPgDump(fsid, states, d);
    assert reg.Snapshot() == before;
    reg.RecordAll(obs, ts);
  }
}
