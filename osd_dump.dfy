/**
  ceph_exporter/ceph/commands/ceph_osd_dump.py: the `osd dump` collector.
  Each pool yields five samples (presence, size, min_size, pg_num, pgp_num)
  and each OSD five (presence, up, down, in, out), pools first; the down and
  out figures are the complements of up and in.
 */
module OsdDump {
  import opened Text
  import opened Prometheus
  import opened MetricRegistry
  import opened Ceph

  /** One entry of `pools`. */
  datatype Pool = Pool(pool: int, poolName: string, size: int, minSize: int, pgNum: int, pgPlacementNum: int)

  /** One entry of `osds`: the `up` and `in` flags as the numbers 0 or 1. */
  datatype Osd = Osd(osd: int, up: int, isIn: int)

  datatype OsdDumpReport = OsdDumpReport(pools: seq<Pool>, osds: seq<Osd>)

  // ===========================================================================
  // What the collector records: specification

  function PoolLabels(fsid: string, p: Pool): seq<Label> {
    [FsidLabel(fsid), StrLabel("pool", Decimal(p.pool)), StrLabel("name", p.poolName)]
  }

  function OsdLabels(fsid: string, o: Osd): seq<Label> {
    [FsidLabel(fsid), StrLabel("osd", Decimal(o.osd))]
  }

  /** The five samples of one pool. */
  function PoolObs(fsid: string, p: Pool): seq<Observation> {
    var labels := PoolLabels(fsid, p);
    [Observation("ceph_pool", labels, 1),
     Observation("ceph_pool_size", labels, p.size),
     Observation("ceph_pool_min_size", labels, p.minSize),
     Observation("ceph_pool_pg_num", labels, p.pgNum),
     Observation("ceph_pool_pgp_num", labels, p.pgPlacementNum)]
  }

  /** The five samples of one OSD. */
  function OsdObs(fsid: string, o: Osd): seq<Observation> {
    var labels := OsdLabels(fsid, o);
    [Observation("ceph_osd", labels, 1),
     Observation("ceph_osd_up", labels, o.up),
     Observation("ceph_osd_down", labels, 1 - o.up),
     Observation("ceph_osd_in", labels, o.isIn),
     Observation("ceph_osd_out", labels, 1 - o.isIn)]
  }

  /** Five samples per pool, in pool order, block by block. */
  function PoolsObs(fsid: string, pools: seq<Pool>): (r: seq<Observation>)
    ensures |r| == 5 * |pools|
    ensures forall j :: 0 <= j < |pools| ==> r[5 * j..5 * j + 5] == PoolObs(fsid, pools[j])
  {
    if pools == [] then []
    else
      var init := PoolsObs(fsid, pools[..|pools| - 1]);
      var r := init + PoolObs(fsid, pools[|pools| - 1]);
      assert forall j :: 0 <= j < |pools| ==> r[5 * j..5 * j + 5] == PoolObs(fsid, pools[j]) by {
        forall j | 0 <= j < |pools| ensures r[5 * j..5 * j + 5] == PoolObs(fsid, pools[j]) {
          if j < |pools| - 1 {
            assert r[5 * j..5 * j + 5] == init[5 * j..5 * j + 5];
            assert pools[..|pools| - 1][j] == pools[j];
          }
        }
      }
      r
  }

  /** Five samples per OSD, in OSD order, block by block. */
  function OsdsObs(fsid: string, osds: seq<Osd>): (r: seq<Observation>)
    ensures |r| == 5 * |osds|
    ensures forall j :: 0 <= j < |osds| ==> r[5 * j..5 * j + 5] == OsdObs(fsid, osds[j])
  {
    if osds == [] then []
    else
      var init := OsdsObs(fsid, osds[..|osds| - 1]);
      var r := init + OsdObs(fsid, osds[|osds| - 1]);
      assert forall j :: 0 <= j < |osds| ==> r[5 * j..5 * j + 5] == OsdObs(fsid, osds[j]) by {
        forall j | 0 <= j < |osds| ensures r[5 * j..5 * j + 5] == OsdObs(fsid, osds[j]) {
          if j < |osds| - 1 {
            assert r[5 * j..5 * j + 5] == init[5 * j..5 * j + 5];
            assert osds[..|osds| - 1][j] == osds[j];
          }
        }
      }
      r
  }

  /** Everything one run of `CephOsdDump.processData` records, in order. */
  function OsdDumpObservations(fsid: string, d: OsdDumpReport): seq<Observation> {
    PoolsObs(fsid, d.pools) + OsdsObs(fsid, d.osds)
  }

  // ===========================================================================
  // The collector's loops

  method CollectPools(fsid: string, pools: seq<Pool>) returns (obs: seq<Observation>)
    ensures obs == PoolsObs(fsid, pools)
  {
    obs := [];
    for i := 0 to |pools|
      invariant obs == PoolsObs(fsid, pools[..i])
    {
      assert pools[..i + 1][..i] == pools[..i];
      var pool := pools[i];
      var labels := PoolLabels(fsid, pool);
      obs := obs + [Observation("ceph_pool", labels, 1),
                    Observation("ceph_pool_size", labels, pool.size),
                    Observation("ceph_pool_min_size", labels, pool.minSize),
                    Observation("ceph_pool_pg_num", labels, pool.pgNum),
                    Observation("ceph_pool_pgp_num", labels, pool.pgPlacementNum)];
    }
    assert pools[..|pools|] == pools;
  }

  method CollectOsds(fsid: string, osds: seq<Osd>) returns (obs: seq<Observation>)
    ensures obs == OsdsObs(fsid, osds)
  {
    obs := [];
    for i := 0 to |osds|
      invariant obs == OsdsObs(fsid, osds[..i])
    {
      assert osds[..i + 1][..i] == osds[..i];
      var osd := osds[i];
      var labels := OsdLabels(fsid, osd);
      obs := obs + [Observation("ceph_osd", labels, 1),
                    Observation("ceph_osd_up", labels, osd.up),
                    Observation("ceph_osd_down", labels, 1 - osd.up),
                    Observation("ceph_osd_in", labels, osd.isIn),
                    Observation("ceph_osd_out", labels, 1 - osd.isIn)];
    }
    assert osds[..|osds|] == osds;
  }

  method CollectOsdDump(fsid: string, d: OsdDumpReport) returns (obs: seq<Observation>)
    ensures obs == OsdDumpObservations(fsid, d)
  {
    var pools := CollectPools(fsid, d.pools);
    var osds := CollectOsds(fsid, d.osds);
    obs := pools + osds;
  }

  /** `CephOsdDump.processData`: one run's samples are recorded, all stamped `ts`. */
  method ProcessData(reg: Registry, fsid: string, d: OsdDumpReport, ts: int)
    requires reg.Valid()
    modifies reg.metrics.Values
    ensures reg.metrics == old(reg.metrics) && reg.Valid()
    ensures reg.Snapshot() == PushAll(old(reg.Snapshot()), OsdDumpObservations(fsid, d), ts)
  {
    var obs := CollectOsdDump(fsid, d);
    reg.RecordAll(obs, ts);
  }

  // ===========================================================================
  // Properties of what is recorded

  /**
    A run has five samples per pool, all before the five per OSD. Each pool
    block is its presence (1), size, min_size, pg_num and placement pg_num,
    labelled fsid, pool id in decimal, pool name.
   */
  lemma PoolBlocks(fsid: string, d: OsdDumpReport)
    ensures var r := OsdDumpObservations(fsid, d);
      && |r| == 5 * |d.pools| + 5 * |d.osds|
      && forall j :: 0 <= j < |d.pools| ==>
        && r[5 * j] == Observation("ceph_pool", PoolLabels(fsid, d.pools[j]), 1)
        && r[5 * j + 1] == Observation("ceph_pool_size", PoolLabels(fsid, d.pools[j]), d.pools[j].size)
        && r[5 * j + 2] == Observation("ceph_pool_min_size", PoolLabels(fsid, d.pools[j]), d.pools[j].minSize)
        && r[5 * j + 3] == Observation("ceph_pool_pg_num", PoolLabels(fsid, d.pools[j]), d.pools[j].pgNum)
        && r[5 * j + 4] == Observation("ceph_pool_pgp_num", PoolLabels(fsid, d.pools[j]), d.pools[j].pgPlacementNum)
  {
    forall j | 0 <= j < |d.pools| {
      PoolSection(fsid, d.pools, OsdsObs(fsid, d.osds), j);
    }
  }

  /** Pool `j`'s five samples, whatever follows the pool section. */
  lemma PoolSection(fsid: string, pools: seq<Pool>, suffix: seq<Observation>, j: int)
    requires 0 <= j < |pools|
    ensures var r := PoolsObs(fsid, pools) + suffix;
      && r[5 * j] == Observation("ceph_pool", PoolLabels(fsid, pools[j]), 1)
      && r[5 * j + 1] == Observation("ceph_pool_size", PoolLabels(fsid, pools[j]), pools[j].size)
      && r[5 * j + 2] == Observation("ceph_pool_min_size", PoolLabels(fsid, pools[j]), pools[j].minSize)
      && r[5 * j + 3] == Observation("ceph_pool_pg_num", PoolLabels(fsid, pools[j]), pools[j].pgNum)
      && r[5 * j + 4] == Observation("ceph_pool_pgp_num", PoolLabels(fsid, pools[j]), pools[j].pgPlacementNum)
  {
    var s := PoolsObs(fsid, pools);
    var b := s[5 * j..5 * j + 5];
    assert b == PoolObs(fsid, pools[j]);
    assert b[0] == s[5 * j] && b[1] == s[5 * j + 1] && b[2] == s[5 * j + 2] && b[3] == s[5 * j + 3] && b[4] == s[5 * j + 4];
  }


  /**
    Each OSD block follows the pools: presence (1), up, down, in, out, all
    labelled fsid and OSD id in decimal, with up + down == 1 and in + out == 1.
   */
  lemma OsdBlocks(fsid: string, d: OsdDumpReport)
    ensures var r := OsdDumpObservations(fsid, d);
      var base := 5 * |d.pools|;
      && |r| == base + 5 * |d.osds|
      && forall j :: 0 <= j < |d.osds| ==>
        && r[base + 5 * j] == Observation("ceph_osd", OsdLabels(fsid, d.osds[j]), 1)
        && r[base + 5 * j + 1] == Observation("ceph_osd_up", OsdLabels(fsid, d.osds[j]), d.osds[j].up)
        && r[base + 5 * j + 2] == Observation("ceph_osd_down", OsdLabels(fsid, d.osds[j]), 1 - d.osds[j].up)
        && r[base + 5 * j + 3] == Observation("ceph_osd_in", OsdLabels(fsid, d.osds[j]), d.osds[j].isIn)
        && r[base + 5 * j + 4] == Observation("ceph_osd_out", OsdLabels(fsid, d.osds[j]), 1 - d.osds[j].isIn)
        && r[base + 5 * j + 1].value + r[base + 5 * j + 2].value == 1
        && r[base + 5 * j + 3].value + r[base + 5 * j + 4].value == 1
  {
    forall j | 0 <= j < |d.osds| {
      OsdSection(fsid, PoolsObs(fsid, d.pools), d.osds, j);
    }
  }

  /** OSD `j`'s five samples, wherever the OSD section starts. */
  lemma OsdSection(fsid: string, prefix: seq<Observation>, osds: seq<Osd>, j: int)
    requires 0 <= j < |osds|
    ensures var r := prefix + OsdsObs(fsid, osds);
      var base := |prefix|;
      && r[base + 5 * j] == Observation("ceph_osd", OsdLabels(fsid, osds[j]), 1)
      && r[base + 5 * j + 1] == Observation("ceph_osd_up", OsdLabels(fsid, osds[j]), osds[j].up)
      && r[base + 5 * j + 2] == Observation("ceph_osd_down", OsdLabels(fsid, osds[j]), 1 - osds[j].up)
      && r[base + 5 * j + 3] == Observation("ceph_osd_in", OsdLabels(fsid, osds[j]), osds[j].isIn)
      && r[base + 5 * j + 4] == Observation("ceph_osd_out", OsdLabels(fsid, osds[j]), 1 - osds[j].isIn)
  {
    var s := OsdsObs(fsid, osds);
    var b := s[5 * j..5 * j + 5];
    assert b == OsdObs(fsid, osds[j]);
    assert b[0] == s[5 * j] && b[1] == s[5 * j + 1] && b[2] == s[5 * j + 2] && b[3] == s[5 * j + 3] && b[4] == s[5 * j + 4];
  }
}
