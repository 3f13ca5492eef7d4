# ceph_exporter in Dafny

A model of the core of ceph_exporter, a Prometheus exporter for Ceph clusters. The
exporter runs `ceph … --format json` commands, turns each decoded report into samples,
and keeps the samples in a process-wide registry of metrics. `GET /metrics` renders
every metric in the Prometheus text format and empties its sample list.

| module (file) | what it models |
|---|---|
| `Text` (text.dfy) | decimal rendering of integers, `str.join`, single-character `str.replace`, lexicographic order and `sorted` on strings |
| `Prometheus` (prometheus.dfy) | `escape`, `Label.fmt`, `Sample.fmt`, `isExpired` and the sweep, the stable timestamp sort, and `Metric.fmt`'s text, all as values |
| `MetricRegistry` (registry.dfy) | `Metric` objects (a class whose `samples` the methods reassign) and the `metrics` dictionary (a class holding a `map<string, Metric>`); a `Snapshot()` of the registry as a value, and `Push`/`PushAll` as the specification of recording |
| `Server` (server.dfy) | `MetricsPage.render_GET`, a loop over the sorted names calling each metric's `fmt`; the root page body |
| `Ceph` (ceph.dfy) | `Ceph.buildCommand`, the `CephJsonProtocol` object and its `processEnded` dispatch, `Ceph.states`, and the one-hot state encoding shared by the `pg dump` and `mds dump` collectors |
| `PgDump` (pg_dump.dfy) | `pgid_to_pool` and `CephPgDump.processData` |
| `Status` (status.dfy) | `CephStatus.processData`: reported counts, then zero-fill of the known states not reported |
| `OsdDump` (osd_dump.dfy) | `CephOsdDump.processData`: five samples per pool, then five per OSD with the down/out complements |
| `MdsDump` (mds_dump.dfy) | `CephMdsDump.processData`, as written and as intended |
| `Legacy` (legacy.dfy) | the older single-file `ceph_exporter.py`: the unguarded `Sample` constructor and its `CephStatus` |

Each collector follows one pattern:
- a specification function (for example `PgDump.PgDumpObservations`) lists the `(metric, labels, value)` observations of one run, in recording order;
- a method with the source's loops (`PgDump.CollectPgDump`) is proved to produce exactly that list;
- `ProcessData` records the list in the registry with `Registry.RecordAll`, and its postcondition gives the registry's new value;
- lemmas state the properties the code promises about the list: counts, one-hot encoding, scaling, label layout and order.

Conventions:
- Times are integer milliseconds since the epoch, and a run's observations all carry the run's timestamp.
- Sample values are integers.
- A label's value is `Option<string>`, because `pgid_to_pool` can put `None` into a label.
- A Python exception is a `None` result, a `false` flag or a `stopped` index, so the state left behind is stated.
- Decoded JSON documents are records. The string-keyed objects the collectors index by lists of keys are maps; the keys indexed unconditionally are required to be present.

## Model

| member | source | states |
|---|---|---|
| Text.DecimalRoundTrip | ceph_exporter/prometheus.py:56-58 | the decimal text of an integer (sample values, ms timestamps, ids) is non-empty, has no space or newline, and reads back as the same integer |
| Text.SortedUnique | ceph_exporter/server.py:40 | two strictly sorted sequences with the same elements are equal, so `sorted` of a key set is determined by the set |
| Prometheus.EscapeIsCharwise | ceph_exporter/prometheus.py:29-30 | because backslash is replaced first, the three chained replaces equal one per-character substitution |
| Prometheus.EscapeCharMap | ceph_exporter/test/test_prometheus.py:27-41 | backslash becomes two backslashes, a quote becomes backslash-quote, a newline becomes backslash-n, and every other character is unchanged |
| Prometheus.EscapeAppend | ceph_exporter/prometheus.py:30 | escaping a concatenation escapes each part |
| Prometheus.EscapeShape | ceph_exporter/prometheus.py:30 | escaped text holds no raw newline and is longer by exactly the number of backslash, quote and newline characters |
| Prometheus.EscapeRoundTrip | ceph_exporter/prometheus.py:29-30 | unescaping recovers the original value, so distinct label values stay distinct on the wire |
| Prometheus.LabelTextReadsBack | ceph_exporter/prometheus.py:37-38 | a label renders as its name, `="`, the escaped value and `"`, and the quoted part reads back as the value |
| Prometheus.LabelExample | ceph_exporter/test/test_prometheus.py:52-54 | `Label('a', 'b')` renders as `a="b"` |
| Prometheus.SampleTextFields | ceph_exporter/prometheus.py:52-59 | a sample renders iff every label has a value; the text starts with `{` iff there are labels; its last field reads back as the timestamp when there is one, and as the value otherwise |
| Prometheus.SampleTextNoNewline | ceph_exporter/prometheus.py:52-59 | with newline-free label names, a sample's text has no newline |
| Prometheus.SweepKeepsExactly | ceph_exporter/prometheus.py:61-62 | the sweep keeps each sample younger than 500 s as often as it occurs and drops every other sample (`isExpired` is the keep test) |
| Prometheus.SweepAppend | ceph_exporter/prometheus.py:82 | the sweep keeps survivors in order: sweeping a concatenation sweeps each part |
| Prometheus.SweepIdempotent | ceph_exporter/prometheus.py:82 | sweeping twice with the same clock equals sweeping once |
| Prometheus.SweepWindowExample | ceph_exporter/prometheus.py:61-62 | a sample stamped t survives a sweep at t + 400 s and is removed by one at t + 600 s |
| Prometheus.SortByTimePermutes | ceph_exporter/prometheus.py:90 | the sorted samples are a permutation of the input |
| Prometheus.SortByTimeCorrect | ceph_exporter/prometheus.py:90 | the sort permutes the samples into ascending millisecond timestamp order and keeps samples with equal timestamps in insertion order (stable `sorted`) |
| Prometheus.FamilyTextEmpty | ceph_exporter/prometheus.py:84-89 | a metric without samples renders as its header lines alone |
| Prometheus.GaugeHeaderExample | ceph_exporter/prometheus.py:86-89 | with help `H` and type `gauge` the header is `# HELP name H` then `# TYPE name gauge`, each newline-terminated |
| Prometheus.HeaderLineCount | ceph_exporter/prometheus.py:86-89 | the header has one line for help and one for type, each present iff the field is not None |
| Prometheus.LinesCount | ceph_exporter/prometheus.py:90-91 | the sample part has exactly one line per sample |
| Prometheus.FamilyTextLineCount | ceph_exporter/prometheus.py:84-94 | a metric's text has one line per header present plus one line per sample |
| MetricRegistry.PushEffect | ceph_exporter/prometheus.py:47-50 | a sample for an undeclared name changes nothing; for a declared name it is appended to exactly that metric, and every other metric and the set of names are unchanged |
| MetricRegistry.PushAllEffect | ceph_exporter/prometheus.py:96-97 | after a run each metric has gained exactly the samples observed under its name, in observation order, and no name is added or removed |
| MetricRegistry.PushAllUnknownOnly | ceph_exporter/prometheus.py:47-49 | observations under undeclared names leave the registry unchanged |
| MetricRegistry.AppendLines | ceph_exporter/prometheus.py:90-91 | the formatting loop yields the prefix followed by one line per sample, and fails iff some sample has a label without a value |
| MetricRegistry.Metric.constructor | ceph_exporter/prometheus.py:67-76 | a new metric has no samples and is registered under its name, replacing any earlier metric of that name |
| MetricRegistry.Metric.AddSample | ceph_exporter/prometheus.py:96-97 | the sample is appended at the end of the list |
| MetricRegistry.Metric.ExpireSamples | ceph_exporter/prometheus.py:78-82 | the list becomes its sweep at `now`; an unstamped sample makes the comparison raise, and the list is then unchanged |
| MetricRegistry.Metric.HeaderText | ceph_exporter/prometheus.py:85-89 | the header is the `# HELP` line when help is set, then the `# TYPE` line when the type is set |
| MetricRegistry.CheckStamped | ceph_exporter/prometheus.py:90 | the sort key can be computed iff every sample has a timestamp; otherwise the samples cannot be rendered |
| MetricRegistry.Metric.Fmt | ceph_exporter/prometheus.py:84-94 | returns the metric's text and empties the sample list; when a sample cannot be printed the call fails and the list is kept |
| MetricRegistry.Registry.constructor | ceph_exporter/prometheus.py:27 | the registry starts empty |
| MetricRegistry.Registry.Record | ceph_exporter/prometheus.py:42-50 | the `Sample` constructor's effect on the registry is `Push`; an undeclared name is dropped |
| MetricRegistry.Registry.RecordStrict | ceph_exporter.py:37-43 | the unguarded constructor raises iff the name is undeclared, and then appends nothing |
| MetricRegistry.Registry.FmtMetric | ceph_exporter/server.py:42 | rendering one metric yields its text and empties only that metric, or fails and changes nothing |
| MetricRegistry.Registry.RecordAll | ceph_exporter/prometheus.py:42-50 | recording a run's observations in order gives `PushAll` of the old registry |
| MetricRegistry.DeclaredPrefix | ceph_exporter.py:37-43 | the length of the longest leading run of observations whose names are declared: every name before it is declared, and the one at it (if any) is not |
| MetricRegistry.Registry.RecordAllStrict | ceph_exporter.py:37-43 | the unguarded run records every observation when all names are declared; otherwise it stops at the first undeclared name, with exactly the observations before it recorded |
| Server.SortedNames | ceph_exporter/server.py:40 | the names are the keys in strictly ascending order, each once |
| Server.RenderOne | ceph_exporter/server.py:42 | one loop step: that metric's text is produced and it alone is emptied, or rendering fails |
| Server.RenderEach | ceph_exporter/server.py:41-42 | the loop yields the metrics' texts in name order; the metrics rendered before a failure are emptied and the rest are untouched |
| Server.RenderMetrics | ceph_exporter/server.py:36-44 | the page is the concatenation of every metric's text in sorted name order; afterwards the registry is `AfterRender` of its old value, with the same key set |
| Server.ExpositionDefined | ceph_exporter/server.py:39-43 | the page is produced iff every sample of every metric can be printed |
| Server.ExpositionLayout | ceph_exporter/server.py:39-43 | a page lists every registered metric exactly once, in ascending name order, each by its full text, including metrics without samples (their header lines) |
| Server.AfterRenderClearsAll | ceph_exporter/server.py:41-42 | after a successful render every metric is still registered and has no samples |
| Server.AfterFailedRender | ceph_exporter/server.py:40-42 | when a metric cannot be rendered, the metrics sorted before it are emptied and it and all later ones keep their samples |
| Server.RenderAgainHeadersOnly | ceph_exporter/prometheus.py:93 | rendering again right after a successful render gives each metric's header lines only |
| Ceph.BuildCommandShape | ceph_exporter/ceph/__init__.py:157-166 | the real command is `ceph`, the three option pairs, the subcommand, then `--format json`, so its length is 9 plus the subcommand's; the short command is `ceph` followed by the subcommand |
| Ceph.PgDumpCommandLabel | ceph_exporter/ceph/__init__.py:164 | the runtime sample of `pg dump` is labelled `command="ceph pg dump"` |
| Ceph.MidpointBetween | ceph_exporter/ceph/__init__.py:83-84 | the recorded timestamp lies between start and end and splits the interval evenly to the millisecond |
| Ceph.EndedOutcome | ceph_exporter/ceph/__init__.py:71-105 | samples are recorded iff the process exited normally and its output decoded, and then they are exactly `ceph{fsid} 1` and `ceph_command_runtime{fsid,command}` with the run time, and the data is delivered with the midpoint time; a decoding failure goes to the errback; every other ending fires the callback with None |
| Ceph.TerminatedNeverFires | ceph_exporter/ceph/__init__.py:76-81 | as written, a process that exits non-zero or is killed fires neither callback nor errback; every other ending is as intended |
| Ceph.JsonProtocol.constructor | ceph_exporter/ceph/__init__.py:41-47 | a protocol starts with no output, no error output and no times |
| Ceph.JsonProtocol.ConnectionMade | ceph_exporter/ceph/__init__.py:49-51 | the start time is set; nothing else changes |
| Ceph.JsonProtocol.OutReceived | ceph_exporter/ceph/__init__.py:53-54 | the chunk is appended, so the joined output grows by exactly that chunk |
| Ceph.JsonProtocol.ErrReceived | ceph_exporter/ceph/__init__.py:56-57 | the error chunk is appended; nothing else changes |
| Ceph.JsonProtocol.OutConnectionLost | ceph_exporter/ceph/__init__.py:62-63 | the end time is set; nothing else changes |
| Ceph.JsonProtocol.ProcessEnded | ceph_exporter/ceph/__init__.py:71-105 | the Deferred's fate and the registry's new value are those of the intended dispatch on the joined output, with the samples stamped at the midpoint |
| Ceph.StateObs | ceph_exporter/ceph/commands/ceph_pg_dump.py:215-226 | one sample per listed state in list order, labelled with that state, valued 1 iff it is the entity's state |
| Ceph.StateObsOneHot | ceph_exporter/ceph/commands/ceph_pg_dump.py:215-226 | over distinct states, the number of 1-valued samples is 1 if the state is listed and 0 otherwise |
| Ceph.KnownStatesDistinct | ceph_exporter/ceph/__init__.py:112-149 | the 38 known states, a Python set, list no state twice |
| PgDump.KnownStatesOneHot | ceph_exporter/ceph/commands/ceph_pg_dump.py:215-235 | over the known states a run uses, each pg's state samples hold exactly one 1, labelled with its own state, one sample per known state plus one only for an unknown state |
| Ceph.OneHotExactlyOne | ceph_exporter/ceph/commands/ceph_pg_dump.py:215-235 | one sample per listed state plus one only for an unlisted state; all values are 0 or 1, exactly one is 1, and it is labelled with the entity's own state |
| Ceph.CollectOneHot | ceph_exporter/ceph/commands/ceph_mds_dump.py:47-70 | the state loop and the unknown-state check record exactly the one-hot encoding |
| PgDump.PgidToPoolMatches | ceph_exporter/ceph/commands/ceph_pg_dump.py:49-55 | the result is `pool` iff the id is `pool`, a dot, and a second group, both non-empty and hexadecimal in either case; otherwise None |
| PgDump.PgidToPoolPrefix | ceph_exporter/ceph/commands/ceph_pg_dump.py:49-55 | a pool is a non-empty proper prefix of the id, followed there by a dot, and contains no dot |
| PgDump.PgidExamples | ceph_exporter/ceph/commands/test/test_ceph_pg_dump.py:34-37 | `8.4c` gives pool `8` (the test's case) and, the match ignoring case, `1F.A0` gives pool `1F` |
| PgDump.MalformedPgidExamples | ceph_exporter/ceph/commands/ceph_pg_dump.py:49-55 | `8.4c.1`, `8.` and `x.1` give no pool |
| PgDump.TypedObs | ceph_exporter/ceph/commands/ceph_pg_dump.py:64-78 | one sample per (key, type) pair, in list order, labelled with the type and valued field × scale |
| PgDump.DirectionObs | ceph_exporter/ceph/commands/ceph_pg_dump.py:80-91 | for each direction an ops sample, then a bytes sample whose value is the `_kb` field × 1024 |
| PgDump.RecoveredObs | ceph_exporter/ceph/commands/ceph_pg_dump.py:183-190 | one `ceph_<stat>_recovered` sample per stat, carrying `num_<stat>_recovered` |
| PgDump.StampObs | ceph_exporter/ceph/commands/ceph_pg_dump.py:192-213 | at most one sample per listed event, each a `ceph_pg_timestamp` labelled with the pg labels plus one more label |
| PgDump.StampObsSound | ceph_exporter/ceph/commands/ceph_pg_dump.py:192-213 | every event-time sample belongs to a listed event present in the pg, is labelled `event=<stat>` after the pg labels and carries that event's stamp |
| PgDump.StampObsComplete | ceph_exporter/ceph/commands/ceph_pg_dump.py:192-213 | every listed event the pg carries gets its event-time sample |
| PgDump.StampObsAllPresent | ceph_exporter/ceph/commands/ceph_pg_dump.py:192-213 | with every listed event present, there is exactly one sample per event |
| PgDump.StateObsShape | ceph_exporter/ceph/commands/ceph_pg_dump.py:215-235 | the pg state samples name the cluster first and are not object counters |
| PgDump.OsdObsShape | ceph_exporter/ceph/commands/ceph_pg_dump.py:93-129 | each OSD yields 7 samples, all naming the cluster first; the available and used storage are the `kb` fields × 1024 |
| PgDump.PgObsShape | ceph_exporter/ceph/commands/ceph_pg_dump.py:131-235 | each pg yields 17 samples, plus its event stamps, plus as many state samples as known states, or one more for an unknown state; all name the cluster first |
| PgDump.OsdsObsShape | ceph_exporter/ceph/commands/ceph_pg_dump.py:93-129 | the OSD section names the cluster first in every sample and holds no cluster-wide object counter |
| PgDump.PgsObsShape | ceph_exporter/ceph/commands/ceph_pg_dump.py:131-235 | the pg section names the cluster first in every sample and holds no cluster-wide object counter |
| PgDump.PgDumpClusterFirst | ceph_exporter/ceph/commands/ceph_pg_dump.py:64-78 | a run starts with the eight cluster-wide object counters, in list order |
| PgDump.PgDumpClusterIo | ceph_exporter/ceph/commands/ceph_pg_dump.py:80-91 | next come the cluster read and write counters, ops then bytes, with bytes = KiB × 1024 |
| PgDump.PgDumpCounts | ceph_exporter/ceph/commands/ceph_pg_dump.py:61-235 | a run has exactly eight cluster-wide object counters, and every sample's first label is the cluster's fsid |
| PgDump.CollectTyped | ceph_exporter/ceph/commands/ceph_pg_dump.py:64-78 | the (key, type) loop records exactly `TypedObs` |
| PgDump.CollectDirections | ceph_exporter/ceph/commands/ceph_pg_dump.py:80-91 | the direction loop records exactly `DirectionObs` |
| PgDump.CollectRecovered | ceph_exporter/ceph/commands/ceph_pg_dump.py:183-190 | the recovered loop records exactly `RecoveredObs` |
| PgDump.CollectStamps | ceph_exporter/ceph/commands/ceph_pg_dump.py:192-213 | the event loop records exactly `StampObs` |
| PgDump.CollectOsd | ceph_exporter/ceph/commands/ceph_pg_dump.py:94-129 | one OSD's body records exactly `OsdObs` |
| PgDump.CollectPg | ceph_exporter/ceph/commands/ceph_pg_dump.py:132-235 | one pg's body records exactly `PgObs` |
| PgDump.CollectOsds | ceph_exporter/ceph/commands/ceph_pg_dump.py:93-129 | the OSD loop records the OSDs' samples in order |
| PgDump.CollectPgs | ceph_exporter/ceph/commands/ceph_pg_dump.py:131-235 | the pg loop records the pgs' samples in order |
| PgDump.CollectPgDump | ceph_exporter/ceph/commands/ceph_pg_dump.py:61-235 | the whole run records exactly `PgDumpObservations` |
| PgDump.ProcessData | ceph_exporter/ceph/commands/ceph_pg_dump.py:61-235 | the registry becomes `PushAll` of the run's observations over the known states |
| Status.Discard | ceph_exporter/ceph/commands/ceph_status.py:42 | `discard` removes exactly that element, keeps the set duplicate-free, and is a no-op for an absent element |
| Status.UnreportedIs | ceph_exporter/ceph/commands/ceph_status.py:38-42 | after the loop the working copy holds exactly the known states not reported, without repeats |
| Status.ReportedObs | ceph_exporter/ceph/commands/ceph_status.py:39-47 | one sample per report entry, in report order, labelled with its state and carrying its count |
| Status.ZeroFillObs | ceph_exporter/ceph/commands/ceph_status.py:48-53 | one 0-valued sample per remaining state, in order |
| Status.ReportedValues | ceph_exporter/ceph/commands/ceph_status.py:39-47 | the samples labelled with a state carry exactly the counts reported for it, in report order |
| Status.ZeroFillValues | ceph_exporter/ceph/commands/ceph_status.py:48-53 | over distinct states, a state gets one 0 sample if it remains and none otherwise |
| Status.PerStateValues | ceph_exporter/ceph/commands/ceph_status.py:38-53 | within the per-state section, a state's samples are its reported counts in report order, then one 0 iff it is known and not reported |
| Status.StatusStateValues | ceph_exporter/ceph/commands/ceph_status.py:38-53 | a state's samples are its reported counts in order, followed by one 0 iff it is known and not reported |
| Status.KnownStatesZeroFill | ceph_exporter/ceph/commands/ceph_status.py:48-53 | over the known states a run uses, each one the report leaves out gets exactly one sample, valued 0 |
| Status.StatusZeroFill | ceph_exporter/ceph/commands/ceph_status.py:48-53 | a known state not reported gets exactly one sample, valued 0; a state gets any sample iff it is known or reported |
| Status.StatusLayout | ceph_exporter/ceph/commands/ceph_status.py:39-58 | the run opens with the report entries in order and ends with the single pgmap version sample; all others are per-state samples |
| Status.CollectReported | ceph_exporter/ceph/commands/ceph_status.py:38-47 | the per-state loop records `ReportedObs` and leaves the working copy equal to the unreported states |
| Status.CollectZeroFill | ceph_exporter/ceph/commands/ceph_status.py:48-53 | the zero-fill loop records exactly `ZeroFillObs` |
| Status.CollectStatus | ceph_exporter/ceph/commands/ceph_status.py:35-58 | the whole run records exactly `StatusObservations` |
| Status.ProcessData | ceph_exporter/ceph/commands/ceph_status.py:35-58 | the registry becomes `PushAll` of the run's observations over the known states |
| OsdDump.PoolsObs | ceph_exporter/ceph/commands/ceph_osd_dump.py:47-77 | block j of five samples is pool j's |
| OsdDump.OsdsObs | ceph_exporter/ceph/commands/ceph_osd_dump.py:79-104 | block j of five samples is OSD j's |
| OsdDump.PoolBlocks | ceph_exporter/ceph/commands/ceph_osd_dump.py:47-77 | a run has five samples per pool and per OSD; each pool block is presence 1, size, min_size, pg_num and pgp_num, labelled fsid, decimal pool id and name |
| OsdDump.OsdBlocks | ceph_exporter/ceph/commands/ceph_osd_dump.py:79-104 | the OSD blocks follow all pool blocks; each is presence 1, up, down, in, out, labelled fsid and decimal OSD id, with up + down = 1 and in + out = 1 |
| OsdDump.CollectPools | ceph_exporter/ceph/commands/ceph_osd_dump.py:47-77 | the pool loop records exactly `PoolsObs` |
| OsdDump.CollectOsds | ceph_exporter/ceph/commands/ceph_osd_dump.py:79-104 | the OSD loop records exactly `OsdsObs` |
| OsdDump.CollectOsdDump | ceph_exporter/ceph/commands/ceph_osd_dump.py:44-104 | the whole run records exactly `OsdDumpObservations` |
| OsdDump.ProcessData | ceph_exporter/ceph/commands/ceph_osd_dump.py:44-104 | the registry becomes `PushAll` of the run's observations |
| MdsDump.MdsBlock | ceph_exporter/ceph/commands/ceph_mds_dump.py:46-87 | each daemon yields 3 state samples when its state is one of the three listed, 4 otherwise; exactly one is 1, labelled fsid, gid, rank, name and its own state; then one laggy sample, valued the laggy time or the run's time in seconds |
| MdsDump.MdsDumpCounts | ceph_exporter/ceph/commands/ceph_mds_dump.py:40-87 | a run starts with the `ceph_epoch{type="mds"}` sample and has exactly one 1-valued state sample and one laggy sample per daemon |
| MdsDump.CollectMdss | ceph_exporter/ceph/commands/ceph_mds_dump.py:46-87 | the daemon loop records exactly the intended samples |
| MdsDump.CollectMdsDump | ceph_exporter/ceph/commands/ceph_mds_dump.py:37-87 | the whole run records the epoch and then the daemons' samples |
| MdsDump.ProcessData | ceph_exporter/ceph/commands/ceph_mds_dump.py:37-87 | the registry becomes `PushAll` of the intended observations |
| MdsDump.AsWrittenAgrees | ceph_exporter/ceph/commands/ceph_mds_dump.py:80-87 | without `laggy_since` the code as written records what is intended and does not raise |
| MdsDump.LaggyStopsRun | ceph_exporter/ceph/commands/ceph_mds_dump.py:72-79 | as written, the first daemon with `laggy_since` gets its state samples and then the run raises, so its laggy sample and all later daemons are lost |
| MdsDump.LaggyDaemonLosesSample | ceph_exporter/ceph/commands/ceph_mds_dump.py:72-79 | for one laggy daemon the intended run records five samples ending with the laggy time; the code as written records four, none of them laggy, and raises |
| Legacy.CollectReportedGuarded | ceph_exporter.py:553-560 | the loop with `remove` guarded by membership records each entry and leaves the same working copy as `discard` would, so a state reported twice causes no error |
| Legacy.CollectLegacyStatus | ceph_exporter.py:529-571 | the older run records the `ceph` presence sample, the reported counts, the zero-fill and the version, in that order |
| Legacy.ProcessData | ceph_exporter.py:529-571 | over the unguarded registry the run records all its observations, or stops at the first undeclared name with exactly the earlier ones recorded; with its three metric names declared it never stops |
| Legacy.LegacyMetrics | ceph_exporter.py:532-571 | the run opens with the presence sample, closes with the version, and uses only the names `ceph`, `ceph_pgs_by_state` and `ceph_pgmap_version` |
| Legacy.LegacyStateValues | ceph_exporter.py:537-566 | a state's samples are all its reported counts in order, then one 0 iff it is listed and not reported |
| Legacy.LegacyZeroFillOnce | ceph_exporter.py:537-566 | each of the sixteen listed states not reported gets exactly one sample, valued 0 |

The older `ceph_exporter.py` repeats the package's formatting code with the same behaviour:
- `escape` (lines 24-25);
- `Label.fmt` (32-33);
- `Sample.fmt` (45-52);
- `isExpired` (54-55);
- the `Metric` constructor (60-69);
- `expireSamples` (71-75);
- `Metric.fmt` (77-87);
- the page loop (581-589).

The members above for those operations model both copies.

## Left out

- Twisted scheduling is not modelled: `reactor.callLater` rescheduling of `getData` and `expireSamples`, `callWhenRunning`, `spawnProcess`, `closeStdin`. Sweeps and collector runs are plain method calls, and the clock is a parameter.
- Deferred chaining is not modelled: `processEnded` returns the delivery as a value, and the collector's `ProcessData` is a separate method taking the decoded document and timestamp. `Ceph.getData` and `Ceph.processError`, which only wire the callbacks and log, are not part of this model.
- Process I/O is abstract. The UTF-8 decode plus `json.loads` is a function parameter of `Ceph.JsonProtocol.ProcessEnded`, and the collectors take typed records.
- Ceph.JsonProtocol.ProcessEnded: requires both times to be set on a normal exit. Twisted calls `connectionMade` and `outConnectionLost` before `processEnded`, and the source relies on that.
- Missing JSON keys are not modelled. `PgDump.ProcessData` requires every unconditionally indexed key to be present (`ReportComplete`). The source would raise `KeyError` part-way through a run, keeping the samples recorded before it.
- Floating point is not modelled.
  - Timestamps are integer milliseconds, not `round(float_timestamp * 1000)`.
  - Ceph.RunObservations: `ceph_command_runtime` carries the run time in milliseconds, not `total_seconds()` as a float.
  - PgDump.OsdObs: the OSD latencies carry the milliseconds field, not milliseconds / 1000.0 as a float.
- Ceph.Midpoint: rounds down to the millisecond, whereas the source halves a `timedelta` to the microsecond.
- Date parsing is not modelled. `arrow.get(...).replace(tzinfo=tzlocal())` for pg event stamps and for `laggy_since` is taken as already done: the records carry the resulting numbers.
- MdsDump.LaggyObs: without `laggy_since` the value is the run's timestamp in whole seconds (rounded down), not the float `float_timestamp`.
- Set iteration order: `Ceph.states`, the working copies in the status collectors, and the values of the `info` object are modelled as sequences, whose order stands for Python's iteration order.
- Label equality: the source's `Label` class defines no `__eq__`, but its tests rely on structural equality, which a Dafny datatype has.
- A `None` label value (from `pgid_to_pool`) is kept as `None`. Rendering such a sample fails, as `escape(None)` does.
- Logging calls are not modelled; only their absence of effect on the registry is.
- Not part of this model:
  - the metric declaration modules under `ceph/metrics/`: a fresh registry is built with `MetricRegistry.Metric.constructor`;
  - `ceph_df.py` and `ceph_quorum_status.py`;
  - `main.py`, HTTP serving (`Site`, endpoints, Content-Type headers, gzip);
  - the root page's headers. Its body is the constant `Server.RootPageBody`.
- In the older `ceph_exporter.py`, the collectors other than `CephStatus` are not part of this model, nor is its `CephJsonProtocol` (which has the same undefined `err_data` at line 133), nor its module-level start-up script.

## Findings

| source | as written | input that shows it | evidently intended | confidence | as-written member | corrected member |
|---|---|---|---|---|---|---|
| ceph_exporter/ceph/__init__.py:79 | the termination branch logs `b''.join(err_data)`, a name not defined in `processEnded`, so it raises `NameError` before `self.finished.callback(None)` | any run whose process ends with `ProcessTerminated` (any non-zero exit of `ceph`, such as unreachable monitors or a bad keyring, or a killed one) | log `self.err_data` and fire the callback with `None`, like the other failure branch | not executed | Ceph.EndedAsWritten, Ceph.TerminatedNeverFires | Ceph.Ended, Ceph.EndedOutcome |
| ceph_exporter/ceph/commands/ceph_mds_dump.py:78 | the `laggy_since` branch calls `arrow.get` and `tzlocal`, which the module never imports, so it raises `NameError` after the daemon's state samples; the run's remaining samples are lost | `mds dump` with one daemon `{gid 1, rank 0, name "a", state "up:active", laggy_since …}` | record `ceph_mds_laggy_since` with the parsed time and go on with the next daemon | not executed | MdsDump.MdsDumpObservationsAsWritten, MdsDump.LaggyStopsRun, MdsDump.LaggyDaemonLosesSample | MdsDump.MdsDumpObservations, MdsDump.MdsBlock |
