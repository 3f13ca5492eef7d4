/**
  ceph_exporter/ceph/__init__.py: the command line a collector runs, the
  process protocol that gathers its output, and the dispatch when the
  process ends: which way the collector's Deferred fires and which
  bookkeeping samples (`ceph`, `ceph_command_runtime`) are recorded.

  Times are integer milliseconds. The decoder (`b''.join`, UTF-8 decode,
  `json.loads`) is a parameter: a function from the collected bytes to a
  decoded document, `None` when decoding raises `ValueError`.
 */
module Ceph {
  import opened Wrappers
  import opened Text
  import opened Prometheus
  import opened MetricRegistry

  // ===========================================================================
  // Shared by the collectors

  /**
    `Ceph.states`, the placement-group states every collector knows. Python
    keeps them in a set; the model keeps them in a duplicate-free sequence
    whose order stands for the set's iteration order.
   */
  const KnownStates: seq<string> := [
    "activating",
    "activating+degraded",
    "activating+degraded+remapped",
    "activating+remapped",
    "activating+undersized+degraded",
    "activating+undersized+degraded+remapped",
    "active",
    "active+clean",
    "active+clean+inconsistent",
    "active+clean+scrubbing",
    "active+clean+scrubbing+deep",
    "active+clean+scrubbing+deep+inconsistent+repair",
    "active+degraded",
    "active+degraded+remapped",
    "active+degraded+remapped+backfilling",
    "active+recovering+degraded",
    "active+recovering+degraded+remapped",
    "active+recovery_wait+degraded",
    "active+recovery_wait+degraded+remapped",
    "active+remapped",
    "active+remapped+backfill_toofull",
    "active+remapped+backfilling",
    "active+remapped+wait_backfill",
    "active+remapped+wait_backfill+backfill_toofull",
    "active+undersized+degraded",
    "active+undersized+degraded+remapped",
    "active+undersized+degraded+remapped+backfill_toofull",
    "active+undersized+degraded+remapped+backfilling",
    "active+undersized+degraded+remapped+wait_backfill",
    "active+undersized+degraded+remapped+wait_backfill+backfill_toofull",
    "active+undersized+remapped",
    "creating",
    "inactive",
    "peering",
    "remapped",
    "remapped+peering",
    "stale+active+clean",
    "stale+active+remapped+backfilling"
  ]

  /** No element repeats: what a Python set guarantees of its iteration. */
  predicate Distinct(xs: seq<string>) {
    forall i, j :: 0 <= i < j < |xs| ==> xs[i] != xs[j]
  }

  /** The known states are a set: no state is listed twice. */
  lemma KnownStatesDistinct()
    ensures Distinct(KnownStates)
  {
    KnownStatesDistinctRows0();
    KnownStatesDistinctRows3();
    KnownStatesDistinctRows7();
    KnownStatesDistinctRows16();
  }

  // The pairwise comparison, split by the position of the earlier state so
  // that each part stays small for the solver.

  lemma KnownStatesDistinctRows0()
    ensures forall i, j :: 0 <= i < 3 && i < j < |KnownStates| ==> KnownStates[i] != KnownStates[j]
  {
  }

  lemma KnownStatesDistinctRows3()
    ensures forall i, j :: 3 <= i < 7 && i < j < |KnownStates| ==> KnownStates[i] != KnownStates[j]
  {
  }

  lemma KnownStatesDistinctRows7()
    ensures forall i, j :: 7 <= i < 16 && i < j < |KnownStates| ==> KnownStates[i] != KnownStates[j]
  {
  }

  lemma KnownStatesDistinctRows16()
    ensures forall i, j :: 16 <= i < j < |KnownStates| ==> KnownStates[i] != KnownStates[j]
  {
  }

  /** The label every collector puts first. */
  function FsidLabel(fsid: string): Label {
    StrLabel("fsid", fsid)
  }

  // ---------------------------------------------------------------------------
  // One-hot state encoding (placement groups in `pg dump`, MDS daemons in `mds dump`)

  /** One sample per listed state: 1 for the entity's own state, 0 for the others. */
  function StateObs(metric: string, labels: seq<Label>, states: seq<string>, state: string): (r: seq<Observation>)
    ensures |r| == |states|
    ensures forall k :: 0 <= k < |states| ==>
      r[k] == Observation(metric, labels + [StrLabel("state", states[k])], if states[k] == state then 1 else 0)
  {
    if states == [] then []
    else
      var s := states[|states| - 1];
      StateObs(metric, labels, states[..|states| - 1], state)
        + [Observation(metric, labels + [StrLabel("state", s)], if s == state then 1 else 0)]
  }

  /** The state samples, plus a 1-valued sample for a state outside the list. */
  function OneHotObs(metric: string, labels: seq<Label>, states: seq<string>, state: string): seq<Observation> {
    StateObs(metric, labels, states, state)
      + (if state !in states then [Observation(metric, labels + [StrLabel("state", state)], 1)] else [])
  }

  /** How many observations carry the value `v`. */
  function CountValue(obs: seq<Observation>, v: int): nat {
    if obs == [] then 0
    else CountValue(obs[..|obs| - 1], v) + (if obs[|obs| - 1].value == v then 1 else 0)
  }

  lemma {:induction false} CountValueAppend(a: seq<Observation>, b: seq<Observation>, v: int)
    ensures CountValue(a + b, v) == CountValue(a, v) + CountValue(b, v)
    decreases |b|
  {
    if b == [] {
      assert a + b == a;
    } else {
      assert (a + b)[..|a + b| - 1] == a + b[..|b| - 1];
      CountValueAppend(a, b[..|b| - 1], v);
    }
  }

  /** Over distinct listed states, at most the entity's own state is marked 1. */
  lemma {:induction false} StateObsOneHot(metric: string, labels: seq<Label>, states: seq<string>, state: string)
    requires Distinct(states)
    ensures CountValue(StateObs(metric, labels, states, state), 1) == if state in states then 1 else 0
  {
    if states != [] {
      var init, last := states[..|states| - 1], states[|states| - 1];
      assert states == init + [last];
      StateObsOneHot(metric, labels, init, state);
      var x := Observation(metric, labels + [StrLabel("state", last)], if last == state then 1 else 0);
      CountValueAppend(StateObs(metric, labels, init, state), [x], 1);
      assert CountValue([x], 1) == CountValue([x][..0], 1) + (if last == state then 1 else 0);
      if last == state {
        assert forall k :: 0 <= k < |init| ==> init[k] != last;
      }
    }
  }

  /**
    One sample per listed state and one more only when the entity's state is
    not listed; all are 0 or 1, exactly one is 1, and that one is labelled
    with the entity's own state.
   */
  lemma OneHotExactlyOne(metric: string, labels: seq<Label>, states: seq<string>, state: string)
    requires Distinct(states)
    ensures var r := OneHotObs(metric, labels, states, state);
      && |r| == (if state in states then |states| else |states| + 1)
      && CountValue(r, 1) == 1
      && (forall i :: 0 <= i < |r| ==> r[i].metric == metric && 0 <= r[i].value <= 1)
      && (forall i :: 0 <= i < |r| && r[i].value == 1 ==> r[i].labels == labels + [StrLabel("state", state)])
  {
    var base := StateObs(metric, labels, states, state);
    StateObsOneHot(metric, labels, states, state);
    if state !in states {
      var x := Observation(metric, labels + [StrLabel("state", state)], 1);
      CountValueAppend(base, [x], 1);
      assert CountValue([x], 1) == CountValue([x][..0], 1) + 1;
    } else {
      assert OneHotObs(metric, labels, states, state) == base;
    }
  }

  /** The state loop and the unknown-state check that follows it. */
  method CollectOneHot(metric: string, labels: seq<Label>, states: seq<string>, state: string)
    returns (obs: seq<Observation>)
    ensures obs == OneHotObs(metric, labels, states, state)
  {
    obs := [];
    for i := 0 to |states|
      invariant obs == StateObs(metric, labels, states[..i], state)
    {
      assert states[..i + 1][..i] == states[..i];
      var value := if state == states[i] then 1 else 0;
      obs := obs + [Observation(metric, labels + [StrLabel("state", states[i])], value)];
    }
    assert states[..|states|] == states;
    if state !in states {
      obs := obs + [Observation(metric, labels + [StrLabel("state", state)], 1)];
    }
  }

  // ===========================================================================
  // Ceph.buildCommand

  /** The command-line options a collector is started with. */
  datatype Options = Options(config: string, keyring: string, name: string)

  /** The argument vector that is executed and the short form used as a label. */
  datatype Command = Command(argv: seq<string>, short: seq<string>)

  function BuildCommand(opts: Options, subcommand: seq<string>): Command {
    Command(["ceph", "--conf", opts.config, "--keyring", opts.keyring, "--name", opts.name]
            + subcommand + ["--format", "json"],
            ["ceph"] + subcommand)
  }

  /**
    The real command has nine words besides the subcommand: the program,
    three flag/value pairs, the subcommand, then JSON output. The short
    command is the real one with the options and the format request cut out.
   */
  lemma BuildCommandShape(opts: Options, subcommand: seq<string>)
    ensures var c := BuildCommand(opts, subcommand);
      && |c.argv| == 9 + |subcommand|
      && c.argv[0] == "ceph"
      && c.argv[1] == "--conf" && c.argv[2] == opts.config
      && c.argv[3] == "--keyring" && c.argv[4] == opts.keyring
      && c.argv[5] == "--name" && c.argv[6] == opts.name
      && c.argv[7..|c.argv| - 2] == subcommand
      && c.argv[|c.argv| - 2..] == ["--format", "json"]
      && c.short == [c.argv[0]] + c.argv[7..|c.argv| - 2]
  {
    var c := BuildCommand(opts, subcommand);
    assert c.argv[7..|c.argv| - 2] == subcommand;
  }

  /** The `command` label of the `pg dump` collector's runtime sample. */
  lemma PgDumpCommandLabel(opts: Options)
    ensures Join(" ", BuildCommand(opts, ["pg", "dump"]).short) == "ceph pg dump"
  {
    var short := BuildCommand(opts, ["pg", "dump"]).short;
    assert short == ["ceph", "pg", "dump"];
    assert short[1..] == ["pg", "dump"] && short[1..][1..] == ["dump"];
    assert Join(" ", ["dump"]) == "dump";
    assert Join(" ", ["pg", "dump"]) == "pg" + " " + "dump";
  }

  // ===========================================================================
  // CephJsonProtocol.processEnded

  /**
    How the child process ended, as Twisted reports it: `ProcessTerminated`
    covers a non-zero exit code as well as a signal.
   */
  datatype ExitStatus = ProcessDone | ProcessTerminated | OtherReason

  /** What happens to the collector's Deferred. */
  datatype Delivery<D> =
    | Delivered(data: D, timestamp: int)  // callback((data, timestamp))
    | CallbackNone                        // callback(None)
    | Errback                             // errback(ValueError)
    | NeverFired                          // an exception escaped before either was called

  /** The Deferred's fate and the observations recorded, in order. */
  datatype Ending<D> = Ending(delivery: Delivery<D>, recorded: seq<Observation>)

  /** Half-way between start and end; floor division on milliseconds. */
  function Midpoint(start: int, end: int): int {
    start + (end - start) / 2
  }

  /** The midpoint lies between the two times and splits the interval evenly. */
  lemma MidpointBetween(start: int, end: int)
    requires start <= end
    ensures start <= Midpoint(start, end) <= end
    ensures Midpoint(start, end) - start <= end - Midpoint(start, end) <= Midpoint(start, end) - start + 1
  {
  }

  /** The two bookkeeping observations of a successful run. */
  function RunObservations(fsid: string, short: seq<string>, start: int, end: int): seq<Observation> {
    [Observation("ceph", [FsidLabel(fsid)], 1),
     Observation("ceph_command_runtime", [FsidLabel(fsid), StrLabel("command", Join(" ", short))], end - start)]
  }

  /**
    The dispatch with the termination branch doing what its last two lines
    say: a process that exits non-zero or is killed fires the Deferred with
    `None`.
   */
  function Ended<D>(status: ExitStatus, decoded: Option<D>, fsid: string, short: seq<string>,
                    start: int, end: int): Ending<D>
  {
    match status
    case OtherReason => Ending(CallbackNone, [])
    case ProcessTerminated => Ending(CallbackNone, [])
    case ProcessDone =>
      if decoded.None? then Ending(Errback, [])
      else Ending(Delivered(decoded.value, Midpoint(start, end)), RunObservations(fsid, short, start, end))
  }

  /**
    The dispatch as ceph/__init__.py:71-105 is written: the termination
    branch logs `err_data`, a name that is not defined in that scope, so it
    raises `NameError` and neither `callback` nor `errback` is reached.
   */
  function EndedAsWritten<D>(status: ExitStatus, decoded: Option<D>, fsid: string, short: seq<string>,
                             start: int, end: int): Ending<D>
  {
    if status == ProcessTerminated then Ending(NeverFired, [])
    else Ended(status, decoded, fsid, short, start, end)
  }

  /**
    Samples are recorded exactly when the process exited normally and its
    output decoded; then there are exactly the two bookkeeping samples and the
    data is delivered with the midpoint time. In every case the Deferred fires.
   */
  lemma EndedOutcome<D>(status: ExitStatus, decoded: Option<D>, fsid: string, short: seq<string>,
                        start: int, end: int)
    ensures var e := Ended(status, decoded, fsid, short, start, end);
      && e.delivery != NeverFired
      && (e.recorded != [] <==> status == ProcessDone && decoded.Some?)
      && (e.delivery.Errback? <==> status == ProcessDone && decoded.None?)
      && (e.recorded != [] ==>
            && e.delivery == Delivered(decoded.value, Midpoint(start, end))
            && |e.recorded| == 2
            && e.recorded[0] == Observation("ceph", [FsidLabel(fsid)], 1)
            && e.recorded[1].metric == "ceph_command_runtime"
            && e.recorded[1].labels == [FsidLabel(fsid), StrLabel("command", Join(" ", short))]
            && e.recorded[1].value == end - start)
  {
  }

  /**
    The as-written dispatch agrees with the intended one except for a process
    that exits non-zero or is killed, where the Deferred is never fired (so
    the collector never runs its callback or its error handler for that
    attempt).
   */
  lemma TerminatedNeverFires<D>(decoded: Option<D>, fsid: string, short: seq<string>, start: int, end: int)
    ensures EndedAsWritten(ProcessTerminated, decoded, fsid, short, start, end).delivery == NeverFired
    ensures Ended(ProcessTerminated, decoded, fsid, short, start, end).delivery == CallbackNone
    ensures forall status: ExitStatus :: status != ProcessTerminated ==>
      EndedAsWritten(status, decoded, fsid, short, start, end) == Ended(status, decoded, fsid, short, start, end)
  {
  }

  /** Concatenation of the received chunks: `b''.join(out_data)`. */
  function Concat(chunks: seq<seq<bv8>>): seq<bv8> {
    if chunks == [] then [] else Concat(chunks[..|chunks| - 1]) + chunks[|chunks| - 1]
  }

  /**
    The process protocol of one collector run. Its fields are the ones
    Twisted's callbacks update as the child process runs.
   */
  class JsonProtocol {
    const fsid: string
    const command: seq<string>
    var outData: seq<seq<bv8>>
    var errData: seq<seq<bv8>>
    var startTime: Option<int>
    var endTime: Option<int>

    constructor (fsid: string, command: seq<string>)
      ensures this.fsid == fsid && this.command == command
      ensures outData == [] && errData == [] && startTime == None && endTime == None
    {
      this.fsid := fsid;
      this.command := command;
      outData := [];
      errData := [];
      startTime := None;
      endTime := None;
    }

    /** `connectionMade`: the start time is taken when the process starts. */
    method ConnectionMade(now: int)
      modifies this
      ensures startTime == Some(now)
      ensures outData == old(outData) && errData == old(errData) && endTime == old(endTime)
    {
      startTime := Some(now);
    }

    /** `outReceived`: stdout chunks are kept in arrival order. */
    method OutReceived(data: seq<bv8>)
      modifies this
      ensures outData == old(outData) + [data]
      ensures Concat(outData) == Concat(old(outData)) + data
      ensures errData == old(errData) && startTime == old(startTime) && endTime == old(endTime)
    {
      outData := outData + [data];
    }

    /** `errReceived`: stderr chunks are kept in arrival order. */
    method ErrReceived(data: seq<bv8>)
      modifies this
      ensures errData == old(errData) + [data]
      ensures outData == old(outData) && startTime == old(startTime) && endTime == old(endTime)
    {
      errData := errData + [data];
    }

    /** `outConnectionLost`: the end time is taken when stdout closes. */
    method OutConnectionLost(now: int)
      modifies this
      ensures endTime == Some(now)
      ensures outData == old(outData) && errData == old(errData) && startTime == old(startTime)
    {
      endTime := Some(now);
    }

    /**
      `processEnded` with the termination branch corrected. Twisted calls
      `connectionMade` and `outConnectionLost` before `processEnded`, so both
      times are known when the process exits normally.
     */
    method ProcessEnded<D>(reg: Registry, status: ExitStatus, parse: seq<bv8> -> Option<D>)
      returns (d: Delivery<D>)
      requires reg.Valid()
      requires status == ProcessDone ==> startTime.Some? && endTime.Some?
      modifies reg.metrics.Values
      ensures reg.metrics == old(reg.metrics) && reg.Valid()
      ensures var e := Ended(status, parse(Concat(outData)), fsid, command, startTime.GetOr(0), endTime.GetOr(0));
        && d == e.delivery
        && reg.Snapshot() == PushAll(old(reg.Snapshot()), e.recorded, Midpoint(startTime.GetOr(0), endTime.GetOr(0)))
    {
      if status == OtherReason || status == ProcessTerminated {
        return CallbackNone;
      }
      var start := startTime.value;
      var end := endTime.value;
      var timestamp := Midpoint(start, end);
      var data := parse(Concat(outData));
      if data.None? {
        return Errback;
      }
      var presence := Observation("ceph", [FsidLabel(fsid)], 1);
      var runtime := Observation("ceph_command_runtime", [FsidLabel(fsid), StrLabel("command", Join(" ", command))], end - start);
      assert RunObservations(fsid, command, start, end) == [presence, runtime];
      ghost var before := reg.Snapshot();
      PushAllPair(before, presence, runtime, timestamp);
      reg.Record(presence.metric, presence.labels, presence.value, Some(timestamp));
      reg.Record(runtime.metric, runtime.labels, runtime.value, Some(timestamp));
      assert reg.Snapshot() == PushAll(before, RunObservations(fsid, command, start, end), timestamp);
      d := Delivered(data.value, timestamp);
    }
  }
}
