/**
  The mutable side of ceph_exporter/prometheus.py: `Metric` objects whose
  sample lists grow as collectors run and are reassigned by the sweep and by
  rendering, and the process-wide `metrics` dictionary, modelled as a
  `Registry` object handed to every component.

  `Snapshot()` is the registry as a value (name to family); every method
  states its effect on it.
 */
module MetricRegistry {
  import opened Wrappers
  import opened Prometheus

  // ===========================================================================
  // The registry as a value

  /** Recording one sample: appended to the family of that name, dropped when there is none. */
  function Push(snap: map<string, Family>, name: string, s: Sample): map<string, Family> {
    if name in snap then snap[name := snap[name].(samples := snap[name].samples + [s])] else snap
  }

  /** Recording a collector run's observations in order, all stamped `ts`. */
  function PushAll(snap: map<string, Family>, obs: seq<Observation>, ts: int): map<string, Family> {
    if obs == [] then snap
    else
      var o := obs[|obs| - 1];
      Push(PushAll(snap, obs[..|obs| - 1], ts), o.metric, Sample(o.labels, o.value, Some(ts)))
  }

  /** The samples a run adds to the family `name`, in the order they were observed. */
  function SamplesFor(name: string, obs: seq<Observation>, ts: int): seq<Sample> {
    if obs == [] then []
    else
      var o := obs[|obs| - 1];
      SamplesFor(name, obs[..|obs| - 1], ts) + (if o.metric == name then [Sample(o.labels, o.value, Some(ts))] else [])
  }

  /**
    A sample for an undeclared name changes nothing. For a declared one it
    lands at the end of exactly that family; every other family, and the set
    of names, are unchanged.
   */
  lemma PushEffect(snap: map<string, Family>, name: string, s: Sample)
    ensures name !in snap ==> Push(snap, name, s) == snap
    ensures Push(snap, name, s).Keys == snap.Keys
    ensures name in snap ==>
      && Push(snap, name, s)[name].samples == snap[name].samples + [s]
      && Push(snap, name, s)[name].(samples := snap[name].samples) == snap[name]
    ensures forall n :: n in snap && n != name ==> Push(snap, name, s)[n] == snap[n]
  {
  }

  /**
    After a run every family has gained exactly the samples observed under its
    name, in observation order; no name is added or removed.
   */
  lemma {:induction false} PushAllEffect(snap: map<string, Family>, obs: seq<Observation>, ts: int)
    ensures PushAll(snap, obs, ts).Keys == snap.Keys
    ensures forall n :: n in snap ==>
      PushAll(snap, obs, ts)[n] == snap[n].(samples := snap[n].samples + SamplesFor(n, obs, ts))
  {
    if obs != [] {
      PushAllEffect(snap, obs[..|obs| - 1], ts);
    }
  }

  /** A two-observation run is two pushes, in order. */
  lemma PushAllPair(snap: map<string, Family>, a: Observation, b: Observation, ts: int)
    ensures PushAll(snap, [a, b], ts)
      == Push(Push(snap, a.metric, Sample(a.labels, a.value, Some(ts))), b.metric, Sample(b.labels, b.value, Some(ts)))
  {
    var sa := Sample(a.labels, a.value, Some(ts));
    assert [a, b][..1] == [a] && [a][..0] == [];
    assert PushAll(snap, [a], ts) == Push(PushAll(snap, [], ts), a.metric, sa);
  }

  /** Observations under undeclared names leave no trace. */
  lemma {:induction false} PushAllUnknownOnly(snap: map<string, Family>, obs: seq<Observation>, ts: int)
    requires forall i :: 0 <= i < |obs| ==> obs[i].metric !in snap
    ensures PushAll(snap, obs, ts) == snap
  {
    if obs != [] {
      PushAllUnknownOnly(snap, obs[..|obs| - 1], ts);
    }
  }

  /** Rearranging stamped samples keeps "every sample is printable" true or false alike. */
  lemma RenderablePermuted(ss: seq<Sample>, r: seq<Sample>)
    requires AllStamped(ss) && multiset(r) == multiset(ss)
    ensures AllRenderable(ss) <==> forall k :: 0 <= k < |r| ==> HasLabelValues(r[k])
  {
    if AllRenderable(ss) {
      forall k | 0 <= k < |r| ensures HasLabelValues(r[k]) {
        assert r[k] in multiset(ss);
      }
    } else {
      var i :| 0 <= i < |ss| && !Renderable(ss[i]);
      assert ss[i] in multiset(r);
    }
  }

  lemma AppendAssoc(a: string, b: string, c: string)
    ensures (a + b) + c == a + (b + c)
  {
  }

  /**
    The loop of `Metric.fmt` that appends `name + sample.fmt() + '\n'` for
    each sample in order; `None` as soon as a sample cannot be formatted.
   */
  method AppendLines(prefix: string, name: string, ordered: seq<Sample>) returns (r: Option<string>)
    ensures r.Some? <==> forall k :: 0 <= k < |ordered| ==> HasLabelValues(ordered[k])
    ensures r.Some? ==> r.value == prefix + Lines(name, ordered)
  {
    var result := prefix;
    var j := 0;
    while j < |ordered|
      invariant 0 <= j <= |ordered|
      invariant forall k :: 0 <= k < j ==> HasLabelValues(ordered[k])
      invariant result == prefix + Lines(name, ordered[..j])
    {
      var line := SampleText(ordered[j]);
      SampleTextDefined(ordered[j]);
      if line.None? {
        return None;
      }
      var piece := name + line.value + "\n";
      assert piece == SampleLine(name, ordered[j]);
      LinesStep(name, ordered, j);
      AppendAssoc(prefix, Lines(name, ordered[..j]), piece);
      result := result + piece;
      j := j + 1;
    }
    assert ordered[..j] == ordered;
    r := Some(result);
  }

  /**
    How many observations, from the start, name a declared metric: the
    unguarded registry raises at the first one that does not.
   */
  function DeclaredPrefix(obs: seq<Observation>, names: set<string>): (k: nat)
    ensures k <= |obs|
    ensures forall i :: 0 <= i < k ==> obs[i].metric in names
    ensures k < |obs| ==> obs[k].metric !in names
  {
    if obs == [] || obs[0].metric !in names then 0
    else
      var rest := DeclaredPrefix(obs[1..], names);
      assert forall i :: 1 <= i < 1 + rest ==> obs[i] == obs[1..][i - 1];
      1 + rest
  }

  // ===========================================================================
  // Metric

  class Metric {
    const name: string
    const help: Option<string>
    const mtype: Option<string>
    var samples: seq<Sample>

    function View(): Family
      reads this
    {
      Family(name, help, mtype, samples)
    }

    /**
      Declares a metric: it starts with no samples and is registered under
      its name, replacing any earlier metric of that name.
     */
    constructor (reg: Registry, name: string, help: Option<string>, mtype: Option<string>)
      requires reg.Valid()
      modifies reg
      ensures View() == Family(name, help, mtype, [])
      ensures reg.metrics == old(reg.metrics)[name := this]
      ensures reg.Valid()
      ensures reg.Snapshot() == old(reg.Snapshot())[name := Family(name, help, mtype, [])]
    {
      this.name := name;
      this.help := help;
      this.mtype := mtype;
      this.samples := [];
      new;
      reg.metrics := reg.metrics[name := this];
    }

    method AddSample(s: Sample)
      modifies this
      ensures samples == old(samples) + [s]
    {
      samples := samples + [s];
    }

    /**
      The 30-second sweep: keeps the samples younger than the retention
      window. A sample without a timestamp makes the comparison raise; the
      list is then left as it was and `ok` is false.
     */
    method ExpireSamples(now: int) returns (ok: bool)
      modifies this
      ensures ok == AllStamped(old(samples))
      ensures ok ==> samples == Sweep(old(samples), now)
      ensures !ok ==> samples == old(samples)
    {
      var kept: seq<Sample> := [];
      var i := 0;
      while i < |samples|
        invariant 0 <= i <= |samples|
        invariant AllStamped(samples[..i])
        invariant kept == Sweep(samples[..i], now)
      {
        if samples[i].timestamp.None? {
          return false;
        }
        assert samples[..i + 1][..i] == samples[..i];
        if IsRetained(samples[i], now) {
          kept := kept + [samples[i]];
        }
        i := i + 1;
      }
      assert samples[..i] == samples;
      samples := kept;
      ok := true;
    }

    /**
      Renders this metric (header, then one line per sample in timestamp
      order) and empties the sample list. If Python would raise (a sample
      without timestamp, or a label whose value is `None`), the result is
      `None` and the samples stay.
     */
    method Fmt() returns (r: Option<string>)
      modifies this
      ensures r == FamilyText(old(View()))
      ensures r.Some? ==> samples == []
      ensures r.None? ==> samples == old(samples)
    {
      var result := HeaderText();
      // sorted() computes the key of every sample first
      var stamped := CheckStamped(samples);
      if !stamped {
        return None;
      }
      var ordered := SortByTime(samples);
      SortByTimePermutes(samples);
      RenderablePermuted(samples, ordered);
      r := AppendLines(result, name, ordered);
      if r.Some? {
        samples := [];
      }
    }

    /** The `# HELP` and `# TYPE` lines, each present when its text is set. */
    method HeaderText() returns (h: string)
      ensures h == Header(View())
    {
      h := "";
      if help.Some? {
        h := h + "# HELP " + name + " " + help.value + "\n";
      }
      if mtype.Some? {
        h := h + "# TYPE " + name + " " + mtype.value + "\n";
      }
    }
  }

  /** Whether every sample has a timestamp, as the sort key requires. */
  method CheckStamped(ss: seq<Sample>) returns (b: bool)
    ensures b <==> AllStamped(ss)
    ensures !b ==> !AllRenderable(ss)
  {
    var i := 0;
    while i < |ss|
      invariant 0 <= i <= |ss|
      invariant AllStamped(ss[..i])
    {
      if ss[i].timestamp.None? {
        return false;
      }
      i := i + 1;
    }
    assert ss[..i] == ss;
    return true;
  }

  // ===========================================================================
  // Registry

  class Registry {
    var metrics: map<string, Metric>

    /** Every metric is filed under its own name (so distinct names hold distinct objects). */
    ghost predicate Valid()
      reads this, metrics.Values
    {
      forall n :: n in metrics ==> metrics[n].name == n
    }

    function Snapshot(): (snap: map<string, Family>)
      reads this, metrics.Values
      ensures snap.Keys == metrics.Keys
    {
      map n | n in metrics :: metrics[n].View()
    }

    constructor ()
      ensures metrics == map[] && Valid()
    {
      metrics := map[];
    }

    /**
      `Sample(name, labels, value, timestamp)`: the sample joins the metric of
      that name; for an undeclared name an error is logged and nothing changes.
     */
    method Record(name: string, labels: seq<Label>, value: int, ts: Option<int>)
      requires Valid()
      modifies metrics.Values
      ensures metrics == old(metrics) && Valid()
      ensures Snapshot() == Push(old(Snapshot()), name, Sample(labels, value, ts))
    {
      if name in metrics {
        metrics[name].AddSample(Sample(labels, value, ts));
      }
    }

    /**
      The older single-file copy of the `Sample` constructor, which indexes
      the dictionary unguarded: an undeclared name raises `KeyError` and
      appends nothing.
     */
    method RecordStrict(name: string, labels: seq<Label>, value: int, ts: Option<int>) returns (raised: bool)
      requires Valid()
      modifies metrics.Values
      ensures metrics == old(metrics) && Valid()
      ensures raised <==> name !in metrics
      ensures Snapshot() == Push(old(Snapshot()), name, Sample(labels, value, ts))
    {
      raised := name !in metrics;
      if !raised {
        metrics[name].AddSample(Sample(labels, value, ts));
      }
    }

    /**
      `metrics[name].fmt()`: the text of that family, which loses its samples
      when rendering succeeds; every other metric is untouched.
     */
    method FmtMetric(name: string) returns (t: Option<string>)
      requires Valid() && name in metrics
      modifies metrics.Values
      ensures metrics == old(metrics) && Valid()
      ensures t == FamilyText(old(Snapshot())[name])
      ensures t.Some? ==> Snapshot() == old(Snapshot())[name := old(Snapshot())[name].(samples := [])]
      ensures t.None? ==> Snapshot() == old(Snapshot())
    {
      t := metrics[name].Fmt();
    }

    /** A collector run's `Sample(...)` calls, in order, each stamped `ts`. */
    method RecordAll(obs: seq<Observation>, ts: int)
      requires Valid()
      modifies metrics.Values
      ensures metrics == old(metrics) && Valid()
      ensures Snapshot() == PushAll(old(Snapshot()), obs, ts)
    {
      var i := 0;
      while i < |obs|
        invariant 0 <= i <= |obs|
        invariant metrics == old(metrics) && Valid()
        invariant Snapshot() == PushAll(old(Snapshot()), obs[..i], ts)
      {
        assert obs[..i + 1][..i] == obs[..i];
        Record(obs[i].metric, obs[i].labels, obs[i].value, Some(ts));
        i := i + 1;
      }
      assert obs[..i] == obs;
    }

    /**
      The same run against the older copy: the first undeclared name raises,
      which ends the run; the observations before it have been recorded.
     */
    method RecordAllStrict(obs: seq<Observation>, ts: int) returns (stopped: Option<nat>)
      requires Valid()
      modifies metrics.Values
      ensures metrics == old(metrics) && Valid()
      ensures var k := DeclaredPrefix(obs, metrics.Keys);
        && stopped == (if k == |obs| then None else Some(k))
        && Snapshot() == PushAll(old(Snapshot()), obs[..k], ts)
    {
      ghost var before := Snapshot();
      ghost var k := DeclaredPrefix(obs, metrics.Keys);
      var i := 0;
      while i < |obs|
        invariant 0 <= i <= k
        invariant metrics == old(metrics) && Valid()
        invariant Snapshot() == PushAll(before, obs[..i], ts)
      {
        var raised := RecordStrict(obs[i].metric, obs[i].labels, obs[i].value, Some(ts));
        if raised {
          // every earlier name is declared, so this is the first undeclared one
          assert i == k;
          return Some(i);
        }
        assert i < k;
        assert obs[..i + 1][..i] == obs[..i];
        i := i + 1;
      }
      assert obs[..i] == obs;
      stopped := None;
    }
  }
}
