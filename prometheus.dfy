/**
  The value side of the exposition engine (ceph_exporter/prometheus.py):
  label-value escaping, the text of a label, of a sample and of a whole
  metric family, the retention predicate used by the expiry sweep, and the
  stable millisecond ordering `Metric.fmt` gives its sample lines.

  Timestamps are whole milliseconds since the epoch. A Python exception
  raised while formatting is modelled as `None`.
 */
module Prometheus {
  import opened Wrappers
  import opened Text

  /** Samples younger than this many milliseconds (500 s) survive a sweep. */
  const RetentionMs: int := 500_000

  /**
    A label. Its value is optional because a collector may pass Python's
    `None` (an unparsable placement-group id); such a label cannot be rendered.
   */
  datatype Label = Label(name: string, value: Option<string>)

  /** The usual label: a name and a string value. */
  function StrLabel(name: string, value: string): Label {
    Label(name, Some(value))
  }

  datatype Sample = Sample(labels: seq<Label>, value: int, timestamp: Option<int>)

  /** One metric family: what `Metric` holds, as a value. */
  datatype Family = Family(name: string, help: Option<string>, mtype: Option<string>, samples: seq<Sample>)

  /** What a collector hands to the registry: metric name, labels and value (the timestamp is shared by a run). */
  datatype Observation = Observation(metric: string, labels: seq<Label>, value: int)

  // ===========================================================================
  // Escaping

  /** `escape`: three chained `str.replace` calls, backslash first. */
  function Escape(s: string): string {
    Replace(Replace(Replace(s, '\\', "\\\\"), '"', "\\\""), '\n', "\\n")
  }

  /** What escaping does to one character. */
  function EscapeChar(c: char): string {
    if c == '\\' then "\\\\"
    else if c == '"' then "\\\""
    else if c == '\n' then "\\n"
    else [c]
  }

  /** The per-character reading of escaping. */
  function EscapeEach(s: string): string {
    if s == [] then [] else EscapeChar(s[0]) + EscapeEach(s[1..])
  }

  /** Reads an escaped label value back: `\n` is a newline, `\x` is `x`. */
  function Unescape(s: string): string
    decreases |s|
  {
    if s == [] then []
    else if s[0] == '\\' && 2 <= |s| then (if s[1] == 'n' then "\n" else [s[1]]) + Unescape(s[2..])
    else [s[0]] + Unescape(s[1..])
  }

  predicate IsSpecial(c: char) {
    c == '\\' || c == '"' || c == '\n'
  }

  /** Number of characters of `s` that escaping doubles. */
  function SpecialCount(s: string): nat {
    if s == [] then 0 else (if IsSpecial(s[0]) then 1 else 0) + SpecialCount(s[1..])
  }

  lemma ReplaceSingle(c: char, x: char, with: string)
    ensures Replace([c], x, with) == if c == x then with else [c]
  {
    assert [c][1..] == [];
  }

  lemma {:induction false} ReplaceAbsent(s: string, x: char, with: string)
    requires x !in s
    ensures Replace(s, x, with) == s
  {
    if s != [] {
      ReplaceAbsent(s[1..], x, with);
    }
  }

  lemma EscapeSingle(c: char)
    ensures Escape([c]) == EscapeChar(c)
  {
    ReplaceSingle(c, '\\', "\\\\");
    if c == '\\' {
      ReplaceAbsent("\\\\", '"', "\\\"");
      ReplaceAbsent("\\\\", '\n', "\\n");
    } else {
      ReplaceSingle(c, '"', "\\\"");
      if c == '"' {
        ReplaceAbsent("\\\"", '\n', "\\n");
      } else {
        ReplaceSingle(c, '\n', "\\n");
      }
    }
  }

  lemma EscapeAppend(a: string, b: string)
    ensures Escape(a + b) == Escape(a) + Escape(b)
  {
    var r1a, r1b := Replace(a, '\\', "\\\\"), Replace(b, '\\', "\\\\");
    ReplaceAppend(a, b, '\\', "\\\\");
    var r2a, r2b := Replace(r1a, '"', "\\\""), Replace(r1b, '"', "\\\"");
    ReplaceAppend(r1a, r1b, '"', "\\\"");
    ReplaceAppend(r2a, r2b, '\n', "\\n");
  }

  /** Because backslashes are replaced first, the chained replaces are a per-character map. */
  lemma {:induction false} EscapeIsCharwise(s: string)
    ensures Escape(s) == EscapeEach(s)
  {
    if s != [] {
      assert s == [s[0]] + s[1..];
      EscapeAppend([s[0]], s[1..]);
      EscapeSingle(s[0]);
      EscapeIsCharwise(s[1..]);
    }
  }

  /** Backslash, quote and newline become two-character escapes; nothing else changes. */
  lemma EscapeCharMap(c: char)
    ensures Escape([c]) == (if IsSpecial(c) then ['\\', if c == '\n' then 'n' else c] else [c])
  {
    EscapeSingle(c);
  }

  lemma {:induction false} UnescapeEach(s: string)
    ensures Unescape(EscapeEach(s)) == s
  {
    if s != [] {
      var c, rest := s[0], EscapeEach(s[1..]);
      var e := EscapeChar(c) + rest;
      if IsSpecial(c) {
        assert e[0] == '\\' && e[2..] == rest;
      } else {
        assert e[1..] == rest;
      }
      UnescapeEach(s[1..]);
      assert s == [c] + s[1..];
    }
  }

  /** Escaping is undone by `Unescape`: a label value survives the wire format. */
  lemma EscapeRoundTrip(s: string)
    ensures Unescape(Escape(s)) == s
  {
    EscapeIsCharwise(s);
    UnescapeEach(s);
  }

  lemma {:induction false} EscapeEachShape(s: string)
    ensures |EscapeEach(s)| == |s| + SpecialCount(s)
    ensures '\n' !in EscapeEach(s)
  {
    if s != [] {
      EscapeEachShape(s[1..]);
      assert '\n' !in EscapeChar(s[0]);
    }
  }

  /** Escaped text holds no raw newline and is one character longer per special character. */
  lemma EscapeShape(s: string)
    ensures |Escape(s)| == |s| + SpecialCount(s)
    ensures '\n' !in Escape(s)
  {
    EscapeIsCharwise(s);
    EscapeEachShape(s);
  }

  // ===========================================================================
  // Labels and samples

  /** `Label.fmt`: `name="escaped value"`; `None` when the value is `None` (escape raises). */
  function LabelText(l: Label): Option<string> {
    match l.value
    case None => None
    case Some(v) => Some(l.name + "=\"" + Escape(v) + "\"")
  }

  /** A rendered label starts with its name and `="`, ends with `"`, and the part between reads back as the value. */
  lemma LabelTextReadsBack(l: Label)
    requires l.value.Some?
    ensures LabelText(l).Some?
    ensures var t := LabelText(l).value;
      && |l.name| + 3 <= |t|
      && t[..|l.name|] == l.name
      && t[|l.name|..|l.name| + 2] == "=\""
      && t[|t| - 1] == '"'
      && Unescape(t[|l.name| + 2..|t| - 1]) == l.value.value
  {
    var n, e := l.name, Escape(l.value.value);
    var t := n + "=\"" + e + "\"";
    assert t[..|n|] == n;
    assert t[|n|..|n| + 2] == "=\"";
    assert t[|n| + 2..|t| - 1] == e;
    EscapeRoundTrip(l.value.value);
  }

  lemma LabelExample()
    ensures LabelText(StrLabel("a", "b")) == Some("a=\"b\"")
  {
    EscapeSingle('b');
    assert Escape("b") == "b";
    assert LabelText(StrLabel("a", "b")) == Some("a" + "=\"" + "b" + "\"");
    assert "a" + "=\"" + "b" + "\"" == "a=\"b\"";
  }

  predicate HasLabelValues(s: Sample) {
    forall i :: 0 <= i < |s.labels| ==> s.labels[i].value.Some?
  }

  /** The formatted labels, in order; `None` as soon as one label has no value. */
  function LabelTexts(labels: seq<Label>): (r: Option<seq<string>>)
    ensures r.Some? <==> forall i :: 0 <= i < |labels| ==> labels[i].value.Some?
    ensures r.Some? ==>
      && |r.value| == |labels|
      && forall i :: 0 <= i < |labels| ==> Some(r.value[i]) == LabelText(labels[i])
  {
    if labels == [] then Some([])
    else match LabelText(labels[0])
      case None => None
      case Some(t) =>
        match LabelTexts(labels[1..])
        case None => None
        case Some(ts) => Some([t] + ts)
  }

  /** `Sample.fmt`: optional `{labels}`, then ` value`, then ` timestamp-ms` when there is a timestamp. */
  function SampleText(s: Sample): Option<string> {
    match LabelTexts(s.labels)
    case None => None
    case Some(parts) =>
      Some((if |s.labels| > 0 then "{" + Join(",", parts) + "}" else "")
           + " " + Decimal(s.value)
           + (if s.timestamp.Some? then " " + Decimal(s.timestamp.value) else ""))
  }

  lemma SampleTextDefined(s: Sample)
    ensures SampleText(s).Some? <==> HasLabelValues(s)
  {
    var r := LabelTexts(s.labels);
  }

  /** The text after the last space. */
  function LastField(t: string): string {
    if t == [] then [] else if t[|t| - 1] == ' ' then [] else LastField(t[..|t| - 1]) + [t[|t| - 1]]
  }

  lemma {:induction false} LastFieldAfterSpace(x: string, d: string)
    requires ' ' !in d
    ensures LastField(x + " " + d) == d
    decreases |d|
  {
    var t := x + " " + d;
    if d == [] {
      assert t[|t| - 1] == ' ';
    } else {
      var d' := d[..|d| - 1];
      assert t[..|t| - 1] == x + " " + d';
      LastFieldAfterSpace(x, d');
      assert d == d' + [d[|d| - 1]];
    }
  }

  /**
    A sample renders exactly when every label has a value; the label block is
    present iff there are labels; and the last field reads back as the
    timestamp when there is one, as the value otherwise.
   */
  lemma SampleTextFields(s: Sample)
    ensures SampleText(s).Some? <==> HasLabelValues(s)
    ensures SampleText(s).Some? ==>
      var t := SampleText(s).value;
      && 1 <= |t|
      && (t[0] == '{' <==> |s.labels| > 0)
      && ParseDecimal(LastField(t)) == Some(if s.timestamp.Some? then s.timestamp.value else s.value)
  {
    if HasLabelValues(s) {
      var parts := LabelTexts(s.labels).value;
      var block := if |s.labels| > 0 then "{" + Join(",", parts) + "}" else "";
      var t := SampleText(s).value;
      DecimalRoundTrip(s.value);
      if s.timestamp.Some? {
        DecimalRoundTrip(s.timestamp.value);
        assert t == (block + " " + Decimal(s.value)) + " " + Decimal(s.timestamp.value);
        LastFieldAfterSpace(block + " " + Decimal(s.value), Decimal(s.timestamp.value));
      } else {
        assert t == block + " " + Decimal(s.value);
        LastFieldAfterSpace(block, Decimal(s.value));
      }
      if |s.labels| == 0 {
        assert t[0] == ' ';
      }
    }
  }

  // ===========================================================================
  // Retention (the expiry sweep)

  predicate AllStamped(ss: seq<Sample>) {
    forall i :: 0 <= i < |ss| ==> ss[i].timestamp.Some?
  }

  /**
    `Sample.isExpired`, whose name is inverted: it holds for a sample younger
    than the retention window, and the sweep keeps exactly those.
   */
  predicate IsRetained(s: Sample, now: int)
    requires s.timestamp.Some?
  {
    now - s.timestamp.value < RetentionMs
  }

  /** `[s for s in samples if s.isExpired(now)]`. */
  function Sweep(ss: seq<Sample>, now: int): seq<Sample>
    requires AllStamped(ss)
  {
    if ss == [] then []
    else Sweep(ss[..|ss| - 1], now) + (if IsRetained(ss[|ss| - 1], now) then [ss[|ss| - 1]] else [])
  }

  /**
    The sweep keeps every retained sample as often as it occurs and drops
    every other one.
   */
  lemma {:induction false} SweepKeepsExactly(ss: seq<Sample>, now: int)
    requires AllStamped(ss)
    ensures AllStamped(Sweep(ss, now))
    ensures forall x :: multiset(Sweep(ss, now))[x]
                        == if x.timestamp.Some? && IsRetained(x, now) then multiset(ss)[x] else 0
  {
    if ss != [] {
      var init, last := ss[..|ss| - 1], ss[|ss| - 1];
      assert ss == init + [last];
      SweepKeepsExactly(init, now);
    }
  }

  /** The sweep keeps the survivors' order: sweeping a concatenation sweeps each part. */
  lemma {:induction false} SweepAppend(a: seq<Sample>, b: seq<Sample>, now: int)
    requires AllStamped(a) && AllStamped(b)
    ensures AllStamped(a + b) && Sweep(a + b, now) == Sweep(a, now) + Sweep(b, now)
    decreases |b|
  {
    if b == [] {
      assert a + b == a;
    } else {
      var ab := a + b;
      assert ab[..|ab| - 1] == a + b[..|b| - 1];
      SweepAppend(a, b[..|b| - 1], now);
    }
  }

  /** Sweeping twice with the same clock equals sweeping once. */
  lemma {:induction false} SweepIdempotent(ss: seq<Sample>, now: int)
    requires AllStamped(ss)
    ensures AllStamped(Sweep(ss, now)) && Sweep(Sweep(ss, now), now) == Sweep(ss, now)
  {
    SweepKeepsExactly(ss, now);
    if ss != [] {
      var init, last := ss[..|ss| - 1], ss[|ss| - 1];
      var kept := if IsRetained(last, now) then [last] else [];
      SweepIdempotent(init, now);
      SweepKeepsExactly(init, now);
      assert Sweep(ss, now) == Sweep(init, now) + kept;
      SweepAppend(Sweep(init, now), kept, now);
      assert kept == [] || kept[..0] == [];
    }
  }

  /** A sample stamped `t` survives a sweep at `t + 400 s` and is gone after one at `t + 600 s`. */
  lemma SweepWindowExample(labels: seq<Label>, v: int, t: int)
    ensures var s := Sample(labels, v, Some(t));
      && Sweep([s], t + 400_000) == [s]
      && Sweep([s], t + 600_000) == []
  {
    var s := Sample(labels, v, Some(t));
    assert [s][..0] == [];
  }

  // ===========================================================================
  // Ordering sample lines by timestamp (Python's stable `sorted`)

  function TimeOf(s: Sample): int
    requires s.timestamp.Some?
  {
    s.timestamp.value
  }

  predicate TimeOrdered(ss: seq<Sample>)
    requires AllStamped(ss)
  {
    forall i, j :: 0 <= i < j < |ss| ==> TimeOf(ss[i]) <= TimeOf(ss[j])
  }

  /** The samples of `ss` stamped exactly `t`, in order. */
  function StampedAt(ss: seq<Sample>, t: int): seq<Sample> {
    if ss == [] then [] else (if ss[0].timestamp == Some(t) then [ss[0]] else []) + StampedAt(ss[1..], t)
  }

  /** Puts `x` in front of the first sample that is not older than it. */
  function InsertByTime(x: Sample, ss: seq<Sample>): (r: seq<Sample>)
    requires x.timestamp.Some? && AllStamped(ss)
    ensures AllStamped(r) && |r| == |ss| + 1
  {
    if ss == [] then [x]
    else if TimeOf(x) <= TimeOf(ss[0]) then [x] + ss
    else
      assert ss == [ss[0]] + ss[1..];
      [ss[0]] + InsertByTime(x, ss[1..])
  }

  /** `sorted(samples, key = timestamp in ms)`: a stable insertion sort. */
  function SortByTime(ss: seq<Sample>): (r: seq<Sample>)
    requires AllStamped(ss)
    ensures AllStamped(r) && |r| == |ss|
  {
    if ss == [] then []
    else
      assert ss == [ss[0]] + ss[1..];
      InsertByTime(ss[0], SortByTime(ss[1..]))
  }

  lemma {:induction false} InsertByTimePermutes(x: Sample, ss: seq<Sample>)
    requires x.timestamp.Some? && AllStamped(ss)
    ensures multiset(InsertByTime(x, ss)) == multiset(ss) + multiset{x}
  {
    if ss != [] && TimeOf(x) > TimeOf(ss[0]) {
      InsertByTimePermutes(x, ss[1..]);
      assert ss == [ss[0]] + ss[1..];
    }
  }

  lemma {:induction false} SortByTimePermutes(ss: seq<Sample>)
    requires AllStamped(ss)
    ensures multiset(SortByTime(ss)) == multiset(ss)
  {
    if ss != [] {
      SortByTimePermutes(ss[1..]);
      InsertByTimePermutes(ss[0], SortByTime(ss[1..]));
      assert ss == [ss[0]] + ss[1..];
    }
  }

  /** Inserting keeps a lower bound every sample already respects. */
  lemma {:induction false} InsertByTimeLower(x: Sample, ss: seq<Sample>, lo: int)
    requires x.timestamp.Some? && AllStamped(ss)
    requires lo <= TimeOf(x) && forall k :: 0 <= k < |ss| ==> lo <= TimeOf(ss[k])
    ensures forall k :: 0 <= k < |InsertByTime(x, ss)| ==> lo <= TimeOf(InsertByTime(x, ss)[k])
  {
    if ss != [] && TimeOf(x) > TimeOf(ss[0]) {
      var t := InsertByTime(x, ss[1..]);
      InsertByTimeLower(x, ss[1..], lo);
      var r := InsertByTime(x, ss);
      assert r == [ss[0]] + t;
      forall k | 0 <= k < |r| ensures lo <= TimeOf(r[k]) {
        if k > 0 {
          assert r[k] == t[k - 1];
          assert lo <= TimeOf(t[k - 1]);
        } else {
          assert r[k] == ss[0];
        }
      }
    }
  }

  lemma {:induction false} InsertByTimeOrdered(x: Sample, ss: seq<Sample>)
    requires x.timestamp.Some? && AllStamped(ss) && TimeOrdered(ss)
    ensures TimeOrdered(InsertByTime(x, ss))
  {
    if ss != [] && TimeOf(x) > TimeOf(ss[0]) {
      var rest := ss[1..];
      assert TimeOrdered(rest) by {
        forall i, j | 0 <= i < j < |rest| ensures TimeOf(rest[i]) <= TimeOf(rest[j]) {
          assert rest[i] == ss[i + 1] && rest[j] == ss[j + 1];
        }
      }
      var t := InsertByTime(x, rest);
      InsertByTimeOrdered(x, rest);
      InsertByTimeLower(x, rest, TimeOf(ss[0]));
      var r := InsertByTime(x, ss);
      assert r == [ss[0]] + t;
      forall i, j | 0 <= i < j < |r| ensures TimeOf(r[i]) <= TimeOf(r[j]) {
        assert r[j] == t[j - 1];
        assert TimeOf(ss[0]) <= TimeOf(t[j - 1]);
        if i > 0 {
          assert r[i] == t[i - 1];
        }
      }
    }
  }

  /** The samples stamped `t` of a sequence with one more sample in front. */
  lemma StampedAtCons(x: Sample, ss: seq<Sample>, t: int)
    ensures StampedAt([x] + ss, t) == (if x.timestamp == Some(t) then [x] else []) + StampedAt(ss, t)
  {
    assert ([x] + ss)[1..] == ss;
  }

  lemma StampedAtSingle(x: Sample, t: int)
    ensures StampedAt([x], t) == if x.timestamp == Some(t) then [x] else []
  {
    StampedAtCons(x, [], t);
    assert [x] + [] == [x];
  }

  lemma {:induction false} InsertByTimeStable(x: Sample, ss: seq<Sample>, t: int)
    requires x.timestamp.Some? && AllStamped(ss)
    ensures StampedAt(InsertByTime(x, ss), t) == StampedAt([x], t) + StampedAt(ss, t)
  {
    if ss == [] {
      assert StampedAt([x], t) + [] == StampedAt([x], t);
    } else if TimeOf(x) <= TimeOf(ss[0]) {
      StampedAtSingle(x, t);
      StampedAtCons(x, ss, t);
    } else {
      var rest := ss[1..];
      var inserted := InsertByTime(x, rest);
      assert ss == [ss[0]] + rest;
      assert InsertByTime(x, ss) == [ss[0]] + inserted;
      var head := if ss[0].timestamp == Some(t) then [ss[0]] else [];
      StampedAtCons(ss[0], rest, t);
      StampedAtCons(ss[0], inserted, t);
      InsertByTimeStable(x, rest, t);
      // x is strictly later than ss[0], so at most one of them is stamped t
      StampedAtSingle(x, t);
      SwapWhenOneEmpty(head, StampedAt([x], t), StampedAt(rest, t));
    }
  }

  lemma SwapWhenOneEmpty<T>(a: seq<T>, b: seq<T>, c: seq<T>)
    requires a == [] || b == []
    ensures a + (b + c) == b + (a + c)
  {
    if a == [] {
      assert a + (b + c) == b + c && a + c == c;
    } else {
      assert b + c == c && b + (a + c) == a + c;
    }
  }

  lemma {:induction false} SortByTimeOrdered(ss: seq<Sample>)
    requires AllStamped(ss)
    ensures TimeOrdered(SortByTime(ss))
  {
    if ss != [] {
      SortByTimeOrdered(ss[1..]);
      InsertByTimeOrdered(ss[0], SortByTime(ss[1..]));
    }
  }

  lemma {:induction false} SortByTimeStable(ss: seq<Sample>, t: int)
    requires AllStamped(ss)
    ensures StampedAt(SortByTime(ss), t) == StampedAt(ss, t)
  {
    if ss != [] {
      var x, rest := ss[0], SortByTime(ss[1..]);
      SortByTimeStable(ss[1..], t);
      InsertByTimeStable(x, rest, t);
      assert SortByTime(ss) == InsertByTime(x, rest);
      StampedAtSingle(x, t);
      StampedAtCons(x, ss[1..], t);
      assert [x] + ss[1..] == ss;
    }
  }

  /**
    The sort orders samples by timestamp and is stable: for every timestamp
    the samples carrying it come out in their insertion order. Together these
    determine the result, a permutation of the input.
   */
  lemma SortByTimeCorrect(ss: seq<Sample>)
    requires AllStamped(ss)
    ensures multiset(SortByTime(ss)) == multiset(ss)
    ensures TimeOrdered(SortByTime(ss))
    ensures forall t :: StampedAt(SortByTime(ss), t) == StampedAt(ss, t)
  {
    SortByTimePermutes(ss);
    SortByTimeOrdered(ss);
    forall t ensures StampedAt(SortByTime(ss), t) == StampedAt(ss, t) {
      SortByTimeStable(ss, t);
    }
  }

  // ===========================================================================
  // A metric family's text (`Metric.fmt`)

  /** `# HELP` and `# TYPE` lines, each present iff the field is not `None`. */
  function Header(f: Family): string {
    (if f.help.Some? then "# HELP " + f.name + " " + f.help.value + "\n" else "")
    + (if f.mtype.Some? then "# TYPE " + f.name + " " + f.mtype.value + "\n" else "")
  }

  /** One exposition line: the metric name, the formatted sample, a newline. */
  function SampleLine(name: string, s: Sample): string
    requires HasLabelValues(s)
  {
    SampleTextDefined(s);
    name + SampleText(s).value + "\n"
  }

  /** One line per sample, in the given order. */
  function Lines(name: string, ss: seq<Sample>): string
    requires forall i :: 0 <= i < |ss| ==> HasLabelValues(ss[i])
  {
    if ss == [] then ""
    else
      Lines(name, ss[..|ss| - 1]) + SampleLine(name, ss[|ss| - 1])
  }

  /** One more sample adds its line at the end. */
  lemma LinesStep(name: string, ss: seq<Sample>, j: int)
    requires 0 <= j < |ss|
    requires forall i :: 0 <= i <= j ==> HasLabelValues(ss[i])
    ensures Lines(name, ss[..j + 1]) == Lines(name, ss[..j]) + SampleLine(name, ss[j])
  {
    assert ss[..j + 1][..j] == ss[..j];
  }

  /** A sample `Metric.fmt` can print: it has a timestamp (the sort key) and every label a value. */
  predicate Renderable(s: Sample) {
    s.timestamp.Some? && HasLabelValues(s)
  }

  predicate AllRenderable(ss: seq<Sample>) {
    forall i :: 0 <= i < |ss| ==> Renderable(ss[i])
  }

  /**
    `Metric.fmt`'s text: the header, then one line per sample in timestamp
    order. `None` when some sample has no timestamp or a label without value,
    which makes the Python code raise.
   */
  function FamilyText(f: Family): Option<string> {
    if AllRenderable(f.samples) then
      var ordered := SortByTime(f.samples);
      assert forall i :: 0 <= i < |ordered| ==> HasLabelValues(ordered[i]) by {
        SortByTimePermutes(f.samples);
        forall i | 0 <= i < |ordered| ensures HasLabelValues(ordered[i]) {
          assert ordered[i] in multiset(f.samples);
        }
      }
      Some(Header(f) + Lines(f.name, ordered))
    else None
  }

  /** A family with no samples renders as its header alone. */
  lemma FamilyTextEmpty(f: Family)
    requires f.samples == []
    ensures FamilyText(f) == Some(Header(f))
  {
    assert AllRenderable(f.samples);
    assert SortByTime(f.samples) == [];
    assert Lines(f.name, []) == "";
    assert Header(f) + "" == Header(f);
  }

  lemma GaugeHeaderExample()
    ensures FamilyText(Family("name", Some("H"), Some("gauge"), [])) == Some("# HELP name H\n# TYPE name gauge\n")
  {
    var f := Family("name", Some("H"), Some("gauge"), []);
    FamilyTextEmpty(f);
    assert Header(f) == "# HELP " + "name" + " " + "H" + "\n" + ("# TYPE " + "name" + " " + "gauge" + "\n");
    assert "# HELP " + "name" + " " + "H" + "\n" + ("# TYPE " + "name" + " " + "gauge" + "\n")
        == "# HELP name H\n# TYPE name gauge\n";
  }

  // ---------------------------------------------------------------------------
  // Counting lines

  function CountChar(s: string, c: char): nat {
    if s == [] then 0 else (if s[0] == c then 1 else 0) + CountChar(s[1..], c)
  }

  lemma {:induction false} CountCharAppend(a: string, b: string, c: char)
    ensures CountChar(a + b, c) == CountChar(a, c) + CountChar(b, c)
  {
    if a != [] {
      assert (a + b)[1..] == a[1..] + b;
      CountCharAppend(a[1..], b, c);
    } else {
      assert a + b == b;
    }
  }

  lemma {:induction false} CountCharAbsent(s: string, c: char)
    requires c !in s
    ensures CountChar(s, c) == 0
  {
    if s != [] {
      CountCharAbsent(s[1..], c);
    }
  }

  lemma {:induction false} JoinNoNewline(sep: string, parts: seq<string>)
    requires '\n' !in sep
    requires forall i :: 0 <= i < |parts| ==> '\n' !in parts[i]
    ensures '\n' !in Join(sep, parts)
  {
    if |parts| > 1 {
      JoinNoNewline(sep, parts[1..]);
    }
  }

  predicate LabelNamesNoNewline(s: Sample) {
    forall i :: 0 <= i < |s.labels| ==> '\n' !in s.labels[i].name
  }

  lemma SampleTextNoNewline(s: Sample)
    requires HasLabelValues(s) && LabelNamesNoNewline(s)
    ensures SampleText(s).Some? && '\n' !in SampleText(s).value
  {
    SampleTextDefined(s);
    var parts := LabelTexts(s.labels).value;
    forall i | 0 <= i < |parts| ensures '\n' !in parts[i] {
      EscapeShape(s.labels[i].value.value);
    }
    JoinNoNewline(",", parts);
    var head := if |s.labels| > 0 then "{" + Join(",", parts) + "}" else "";
    assert '\n' !in head;
    DecimalRoundTrip(s.value);
    if s.timestamp.Some? {
      DecimalRoundTrip(s.timestamp.value);
    }
  }


  lemma {:induction false} LinesCount(name: string, ss: seq<Sample>)
    requires '\n' !in name
    requires forall i :: 0 <= i < |ss| ==> HasLabelValues(ss[i]) && LabelNamesNoNewline(ss[i])
    ensures CountChar(Lines(name, ss), '\n') == |ss|
  {
    if ss != [] {
      var init, last := ss[..|ss| - 1], ss[|ss| - 1];
      LinesCount(name, init);
      SampleTextNoNewline(last);
      var text := SampleText(last).value;
      CountCharAbsent(name, '\n');
      CountCharAbsent(text, '\n');
      CountCharAppend(name, text, '\n');
      CountCharAppend(name + text, "\n", '\n');
      CountCharAppend(Lines(name, init), SampleLine(name, last), '\n');
    }
  }

  lemma HeaderLineCount(f: Family)
    requires '\n' !in f.name
    requires f.help.Some? ==> '\n' !in f.help.value
    requires f.mtype.Some? ==> '\n' !in f.mtype.value
    ensures CountChar(Header(f), '\n') == (if f.help.Some? then 1 else 0) + (if f.mtype.Some? then 1 else 0)
  {
    var help := if f.help.Some? then "# HELP " + f.name + " " + f.help.value + "\n" else "";
    var mtype := if f.mtype.Some? then "# TYPE " + f.name + " " + f.mtype.value + "\n" else "";
    if f.help.Some? {
      CountCharAbsent("# HELP " + f.name + " " + f.help.value, '\n');
      CountCharAppend("# HELP " + f.name + " " + f.help.value, "\n", '\n');
    }
    if f.mtype.Some? {
      CountCharAbsent("# TYPE " + f.name + " " + f.mtype.value, '\n');
      CountCharAppend("# TYPE " + f.name + " " + f.mtype.value, "\n", '\n');
    }
    CountCharAppend(help, mtype, '\n');
  }

  /**
    When the metric name, help, type and label names hold no newline, a
    family's text has one line per header present plus exactly one line per
    sample.
   */
  lemma FamilyTextLineCount(f: Family)
    requires AllRenderable(f.samples)
    requires '\n' !in f.name
    requires f.help.Some? ==> '\n' !in f.help.value
    requires f.mtype.Some? ==> '\n' !in f.mtype.value
    requires forall i :: 0 <= i < |f.samples| ==> LabelNamesNoNewline(f.samples[i])
    ensures FamilyText(f).Some?
    ensures CountChar(FamilyText(f).value, '\n')
            == (if f.help.Some? then 1 else 0) + (if f.mtype.Some? then 1 else 0) + |f.samples|
  {
    var ordered := SortByTime(f.samples);
    SortByTimePermutes(f.samples);
    forall i | 0 <= i < |ordered| ensures HasLabelValues(ordered[i]) && LabelNamesNoNewline(ordered[i]) {
      assert ordered[i] in multiset(f.samples);
    }
    LinesCount(f.name, ordered);
    HeaderLineCount(f);
    CountCharAppend(Header(f), Lines(f.name, ordered), '\n');
  }
}
