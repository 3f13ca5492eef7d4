/**
  ceph_exporter/server.py: the `/metrics` page renders every registered
  metric in ascending name order and concatenates the texts; each render
  empties that metric's samples. The root page always answers `OK\n`.
 */
module Server {
  import opened Wrappers
  import opened Text
  import opened Prometheus
  import opened MetricRegistry

  /** The body of the root page. */
  const RootPageBody: string := "OK\n"

  // ===========================================================================
  // sorted(metrics.keys())

  /** Some strictly sorted sequence lists exactly the given names. */
  lemma {:induction false} SortedArrangementExists(keys: set<string>)
    ensures exists s :: StrictlySorted(s) && forall x :: x in s <==> x in keys
    decreases |keys|
  {
    if keys == {} {
      assert StrictlySorted([]) && forall x :: x in [] <==> x in keys;
    } else {
      var k :| k in keys;
      SortedArrangementExists(keys - {k});
      var s :| StrictlySorted(s) && forall x :: x in s <==> x in keys - {k};
      var t := InsertSorted(s, k);
      assert StrictlySorted(t) && forall x :: x in t <==> x in keys;
    }
  }

  /** `sorted(keys)`: the names in ascending code-point order. */
  ghost function SortedKeys(keys: set<string>): (s: seq<string>)
    ensures StrictlySorted(s)
    ensures forall x :: x in s <==> x in keys
  {
    SortedArrangementExists(keys);
    var s :| StrictlySorted(s) && forall x :: x in s <==> x in keys;
    s
  }

  /** Sorting the names of a dictionary: one insertion per key, taken in whatever order the set yields them. */
  method SortedNames(keys: set<string>) returns (names: seq<string>)
    ensures names == SortedKeys(keys)
  {
    names := [];
    var rest := keys;
    while rest != {}
      invariant rest <= keys
      invariant StrictlySorted(names)
      invariant forall x :: x in names <==> x in keys - rest
      decreases |rest|
    {
      var k :| k in rest;
      names := InsertSorted(names, k);
      rest := rest - {k};
    }
    SortedUnique(names, SortedKeys(keys));
  }

  // ===========================================================================
  // What a render produces and leaves behind

  /** What `fmt()` gives for each metric: its text, or `None` when it raises. */
  function Rendering(snap: map<string, Family>): (tm: map<string, Option<string>>)
    ensures tm.Keys == snap.Keys
  {
    map n | n in snap :: FamilyText(snap[n])
  }

  /** The texts of the named metrics in order; `None` once one of them cannot be rendered. */
  function Texts(names: seq<string>, tm: map<string, Option<string>>): (r: Option<seq<string>>)
    requires forall i :: 0 <= i < |names| ==> names[i] in tm
    ensures r.Some? <==> forall i :: 0 <= i < |names| ==> tm[names[i]].Some?
    ensures r.Some? ==>
      && |r.value| == |names|
      && forall i :: 0 <= i < |names| ==> Some(r.value[i]) == tm[names[i]]
  {
    if names == [] then Some([])
    else
      match Texts(names[..|names| - 1], tm)
      case None => None
      case Some(ts) =>
        match tm[names[|names| - 1]]
        case None => None
        case Some(t) => Some(ts + [t])
  }

  /** How many names, from the front, render before the first that cannot. */
  function RenderedCount(names: seq<string>, tm: map<string, Option<string>>): (k: nat)
    requires forall i :: 0 <= i < |names| ==> names[i] in tm
    ensures k <= |names|
    ensures forall i :: 0 <= i < k ==> tm[names[i]].Some?
    ensures k < |names| ==> tm[names[k]].None?
  {
    if names == [] then 0
    else if tm[names[0]].None? then 0
    else 1 + RenderedCount(names[1..], tm)
  }

  /** The registry with the samples of the given families emptied. */
  function Cleared(snap: map<string, Family>, names: set<string>): (r: map<string, Family>)
    ensures r.Keys == snap.Keys
  {
    map n | n in snap :: if n in names then snap[n].(samples := []) else snap[n]
  }

  /** One more name: its text joins the list, or the render stops right there. */
  lemma TextsStep(names: seq<string>, tm: map<string, Option<string>>, i: nat, results: seq<string>)
    requires forall j :: 0 <= j < |names| ==> names[j] in tm
    requires i < |names|
    requires Texts(names[..i], tm) == Some(results)
    ensures tm[names[i]].None? ==> RenderedCount(names, tm) == i && Texts(names, tm).None?
    ensures tm[names[i]].Some? ==> Texts(names[..i + 1], tm) == Some(results + [tm[names[i]].value])
  {
    assert names[..i + 1][..i] == names[..i];
    if tm[names[i]].None? {
      assert forall j :: 0 <= j < i ==> names[..i][j] == names[j];
      RenderedCountIs(names, tm, i);
    }
  }

  /** `RenderedCount` is the position of the first failing name. */
  lemma RenderedCountIs(names: seq<string>, tm: map<string, Option<string>>, i: nat)
    requires forall j :: 0 <= j < |names| ==> names[j] in tm
    requires i <= |names|
    requires forall j :: 0 <= j < i ==> tm[names[j]].Some?
    requires i < |names| ==> tm[names[i]].None?
    ensures RenderedCount(names, tm) == i
  {
  }

  /** The first `k` names, as a set. */
  function Prefix(names: seq<string>, k: nat): set<string>
    requires k <= |names|
  {
    if k == 0 then {} else Prefix(names, k - 1) + {names[k - 1]}
  }

  /** With no repeated names, the `j`-th name is among the first `k` exactly when `j < k`. */
  lemma {:induction false} PrefixIndex(names: seq<string>, k: nat, j: nat)
    requires k <= |names| && j < |names|
    requires forall a, b :: 0 <= a < b < |names| ==> names[a] != names[b]
    ensures names[j] in Prefix(names, k) <==> j < k
    decreases k
  {
    if k > 0 {
      PrefixIndex(names, k - 1, j);
    }
  }

  /** Emptying one more family. */
  lemma ClearedAdd(snap: map<string, Family>, done: set<string>, n: string)
    requires n in snap && n !in done
    ensures Cleared(snap, done)[n] == snap[n]
    ensures Cleared(snap, done)[n := snap[n].(samples := [])] == Cleared(snap, done + {n})
  {
  }

  /** The body of `/metrics`, or `None` when rendering some metric raises. */
  ghost function Exposition(snap: map<string, Family>): Option<string> {
    match Texts(SortedKeys(snap.Keys), Rendering(snap))
    case None => None
    case Some(ts) => Some(Join("", ts))
  }

  /**
    The registry after a render: every metric rendered before the first
    failure (all of them when none fails) has lost its samples.
   */
  ghost function AfterRender(snap: map<string, Family>): map<string, Family> {
    var names := SortedKeys(snap.Keys);
    Cleared(snap, Prefix(names, RenderedCount(names, Rendering(snap))))
  }

  // ===========================================================================
  // MetricsPage.render_GET

  /** One turn of the render loop: `fmt()` of the metric `n`, in the registry state reached so far. */
  method RenderOne(reg: Registry, n: string, ghost snap: map<string, Family>, ghost done: set<string>)
    returns (t: Option<string>)
    requires reg.Valid() && n in reg.metrics && n !in done
    requires reg.Snapshot() == Cleared(snap, done)
    modifies reg.metrics.Values
    ensures reg.metrics == old(reg.metrics) && reg.Valid()
    ensures t == Rendering(snap)[n]
    ensures reg.Snapshot() == Cleared(snap, if t.Some? then done + {n} else done)
  {
    ClearedAdd(snap, done, n);
    t := reg.FmtMetric(n);
  }

  /**
    The loop of `render_GET`: `fmt()` of each named metric in turn, the texts
    collected in order. A raising `fmt()` ends the render; the metrics
    rendered before it have lost their samples.
   */
  method RenderEach(reg: Registry, names: seq<string>) returns (r: Option<seq<string>>)
    requires reg.Valid()
    requires forall i :: 0 <= i < |names| ==> names[i] in reg.metrics
    requires forall i, j :: 0 <= i < j < |names| ==> names[i] != names[j]
    modifies reg.metrics.Values
    ensures reg.metrics == old(reg.metrics) && reg.Valid()
    ensures r == Texts(names, Rendering(old(reg.Snapshot())))
    ensures reg.Snapshot()
      == Cleared(old(reg.Snapshot()), Prefix(names, RenderedCount(names, Rendering(old(reg.Snapshot())))))
  {
    ghost var snap := reg.Snapshot();
    ghost var tm := Rendering(snap);
    var results: seq<string> := [];
    var i := 0;
    ghost var done: set<string> := {};
    while i < |names|
      invariant 0 <= i <= |names|
      invariant reg.metrics == old(reg.metrics) && reg.Valid()
      invariant done == Prefix(names, i)
      invariant reg.Snapshot() == Cleared(snap, done)
      invariant Texts(names[..i], tm) == Some(results)
    {
      var n := names[i];
      PrefixIndex(names, i, i);
      var t := RenderOne(reg, n, snap, done);
      TextsStep(names, tm, i, results);
      if t.None? {
        return None;
      }
      results := results + [t.value];
      done := done + {n};
      i := i + 1;
    }
    assert names[..i] == names;
    RenderedCountIs(names, tm, i);
    r := Some(results);
  }

  /**
    `render_GET`: the metric names in sorted order, each rendered in turn,
    the texts concatenated. The text is `Exposition` of the registry as it
    was; the registry afterwards is `AfterRender` of it, with the same names
    bound to the same metric objects.
   */
  method RenderMetrics(reg: Registry) returns (r: Option<string>)
    requires reg.Valid()
    modifies reg.metrics.Values
    ensures reg.metrics == old(reg.metrics) && reg.Valid()
    ensures r == Exposition(old(reg.Snapshot()))
    ensures reg.Snapshot() == AfterRender(old(reg.Snapshot()))
  {
    var names := SortedNames(reg.metrics.Keys);
    ghost var snap := reg.Snapshot();
    assert snap == old(reg.Snapshot());
    StrictlySortedDistinct(names);
    var results := RenderEach(reg, names);
    if results.None? {
      r := None;
    } else {
      r := Some(Join("", results.value));
    }
    RenderedAsSpecified(snap, names, results, r, reg.Snapshot());
  }

  /** The loop's outcome, read back as `Exposition` and `AfterRender`. */
  lemma RenderedAsSpecified(snap: map<string, Family>, names: seq<string>, results: Option<seq<string>>,
                            r: Option<string>, after: map<string, Family>)
    requires names == SortedKeys(snap.Keys)
    requires results == Texts(names, Rendering(snap))
    requires r == if results.None? then None else Some(Join("", results.value))
    requires after == Cleared(snap, Prefix(names, RenderedCount(names, Rendering(snap))))
    ensures r == Exposition(snap)
    ensures after == AfterRender(snap)
  {
  }

  // ===========================================================================
  // Properties of a render

  /** A metric renders exactly when all its samples are printable. */
  lemma RenderingDefined(snap: map<string, Family>, n: string)
    requires n in snap
    ensures Rendering(snap)[n].Some? <==> AllRenderable(snap[n].samples)
  {
  }

  /** The page renders exactly when every registered metric can be rendered. */
  lemma ExpositionDefined(snap: map<string, Family>)
    ensures Exposition(snap).Some? <==> forall n :: n in snap ==> AllRenderable(snap[n].samples)
  {
    var names := SortedKeys(snap.Keys);
    var tm := Rendering(snap);
    if Texts(names, tm).Some? {
      forall n | n in snap ensures AllRenderable(snap[n].samples) {
        assert n in names;
        var i :| 0 <= i < |names| && names[i] == n;
        assert tm[n].Some?;
        RenderingDefined(snap, n);
      }
    } else {
      var i :| 0 <= i < |names| && tm[names[i]].None?;
      RenderingDefined(snap, names[i]);
    }
  }

  /**
    A successful page lists every metric, in ascending name order, each by
    its full text (a metric without samples still contributes its header).
   */
  lemma ExpositionLayout(snap: map<string, Family>)
    requires Exposition(snap).Some?
    ensures var names := SortedKeys(snap.Keys);
      var ts := Texts(names, Rendering(snap)).value;
      && StrictlySorted(names)
      && (forall n :: n in snap <==> n in names)
      && |ts| == |names|
      && (forall i :: 0 <= i < |names| ==> Some(ts[i]) == FamilyText(snap[names[i]]))
      && Exposition(snap).value == Join("", ts)
  {
  }

  /** After a successful render every metric is still registered, and none has samples left. */
  lemma AfterRenderClearsAll(snap: map<string, Family>)
    requires Exposition(snap).Some?
    ensures AfterRender(snap).Keys == snap.Keys
    ensures forall n :: n in snap ==> AfterRender(snap)[n] == snap[n].(samples := [])
  {
    var names := SortedKeys(snap.Keys);
    var tm := Rendering(snap);
    RenderedCountIs(names, tm, |names|);
    StrictlySortedDistinct(names);
    forall n | n in snap ensures n in Prefix(names, |names|) {
      var j :| 0 <= j < |names| && names[j] == n;
      PrefixIndex(names, |names|, j);
    }
  }

  /**
    When a metric cannot be rendered the page fails; the metrics sorted before
    the first such metric have been emptied, it and all later ones are as they
    were.
   */
  lemma AfterFailedRender(snap: map<string, Family>)
    requires Exposition(snap).None?
    ensures var names := SortedKeys(snap.Keys);
      var k := RenderedCount(names, Rendering(snap));
      && k < |names|
      && !AllRenderable(snap[names[k]].samples)
      && AfterRender(snap).Keys == snap.Keys
      && forall n :: n in snap ==>
           AfterRender(snap)[n] == if LexLess(n, names[k]) then snap[n].(samples := []) else snap[n]
  {
    var names := SortedKeys(snap.Keys);
    var tm := Rendering(snap);
    var k := RenderedCount(names, tm);
    var i :| 0 <= i < |names| && tm[names[i]].None?;
    RenderingDefined(snap, names[k]);
    StrictlySortedDistinct(names);
    forall n | n in snap ensures n in Prefix(names, k) <==> LexLess(n, names[k]) {
      var j :| 0 <= j < |names| && names[j] == n;
      PrefixIndex(names, k, j);
      if j == k {
        LexIrreflexive(n);
      } else if k < j {
        LexAsymmetric(names[k], n);
      }
    }
  }

  /** Rendering again straight after a successful render gives each metric's header lines only. */
  lemma RenderAgainHeadersOnly(snap: map<string, Family>)
    requires Exposition(snap).Some?
    ensures forall n :: n in snap ==> FamilyText(AfterRender(snap)[n]) == Some(Header(snap[n]))
  {
    AfterRenderClearsAll(snap);
    forall n | n in snap ensures FamilyText(AfterRender(snap)[n]) == Some(Header(snap[n])) {
      FamilyTextEmpty(snap[n].(samples := []));
    }
  }
}
