/**
 * The graph request handler (site/src/request_handlers/graph.rs): grouping
 * series by benchmark, profile and scenario, the summary series normalised
 * by a memoised Empty-scenario baseline, the conversion into the response,
 * and the landing-page cache for the default request.
 *
 * The store (`statistic_series`, `data_range`, `summary_scenarios`),
 * `interpolate()` and `db::average` are not modelled: their results for the
 * request at hand are inputs. Profiles and scenarios appear as their display
 * names; the three summary profiles are "check", "debug" and "opt", and
 * `Scenario::Empty` is "full".
 */
module GraphHandler {
  import opened Wrappers
  import opened GraphPoints

  datatype Tag = BenchmarkTag | ProfileTag | ScenarioTag | MetricTag

  /** A resolved path; a component may be missing. */
  datatype SeriesPath = SeriesPath(
    benchmark: Option<string>, profile: Option<string>, scenario: Option<string>, metric: Option<string>)

  /** A series response whose series is already a list of graph points. */
  datatype PointSeries = PointSeries(path: SeriesPath, series: seq<GraphPoint>)

  datatype ServerError = MissingPathComponent(tag: Tag)

  /** The (scenario, points) pairs filed under one benchmark and profile. */
  type Runs = seq<(string, seq<GraphPoint>)>

  /** benchmark -> profile -> [(scenario, points)]. */
  type ByTestCase = map<string, map<string, Runs>>

  // ---------------------------------------------------------------------------
  // Grouping by test case
  // ---------------------------------------------------------------------------

  /** The path has the three components grouping reads. */
  predicate Complete(path: SeriesPath) {
    path.benchmark.Some? && path.profile.Some? && path.scenario.Some?
  }

  predicate AllComplete(series: seq<PointSeries>) {
    forall i :: 0 <= i < |series| ==> Complete(series[i].path)
  }

  /** The component whose `get` fails first: benchmark, then profile, then scenario. */
  function MissingTag(path: SeriesPath): Tag
    requires !Complete(path)
  {
    if path.benchmark.None? then BenchmarkTag
    else if path.profile.None? then ProfileTag
    else ScenarioTag
  }

  /** Reference definition: the runs of benchmark `b`, profile `p`, in series order. */
  function RunsOf(series: seq<PointSeries>, b: string, p: string): Runs
    requires AllComplete(series)
  {
    if series == [] then []
    else
      var path := series[0].path;
      (if path.benchmark == Some(b) && path.profile == Some(p)
       then [(path.scenario.value, series[0].series)] else [])
      + RunsOf(series[1..], b, p)
  }

  lemma {:induction false} RunsOfSnoc(series: seq<PointSeries>, s: PointSeries, b: string, p: string)
    requires AllComplete(series + [s]) && Complete(s.path)
    ensures AllComplete(series)
    ensures RunsOf(series + [s], b, p)
            == RunsOf(series, b, p)
               + (if s.path.benchmark == Some(b) && s.path.profile == Some(p)
                  then [(s.path.scenario.value, s.series)] else [])
  {
    assert forall i :: 0 <= i < |series| ==> series[i] == (series + [s])[i];
    if series == [] {
      assert series + [s] == [s];
    } else {
      assert (series + [s])[1..] == series[1..] + [s];
      RunsOfSnoc(series[1..], s, b, p);
    }
  }

  /** Some series has benchmark `b`. */
  ghost predicate HasBenchmark(series: seq<PointSeries>, b: string) {
    exists i :: 0 <= i < |series| && series[i].path.benchmark == Some(b)
  }

  /** Some series has benchmark `b` and profile `p`. */
  ghost predicate HasPair(series: seq<PointSeries>, b: string, p: string) {
    exists i :: 0 <= i < |series| && series[i].path.benchmark == Some(b) && series[i].path.profile == Some(p)
  }

  lemma HasBenchmarkSnoc(series: seq<PointSeries>, sr: PointSeries, b: string)
    ensures HasBenchmark(series + [sr], b) <==> HasBenchmark(series, b) || sr.path.benchmark == Some(b)
  {
    var all := series + [sr];
    if HasBenchmark(all, b) {
      var i :| 0 <= i < |all| && all[i].path.benchmark == Some(b);
      if i < |series| {
        assert series[i] == all[i];
      }
    }
    if HasBenchmark(series, b) {
      var i :| 0 <= i < |series| && series[i].path.benchmark == Some(b);
      assert all[i] == series[i];
    }
    assert all[|series|] == sr;
  }

  lemma HasPairSnoc(series: seq<PointSeries>, sr: PointSeries, b: string, p: string)
    ensures HasPair(series + [sr], b, p)
            <==> HasPair(series, b, p) || (sr.path.benchmark == Some(b) && sr.path.profile == Some(p))
  {
    var all := series + [sr];
    if HasPair(all, b, p) {
      var i :| 0 <= i < |all| && all[i].path.benchmark == Some(b) && all[i].path.profile == Some(p);
      if i < |series| {
        assert series[i] == all[i];
      }
    }
    if HasPair(series, b, p) {
      var i :| 0 <= i < |series| && series[i].path.benchmark == Some(b) && series[i].path.profile == Some(p);
      assert all[i] == series[i];
    }
    assert all[|series|] == sr;
  }

  lemma HasPairBenchmark(series: seq<PointSeries>, b: string, p: string)
    requires HasPair(series, b, p)
    ensures HasBenchmark(series, b)
  {
  }

  /** The benchmarks of `m` are exactly those that occur. */
  ghost predicate BenchmarksMatch(m: ByTestCase, series: seq<PointSeries>) {
    forall b :: b in m <==> HasBenchmark(series, b)
  }

  /** Under each benchmark, the profiles of `m` are exactly those that occur with it. */
  ghost predicate ProfilesMatch(m: ByTestCase, series: seq<PointSeries>) {
    forall b, p :: b in m ==> (p in m[b] <==> HasPair(series, b, p))
  }

  /** Each (benchmark, profile) entry lists that pair's (scenario, points) in series order. */
  ghost predicate RunsMatch(m: ByTestCase, series: seq<PointSeries>)
    requires AllComplete(series)
  {
    forall b, p :: b in m && p in m[b] ==> m[b][p] == RunsOf(series, b, p)
  }

  /** `m` files every series under its benchmark, then its profile, and nothing else. */
  ghost predicate GroupedAs(m: ByTestCase, series: seq<PointSeries>)
    requires AllComplete(series)
  {
    BenchmarksMatch(m, series) && ProfilesMatch(m, series) && RunsMatch(m, series)
  }

  /** `entry(benchmark).or_insert_with(..).entry(profile).or_insert_with(..).push((scenario, series))`. */
  function FileSeries(m: ByTestCase, sr: PointSeries): ByTestCase
    requires Complete(sr.path)
  {
    var b := sr.path.benchmark.value;
    var p := sr.path.profile.value;
    var byProfile := if b in m then m[b] else map[];
    var runs := if p in byProfile then byProfile[p] else [];
    m[b := byProfile[p := runs + [(sr.path.scenario.value, sr.series)]]]
  }

  lemma FileSeriesBenchmarks(m: ByTestCase, series: seq<PointSeries>, sr: PointSeries)
    requires Complete(sr.path) && BenchmarksMatch(m, series)
    ensures BenchmarksMatch(FileSeries(m, sr), series + [sr])
  {
    forall b' ensures b' in FileSeries(m, sr) <==> HasBenchmark(series + [sr], b') {
      HasBenchmarkSnoc(series, sr, b');
    }
  }

  lemma FileSeriesProfiles(m: ByTestCase, series: seq<PointSeries>, sr: PointSeries)
    requires Complete(sr.path) && BenchmarksMatch(m, series) && ProfilesMatch(m, series)
    ensures ProfilesMatch(FileSeries(m, sr), series + [sr])
  {
    var m' := FileSeries(m, sr);
    forall b', p' | b' in m' ensures p' in m'[b'] <==> HasPair(series + [sr], b', p') {
      HasPairSnoc(series, sr, b', p');
      if HasPair(series, b', p') {
        HasPairBenchmark(series, b', p');
      }
    }
  }

  lemma FileSeriesRunsNew(m: ByTestCase, series: seq<PointSeries>, sr: PointSeries)
    requires AllComplete(series) && Complete(sr.path) && AllComplete(series + [sr])
    requires BenchmarksMatch(m, series) && ProfilesMatch(m, series) && RunsMatch(m, series)
    ensures var b, p := sr.path.benchmark.value, sr.path.profile.value;
            b in FileSeries(m, sr) && p in FileSeries(m, sr)[b]
            && FileSeries(m, sr)[b][p] == RunsOf(series + [sr], b, p)
  {
    var b := sr.path.benchmark.value;
    var p := sr.path.profile.value;
    RunsOfSnoc(series, sr, b, p);
    if !(b in m && p in m[b]) {
      if HasPair(series, b, p) {
        HasPairBenchmark(series, b, p);
      }
      assert forall i :: 0 <= i < |series| ==>
               !(series[i].path.benchmark == Some(b) && series[i].path.profile == Some(p));
      RunsOfAbsent(series, b, p);
    }
  }

  lemma FileSeriesRunsOther(m: ByTestCase, series: seq<PointSeries>, sr: PointSeries, b': string, p': string)
    requires AllComplete(series) && Complete(sr.path) && AllComplete(series + [sr]) && RunsMatch(m, series)
    requires b' in FileSeries(m, sr) && p' in FileSeries(m, sr)[b']
    requires b' != sr.path.benchmark.value || p' != sr.path.profile.value
    ensures FileSeries(m, sr)[b'][p'] == RunsOf(series + [sr], b', p')
  {
    RunsOfSnoc(series, sr, b', p');
    assert b' in m && p' in m[b'] && FileSeries(m, sr)[b'][p'] == m[b'][p'];
  }

  lemma FileSeriesRuns(m: ByTestCase, series: seq<PointSeries>, sr: PointSeries)
    requires AllComplete(series) && Complete(sr.path)
    requires BenchmarksMatch(m, series) && ProfilesMatch(m, series) && RunsMatch(m, series)
    ensures AllComplete(series + [sr]) && RunsMatch(FileSeries(m, sr), series + [sr])
  {
    var all := series + [sr];
    assert forall j :: 0 <= j < |series| ==> all[j] == series[j];
    assert all[|series|] == sr;
    assert AllComplete(all);
    FileSeriesRunsNew(m, series, sr);
    forall b', p' | b' in FileSeries(m, sr) && p' in FileSeries(m, sr)[b']
        && (b' != sr.path.benchmark.value || p' != sr.path.profile.value)
      ensures FileSeries(m, sr)[b'][p'] == RunsOf(all, b', p')
    {
      FileSeriesRunsOther(m, series, sr, b', p');
    }
  }

  /** Filing one more series keeps the grouping exact. */
  lemma FileSeriesGroups(m: ByTestCase, series: seq<PointSeries>, i: nat)
    requires i < |series| && AllComplete(series[..i]) && Complete(series[i].path) && GroupedAs(m, series[..i])
    ensures AllComplete(series[..i + 1]) && GroupedAs(FileSeries(m, series[i]), series[..i + 1])
  {
    assert series[..i + 1] == series[..i] + [series[i]];
    FileSeriesBenchmarks(m, series[..i], series[i]);
    FileSeriesProfiles(m, series[..i], series[i]);
    FileSeriesRuns(m, series[..i], series[i]);
  }

  lemma FirstIncomplete(series: seq<PointSeries>, i: nat)
    requires i < |series| && AllComplete(series[..i]) && !Complete(series[i].path)
    ensures exists k :: 0 <= k < |series| && !Complete(series[k].path)
              && (forall j :: 0 <= j < k ==> Complete(series[j].path))
              && MissingTag(series[k].path) == MissingTag(series[i].path)
  {
    assert forall j :: 0 <= j < i ==> series[..i][j] == series[j];
  }

  /**
   * The `by_test_case` loop: fails on the first series whose path lacks a
   * benchmark, profile or scenario, and otherwise groups every series.
   */
  method GroupByTestCase(series: seq<PointSeries>) returns (r: Result<ByTestCase, ServerError>)
    ensures r.Ok? <==> AllComplete(series)
    ensures r.Ok? ==> AllComplete(series) && GroupedAs(r.value, series)
    ensures r.Err? ==>
              exists i :: 0 <= i < |series| && !Complete(series[i].path)
                && (forall j :: 0 <= j < i ==> Complete(series[j].path))
                && r.error == MissingPathComponent(MissingTag(series[i].path))
  {
    var byTestCase: ByTestCase := map[];
    var i := 0;
    while i < |series|
      invariant 0 <= i <= |series|
      invariant AllComplete(series[..i])
      invariant GroupedAs(byTestCase, series[..i])
    {
      var sr := series[i];
      if !Complete(sr.path) {
        FirstIncomplete(series, i);
        return Err(MissingPathComponent(MissingTag(sr.path)));
      }
      FileSeriesGroups(byTestCase, series, i);
      byTestCase := FileSeries(byTestCase, sr);
      i := i + 1;
    }
    assert series[..i] == series;
    return Ok(byTestCase);
  }

  /** A pair that never occurs has no runs. */
  lemma {:induction false} RunsOfAbsent(series: seq<PointSeries>, b: string, p: string)
    requires AllComplete(series)
    requires forall i :: 0 <= i < |series| ==>
               !(series[i].path.benchmark == Some(b) && series[i].path.profile == Some(p))
    ensures RunsOf(series, b, p) == []
  {
    if series != [] {
      assert forall i :: 0 <= i < |series| - 1 ==> series[1..][i] == series[i + 1];
      RunsOfAbsent(series[1..], b, p);
    }
  }

  // ---------------------------------------------------------------------------
  // Summary series
  // ---------------------------------------------------------------------------

  /** The profiles every summary scenario is crossed with: `Profile::{Check, Debug, Opt}`. */
  const SummaryProfiles: seq<string> := ["check", "debug", "opt"]

  /** `Scenario::Empty`, the baseline scenario. */
  const EmptyScenario: string := "full"

  /** The benchmark label of summary series. */
  const SummaryBenchmark: string := "Summary"

  /** A summary query: every benchmark, one profile, one scenario, one metric. */
  datatype SummaryQuery = SummaryQuery(profile: string, scenario: string, metric: string)

  /** The query whose average is the baseline for `q`: same profile and metric, Empty scenario. */
  function BaselineQuery(q: SummaryQuery): SummaryQuery {
    SummaryQuery(q.profile, EmptyScenario, q.metric)
  }

  /** The baseline: the first averaged value, or 0.0 when there is no data. */
  function Baseline(averaged: seq<InputPoint>): real
    requires |averaged| > 0 ==> averaged[0].value.Some?
  {
    if |averaged| == 0 then 0.0 else averaged[0].value.value
  }

  /** Every averaged value divided by the baseline, flags kept. */
  function Normalise(averaged: seq<InputPoint>, against: real): (r: seq<InputPoint>)
    requires AllPresent(averaged) && (|averaged| > 0 ==> against != 0.0)
    ensures |r| == |averaged| && AllPresent(r)
  {
    seq(|averaged|, i requires 0 <= i < |averaged| =>
      InputPoint(Some(averaged[i].value.value / against), averaged[i].isInterpolated))
  }

  /** Normalising loses nothing: scaling back by the baseline gives the averaged series. */
  lemma NormaliseInverse(averaged: seq<InputPoint>, against: real)
    requires AllPresent(averaged) && (|averaged| > 0 ==> against != 0.0)
    ensures forall i :: 0 <= i < |averaged| ==>
              Normalise(averaged, against)[i].value.value * against == averaged[i].value.value
              && Normalise(averaged, against)[i].isInterpolated == averaged[i].isInterpolated
  {
  }

  /** Baseline 2.0 and averaged 2.0, 4.0, 6.0 give the ratios 1.0, 2.0, 3.0. */
  lemma NormaliseExample()
    ensures var r := Normalise([InputPoint(Some(2.0), false), InputPoint(Some(4.0), true),
                                InputPoint(Some(6.0), false)], 2.0);
            r[0].value == Some(1.0) && r[1].value == Some(2.0) && r[2].value == Some(3.0)
  {
  }

  /**
   * An Empty-scenario query is its own baseline, and every query's baseline
   * query is an Empty-scenario query of the same profile and metric.
   */
  lemma BaselineOfEmptyIsItself(q: SummaryQuery)
    ensures BaselineQuery(q) == q <==> q.scenario == EmptyScenario
    ensures BaselineQuery(BaselineQuery(q)) == BaselineQuery(q)
  {
  }

  /** What the store must supply for one summary query to be computable. */
  predicate QueryReady(kind: GraphKind, q: SummaryQuery, average: SummaryQuery -> seq<InputPoint>) {
    var base := average(BaselineQuery(q));
    var averaged := average(q);
    && (|base| > 0 ==> base[0].value.Some?)
    && AllPresent(averaged)
    && (|averaged| > 0 ==> Baseline(base) != 0.0)
    && DivisorsNonZero(kind, Normalise(averaged, Baseline(base)))
  }

  predicate SummaryReady(
    kind: GraphKind, scenarios: seq<string>, metric: string, average: SummaryQuery -> seq<InputPoint>)
  {
    forall s, p :: s in scenarios && p in SummaryProfiles ==> QueryReady(kind, SummaryQuery(p, s, metric), average)
  }

  /** The summary series of one query, labelled with the summary benchmark. */
  function SummaryEntry(kind: GraphKind, q: SummaryQuery, average: SummaryQuery -> seq<InputPoint>): PointSeries
    requires QueryReady(kind, q, average)
  {
    var against := Baseline(average(BaselineQuery(q)));
    PointSeries(
      SeriesPath(Some(SummaryBenchmark), Some(q.profile), Some(q.scenario), Some(q.metric)),
      GraphPointsOf(kind, Normalise(average(q), against)))
  }

  /**
   * The Empty scenario is divided by its own first value, so with data its
   * raw summary series starts at 1.0 and its ratios give back the averages.
   */
  lemma EmptySummaryStartsAtOne(q: SummaryQuery, average: SummaryQuery -> seq<InputPoint>)
    requires q.scenario == EmptyScenario && QueryReady(Raw, q, average) && |average(q)| > 0
    ensures SummaryEntry(Raw, q, average).series[0].value == 1.0
    ensures forall i :: 0 <= i < |average(q)| ==>
              SummaryEntry(Raw, q, average).series[i].value * average(q)[0].value.value
              == average(q)[i].value.value
  {
    var averaged := average(q);
    assert BaselineQuery(q) == q;
    var against := averaged[0].value.value;
    assert Baseline(average(BaselineQuery(q))) == against;
    var normalised := Normalise(averaged, against);
    var out := GraphPointsOf(Raw, normalised);
    assert SummaryEntry(Raw, q, average).series == out;
    RawIsIdentity(normalised);
    NormaliseInverse(averaged, against);
    assert against != 0.0;
    assert out[0].value == normalised[0].value.value == against / against == 1.0;
    forall i | 0 <= i < |averaged|
      ensures SummaryEntry(Raw, q, average).series[i].value * against == averaged[i].value.value
    {
      assert out[i].value == normalised[i].value.value;
    }
  }

  /** The three summary series of one scenario, in profile order. */
  function ScenarioEntries(
    kind: GraphKind, scenario: string, metric: string, average: SummaryQuery -> seq<InputPoint>): (r: seq<PointSeries>)
    requires forall p :: p in SummaryProfiles ==> QueryReady(kind, SummaryQuery(p, scenario, metric), average)
    ensures |r| == |SummaryProfiles|
  {
    seq(|SummaryProfiles|, k requires 0 <= k < |SummaryProfiles| =>
      SummaryEntry(kind, SummaryQuery(SummaryProfiles[k], scenario, metric), average))
  }

  /** Extending a prefix by one element; stated once so the loops need not rebuild it. */
  lemma PrefixSnoc<T>(s: seq<T>, i: nat)
    requires i < |s|
    ensures s[..i + 1] == s[..i] + [s[i]]
  {
  }

  lemma ScenarioEntriesAt(
    kind: GraphKind, scenario: string, metric: string, average: SummaryQuery -> seq<InputPoint>, k: nat)
    requires forall p :: p in SummaryProfiles ==> QueryReady(kind, SummaryQuery(p, scenario, metric), average)
    requires k < |SummaryProfiles|
    ensures ScenarioEntries(kind, scenario, metric, average)[k]
            == SummaryEntry(kind, SummaryQuery(SummaryProfiles[k], scenario, metric), average)
  {
  }

  /** Reference definition: the summary series for scenarios x profiles, scenario-major. */
  function SummarySeriesOf(
    kind: GraphKind, scenarios: seq<string>, metric: string, average: SummaryQuery -> seq<InputPoint>): (r: seq<PointSeries>)
    requires SummaryReady(kind, scenarios, metric, average)
    ensures |r| == |scenarios| * |SummaryProfiles|
  {
    if scenarios == [] then []
    else
      var init := scenarios[..|scenarios| - 1];
      assert forall s :: s in init ==> s in scenarios;
      SummarySeriesOf(kind, init, metric, average)
      + ScenarioEntries(kind, scenarios[|scenarios| - 1], metric, average)
  }

  /** Every summary series has a complete path under the summary benchmark. */
  lemma {:induction false} SummarySeriesComplete(
    kind: GraphKind, scenarios: seq<string>, metric: string, average: SummaryQuery -> seq<InputPoint>)
    requires SummaryReady(kind, scenarios, metric, average)
    ensures forall i :: 0 <= i < |SummarySeriesOf(kind, scenarios, metric, average)| ==>
              var path := SummarySeriesOf(kind, scenarios, metric, average)[i].path;
              Complete(path) && path.benchmark == Some(SummaryBenchmark) && path.metric == Some(metric)
  {
    if scenarios != [] {
      var init := scenarios[..|scenarios| - 1];
      assert forall s :: s in init ==> s in scenarios;
      SummarySeriesComplete(kind, init, metric, average);
    }
  }

  /** The memo holds exactly the baseline queries of `profiles` for `metric`. */
  ghost predicate KeysAre(baselines: map<SummaryQuery, real>, metric: string, profiles: seq<string>) {
    forall q :: q in baselines <==> q.scenario == EmptyScenario && q.metric == metric && q.profile in profiles
  }

  /** Adding the baseline of profile `pi` extends the memo's keys by that profile. */
  lemma KeysAreStep(
    baselines: map<SummaryQuery, real>, baselines': map<SummaryQuery, real>, metric: string, first: bool, pi: nat)
    requires pi < |SummaryProfiles|
    requires KeysAre(baselines, metric, if first then SummaryProfiles[..pi] else SummaryProfiles)
    requires forall x :: x in baselines' <==> x in baselines || x == SummaryQuery(SummaryProfiles[pi], EmptyScenario, metric)
    ensures KeysAre(baselines', metric, if first then SummaryProfiles[..pi + 1] else SummaryProfiles)
  {
    PrefixSnoc(SummaryProfiles, pi);
  }

  /**
   * The baseline memo: every key was fetched exactly once and holds the
   * baseline of its own averaged series.
   */
  ghost predicate Memo(baselines: map<SummaryQuery, real>, fetched: seq<SummaryQuery>,
                       average: SummaryQuery -> seq<InputPoint>) {
    && (forall q :: q in baselines <==> q in fetched)
    && (forall i, j :: 0 <= i < j < |fetched| ==> fetched[i] != fetched[j])
    && (forall q :: q in baselines ==>
          (|average(q)| > 0 ==> average(q)[0].value.Some?) && baselines[q] == Baseline(average(q)))
  }

  /**
   * The `baselines.entry(q)` match: an occupied entry is read back, a vacant
   * one is filled with a freshly fetched baseline.
   */
  method LookupBaseline(q: SummaryQuery, baselines: map<SummaryQuery, real>, ghost fetched: seq<SummaryQuery>,
                        average: SummaryQuery -> seq<InputPoint>)
    returns (against: real, baselines': map<SummaryQuery, real>, ghost fetched': seq<SummaryQuery>)
    requires Memo(baselines, fetched, average)
    requires |average(q)| > 0 ==> average(q)[0].value.Some?
    ensures Memo(baselines', fetched', average)
    ensures against == Baseline(average(q))
    ensures forall x :: x in baselines' <==> x in baselines || x == q
    ensures q in baselines ==> fetched' == fetched
    ensures q !in baselines ==> fetched' == fetched + [q]
  {
    if q in baselines {
      against, baselines', fetched' := baselines[q], baselines, fetched;
    } else {
      against := Baseline(average(q));
      baselines', fetched' := baselines[q := against], fetched + [q];
    }
  }

  lemma SummaryReadyPrefix(
    kind: GraphKind, scenarios: seq<string>, metric: string, average: SummaryQuery -> seq<InputPoint>, n: nat)
    requires n <= |scenarios| && SummaryReady(kind, scenarios, metric, average)
    ensures SummaryReady(kind, scenarios[..n], metric, average)
  {
    assert forall s :: s in scenarios[..n] ==> s in scenarios;
  }

  lemma SummarySeriesOfStep(
    kind: GraphKind, scenarios: seq<string>, metric: string, average: SummaryQuery -> seq<InputPoint>, si: nat)
    requires si < |scenarios| && SummaryReady(kind, scenarios, metric, average)
    ensures SummaryReady(kind, scenarios[..si], metric, average)
    ensures SummaryReady(kind, scenarios[..si + 1], metric, average)
    ensures SummarySeriesOf(kind, scenarios[..si + 1], metric, average)
            == SummarySeriesOf(kind, scenarios[..si], metric, average)
               + ScenarioEntries(kind, scenarios[si], metric, average)
  {
    SummaryReadyPrefix(kind, scenarios, metric, average, si);
    SummaryReadyPrefix(kind, scenarios, metric, average, si + 1);
    assert scenarios[..si + 1][..si] == scenarios[..si];
  }

  /**
   * One iteration of the summary loop: the baseline is taken from the memo
   * (or fetched and stored), the averaged series is divided by it and turned
   * into graph points under the summary benchmark.
   */
  method SummaryStep(
    kind: GraphKind, query: SummaryQuery, average: SummaryQuery -> seq<InputPoint>,
    baselines: map<SummaryQuery, real>, ghost fetched: seq<SummaryQuery>)
    returns (entry: PointSeries, baselines': map<SummaryQuery, real>, ghost fetched': seq<SummaryQuery>)
    requires QueryReady(kind, query, average)
    requires Memo(baselines, fetched, average)
    ensures entry == SummaryEntry(kind, query, average)
    ensures Memo(baselines', fetched', average)
    ensures forall x :: x in baselines' <==> x in baselines || x == BaselineQuery(query)
  {
    var against;
    against, baselines', fetched' := LookupBaseline(BaselineQuery(query), baselines, fetched, average);
    var graphData := ToGraphPoints(kind, Normalise(average(query), against));
    entry := PointSeries(
      SeriesPath(Some(SummaryBenchmark), Some(query.profile), Some(query.scenario), Some(query.metric)),
      graphData);
  }

  /**
   * The iterations of the summary loop that share one scenario: the three
   * profiles in order, each baseline looked up in (or added to) the memo.
   */
  method ScenarioSeries(
    kind: GraphKind, scenario: string, metric: string, average: SummaryQuery -> seq<InputPoint>,
    baselines: map<SummaryQuery, real>, ghost fetched: seq<SummaryQuery>, ghost first: bool)
    returns (entries: seq<PointSeries>, baselines': map<SummaryQuery, real>, ghost fetched': seq<SummaryQuery>)
    requires forall p :: p in SummaryProfiles ==> QueryReady(kind, SummaryQuery(p, scenario, metric), average)
    requires Memo(baselines, fetched, average)
    requires KeysAre(baselines, metric, if first then [] else SummaryProfiles)
    ensures entries == ScenarioEntries(kind, scenario, metric, average)
    ensures Memo(baselines', fetched', average)
    ensures KeysAre(baselines', metric, SummaryProfiles)
  {
    ghost var spec := ScenarioEntries(kind, scenario, metric, average);
    entries, baselines', fetched' := [], baselines, fetched;
    for pi := 0 to |SummaryProfiles|
      invariant entries == spec[..pi]
      invariant Memo(baselines', fetched', average)
      invariant KeysAre(baselines', metric, if first then SummaryProfiles[..pi] else SummaryProfiles)
    {
      var query := SummaryQuery(SummaryProfiles[pi], scenario, metric);
      var entry;
      ghost var baselines0 := baselines';
      entry, baselines', fetched' := SummaryStep(kind, query, average, baselines', fetched');
      KeysAreStep(baselines0, baselines', metric, first, pi);
      ScenarioEntriesAt(kind, scenario, metric, average, pi);
      PrefixSnoc(spec, pi);
      entries := entries + [entry];
    }
    assert SummaryProfiles[..|SummaryProfiles|] == SummaryProfiles;
    assert spec[..|SummaryProfiles|] == spec;
  }

  /**
   * The summary loop of `handle_graph_impl`: one series per (scenario,
   * profile), scenario-major, each the averaged series divided by its
   * baseline and turned into graph points. The baseline of each
   * (profile, Empty, metric) query is fetched once, on first use, and then
   * read from the `baselines` map; `fetched` records every fetch.
   */
  method SummarySeries(
    kind: GraphKind, scenarios: seq<string>, metric: string, average: SummaryQuery -> seq<InputPoint>)
    returns (out: seq<PointSeries>, ghost fetched: seq<SummaryQuery>)
    requires SummaryReady(kind, scenarios, metric, average)
    ensures out == SummarySeriesOf(kind, scenarios, metric, average)
    ensures forall i, j :: 0 <= i < j < |fetched| ==> fetched[i] != fetched[j]
    ensures forall q :: q in fetched <==>
              |scenarios| > 0 && q.scenario == EmptyScenario && q.metric == metric && q.profile in SummaryProfiles
  {
    var baselines: map<SummaryQuery, real> := map[];
    out := [];
    fetched := [];
    for si := 0 to |scenarios|
      invariant out == SummarySeriesOf(kind, scenarios[..si], metric, average)
      invariant Memo(baselines, fetched, average)
      invariant KeysAre(baselines, metric, if si == 0 then [] else SummaryProfiles)
    {
      SummarySeriesOfStep(kind, scenarios, metric, average, si);
      var entries;
      entries, baselines, fetched := ScenarioSeries(kind, scenarios[si], metric, average, baselines, fetched, si == 0);
      out := out + entries;
    }
    assert scenarios[..|scenarios|] == scenarios;
  }

  // ---------------------------------------------------------------------------
  // handle_graph_impl
  // ---------------------------------------------------------------------------

  /** A series of the main query as the store returns it, already interpolated. */
  datatype FetchedSeries = FetchedSeries(path: SeriesPath, points: seq<InputPoint>)

  /** Every main series can be turned into graph points. */
  predicate MainReady(kind: GraphKind, main: seq<FetchedSeries>) {
    forall i :: 0 <= i < |main| ==> AllPresent(main[i].points) && DivisorsNonZero(kind, main[i].points)
  }

  predicate MainComplete(main: seq<FetchedSeries>) {
    forall i :: 0 <= i < |main| ==> Complete(main[i].path)
  }

  /** Reference definition: each main series with its points turned into graph points. */
  function MainSeriesOf(kind: GraphKind, main: seq<FetchedSeries>): (r: seq<PointSeries>)
    requires MainReady(kind, main)
    ensures |r| == |main|
  {
    seq(|main|, i requires 0 <= i < |main| => PointSeries(main[i].path, GraphPointsOf(kind, main[i].points)))
  }

  /** `series.into_iter().map(|sr| to_graph_points(..)).collect()`. */
  method MainSeries(kind: GraphKind, main: seq<FetchedSeries>) returns (out: seq<PointSeries>)
    requires MainReady(kind, main)
    ensures out == MainSeriesOf(kind, main)
    ensures forall i :: 0 <= i < |main| ==> out[i].path == main[i].path && |out[i].series| == |main[i].points|
  {
    ghost var spec := MainSeriesOf(kind, main);
    out := [];
    for i := 0 to |main|
      invariant out == spec[..i]
    {
      var points := ToGraphPoints(kind, main[i].points);
      PrefixSnoc(spec, i);
      out := out + [PointSeries(main[i].path, points)];
    }
    assert spec[..|main|] == spec;
  }

  /** Everything `handle_graph_impl` groups: the main series, then the summary series. */
  function AllSeriesOf(
    kind: GraphKind, stat: string, main: seq<FetchedSeries>, scenarios: seq<string>,
    average: SummaryQuery -> seq<InputPoint>): (r: seq<PointSeries>)
    requires MainReady(kind, main) && SummaryReady(kind, scenarios, stat, average)
    ensures |r| == |main| + |scenarios| * |SummaryProfiles|
  {
    MainSeriesOf(kind, main) + SummarySeriesOf(kind, scenarios, stat, average)
  }

  /** Only a main series can lack a path component: the summary paths are all complete. */
  lemma AllSeriesComplete(
    kind: GraphKind, stat: string, main: seq<FetchedSeries>, scenarios: seq<string>,
    average: SummaryQuery -> seq<InputPoint>, i: nat)
    requires MainReady(kind, main) && SummaryReady(kind, scenarios, stat, average)
    requires i < |AllSeriesOf(kind, stat, main, scenarios, average)|
    ensures i < |main| ==> AllSeriesOf(kind, stat, main, scenarios, average)[i].path == main[i].path
    ensures i >= |main| ==> Complete(AllSeriesOf(kind, stat, main, scenarios, average)[i].path)
  {
    if i >= |main| {
      SummarySeriesComplete(kind, scenarios, stat, average);
      assert AllSeriesOf(kind, stat, main, scenarios, average)[i]
             == SummarySeriesOf(kind, scenarios, stat, average)[i - |main|];
    }
  }

  /**
   * `handle_graph_impl`: the main series as graph points, then the summary
   * series, grouped by benchmark, profile and scenario. It fails exactly
   * when a main series lacks a component, with the first such one's tag.
   */
  method HandleGraphImpl(
    kind: GraphKind, stat: string, main: seq<FetchedSeries>, scenarios: seq<string>,
    average: SummaryQuery -> seq<InputPoint>)
    returns (r: Result<ByTestCase, ServerError>)
    requires MainReady(kind, main) && SummaryReady(kind, scenarios, stat, average)
    ensures r.Ok? <==> MainComplete(main)
    ensures r.Ok? ==> AllComplete(AllSeriesOf(kind, stat, main, scenarios, average))
                      && GroupedAs(r.value, AllSeriesOf(kind, stat, main, scenarios, average))
    ensures r.Err? ==>
              exists i :: 0 <= i < |main| && !Complete(main[i].path)
                && (forall j :: 0 <= j < i ==> Complete(main[j].path))
                && r.error == MissingPathComponent(MissingTag(main[i].path))
  {
    var series := MainSeries(kind, main);
    var summary;
    ghost var fetched;
    summary, fetched := SummarySeries(kind, scenarios, stat, average);
    ghost var all := AllSeriesOf(kind, stat, main, scenarios, average);
    assert series + summary == all;
    r := GroupByTestCase(series + summary);
    forall i | 0 <= i < |all| ensures (i < |main| ==> all[i].path == main[i].path) && (i >= |main| ==> Complete(all[i].path)) {
      AllSeriesComplete(kind, stat, main, scenarios, average, i);
    }
    if MainComplete(main) {
      assert AllComplete(all);
    }
  }

  // ---------------------------------------------------------------------------
  // Building the response
  // ---------------------------------------------------------------------------

  /** scenario -> series, for one benchmark and profile. */
  type ByRun = map<string, Series>

  /** benchmark -> profile -> scenario -> series. */
  type ResponseBenchmarks = map<string, map<string, ByRun>>

  /**
   * `by_run` holds one entry per scenario name of `runs`: the series of the
   * last run with that name (a later `insert` replaces an earlier one).
   */
  ghost predicate RunsEncoded(byRun: ByRun, runs: Runs) {
    && RunNamesMatch(byRun, runs)
    && forall name :: name in byRun ==> exists k :: LastRun(runs, name, k) && Encodes(byRun[name], runs[k].1)
  }

  /** The name keys of `byRun` are exactly the scenario names of `runs`. */
  ghost predicate RunNamesMatch(byRun: ByRun, runs: Runs) {
    forall name :: name in byRun <==> exists k :: 0 <= k < |runs| && runs[k].0 == name
  }

  /** `k` is the last run named `name`. */
  ghost predicate LastRun(runs: Runs, name: string, k: int) {
    0 <= k < |runs| && runs[k].0 == name && forall j :: k < j < |runs| ==> runs[j].0 != name
  }

  lemma RunNamesSnoc(byRun: ByRun, runs: Runs, run: (string, seq<GraphPoint>), series: Series)
    requires RunNamesMatch(byRun, runs)
    ensures RunNamesMatch(byRun[run.0 := series], runs + [run])
  {
    var all := runs + [run];
    var m := byRun[run.0 := series];
    forall name ensures name in m <==> exists k :: 0 <= k < |all| && all[k].0 == name {
      if exists k :: 0 <= k < |all| && all[k].0 == name {
        var k :| 0 <= k < |all| && all[k].0 == name;
        if k < |runs| {
          assert runs[k] == all[k];
        }
      }
      if name in byRun && name != run.0 {
        var k :| 0 <= k < |runs| && runs[k].0 == name;
        assert all[k] == runs[k];
      }
      if name == run.0 {
        assert all[|runs|] == run;
      }
    }
  }

  lemma LastRunSnoc(runs: Runs, run: (string, seq<GraphPoint>), name: string, k: int)
    requires LastRun(runs, name, k) && run.0 != name
    ensures LastRun(runs + [run], name, k) && (runs + [run])[k] == runs[k]
  {
    var all := runs + [run];
    assert forall j :: k < j < |runs| ==> all[j] == runs[j];
    assert all[|runs|] == run;
  }

  lemma RunsEncodedSnoc(byRun: ByRun, runs: Runs, run: (string, seq<GraphPoint>), series: Series)
    requires RunsEncoded(byRun, runs) && Encodes(series, run.1)
    ensures RunsEncoded(byRun[run.0 := series], runs + [run])
  {
    var all := runs + [run];
    var m := byRun[run.0 := series];
    RunNamesSnoc(byRun, runs, run, series);
    forall name | name in m
      ensures exists k :: 0 <= k < |all| && all[k].0 == name && Encodes(m[name], all[k].1)
                && forall j :: k < j < |all| ==> all[j].0 != name
    {
      if name == run.0 {
        assert LastRun(all, name, |runs|);
      } else {
        var k :| 0 <= k < |runs| && runs[k].0 == name && Encodes(byRun[name], runs[k].1)
                 && forall j :: k < j < |runs| ==> runs[j].0 != name;
        assert LastRun(runs, name, k);
        LastRunSnoc(runs, run, name, k);
      }
    }
  }

  /** With distinct scenario names nothing is overwritten: every run keeps its own series. */
  lemma RunsEncodedDistinct(byRun: ByRun, runs: Runs)
    requires RunsEncoded(byRun, runs)
    requires forall i, j :: 0 <= i < j < |runs| ==> runs[i].0 != runs[j].0
    ensures forall k :: 0 <= k < |runs| ==> runs[k].0 in byRun && Encodes(byRun[runs[k].0], runs[k].1)
  {
    forall k | 0 <= k < |runs| ensures runs[k].0 in byRun && Encodes(byRun[runs[k].0], runs[k].1) {
      var name := runs[k].0;
      var k' :| 0 <= k' < |runs| && runs[k'].0 == name && Encodes(byRun[name], runs[k'].1)
                && forall j :: k' < j < |runs| ==> runs[j].0 != name;
      assert k' == k;
    }
  }

  /** The `for (name, points) in series` loop: one response series per run. */
  method BuildByRun(runs: Runs) returns (byRun: ByRun)
    ensures RunsEncoded(byRun, runs)
  {
    byRun := map[];
    for i := 0 to |runs|
      invariant RunsEncoded(byRun, runs[..i])
    {
      var (name, points) := runs[i];
      var series := ToSeries(points);
      RunsEncodedSnoc(byRun, runs[..i], runs[i], series);
      PrefixSnoc(runs, i);
      byRun := byRun[name := series];
    }
    assert runs[..|runs|] == runs;
  }

  /** Every profile of `data` is present, each with its runs encoded. */
  ghost predicate ProfilesEncoded(byProfile: map<string, ByRun>, data: map<string, Runs>) {
    && byProfile.Keys == data.Keys
    && forall p :: p in byProfile ==> RunsEncoded(byProfile[p], data[p])
  }

  /** The `for (profile, series) in benchmark_data` loop. */
  method BuildByProfile(data: map<string, Runs>) returns (byProfile: map<string, ByRun>)
    ensures ProfilesEncoded(byProfile, data)
  {
    byProfile := map[];
    var todo := data.Keys;
    while todo != {}
      invariant todo <= data.Keys
      invariant byProfile.Keys == data.Keys - todo
      invariant forall p :: p in byProfile ==> RunsEncoded(byProfile[p], data[p])
      decreases |todo|
    {
      var profile :| profile in todo;
      var byRun := BuildByRun(data[profile]);
      byProfile := byProfile[profile := byRun];
      todo := todo - {profile};
    }
  }

  /** Every benchmark of the grouping is present, each with its profiles encoded. */
  ghost predicate BenchmarksEncoded(benchmarks: ResponseBenchmarks, m: ByTestCase) {
    && benchmarks.Keys == m.Keys
    && forall b :: b in benchmarks ==> ProfilesEncoded(benchmarks[b], m[b])
  }

  /** The `for (benchmark_, benchmark_data) in benchmarks_impl` loop. */
  method BuildBenchmarks(m: ByTestCase) returns (benchmarks: ResponseBenchmarks)
    ensures BenchmarksEncoded(benchmarks, m)
  {
    benchmarks := map[];
    var todo := m.Keys;
    while todo != {}
      invariant todo <= m.Keys
      invariant benchmarks.Keys == m.Keys - todo
      invariant forall b :: b in benchmarks ==> ProfilesEncoded(benchmarks[b], m[b])
      decreases |todo|
    {
      var benchmark :| benchmark in todo;
      var byProfile := BuildByProfile(m[benchmark]);
      benchmarks := benchmarks[benchmark := byProfile];
      todo := todo - {benchmark};
    }
  }

  /** Each series's own run is among the runs of its benchmark and profile. */
  lemma {:induction false} RunsOfContains(series: seq<PointSeries>, i: nat)
    requires AllComplete(series) && i < |series|
    ensures var path := series[i].path;
            (path.scenario.value, series[i].series) in RunsOf(series, path.benchmark.value, path.profile.value)
  {
    var path := series[i].path;
    var b, p := path.benchmark.value, path.profile.value;
    assert AllComplete(series[1..]) by {
      assert forall j :: 0 <= j < |series[1..]| ==> series[1..][j] == series[j + 1];
    }
    if i > 0 {
      assert series[1..][i - 1] == series[i];
      RunsOfContains(series[1..], i - 1);
    }
  }

  /**
   * Every grouped series reaches the response: its benchmark, its profile
   * and its scenario name are all keys there.
   */
  lemma ResponseCoversSeries(m: ByTestCase, series: seq<PointSeries>, benchmarks: ResponseBenchmarks)
    requires AllComplete(series) && GroupedAs(m, series) && BenchmarksEncoded(benchmarks, m)
    ensures forall i :: 0 <= i < |series| ==>
              var path := series[i].path;
              && path.benchmark.value in benchmarks
              && path.profile.value in benchmarks[path.benchmark.value]
              && path.scenario.value in benchmarks[path.benchmark.value][path.profile.value]
  {
    forall i | 0 <= i < |series|
      ensures var path := series[i].path;
              && path.benchmark.value in benchmarks
              && path.profile.value in benchmarks[path.benchmark.value]
              && path.scenario.value in benchmarks[path.benchmark.value][path.profile.value]
    {
      var path := series[i].path;
      var b, p := path.benchmark.value, path.profile.value;
      assert b in m && p in m[b];
      RunsOfContains(series, i);
      var runs := m[b][p];
      var k :| 0 <= k < |runs| && runs[k] == (path.scenario.value, series[i].series);
      assert RunsEncoded(benchmarks[b][p], runs);
    }
  }

  // ---------------------------------------------------------------------------
  // handle_graph and the landing-page cache
  // ---------------------------------------------------------------------------

  /** `collector::Bound`; a date is a day number. */
  datatype Bound = NoBound | CommitBound(sha: string) | DateBound(day: int)

  /** `graph::Request`. */
  datatype Request = Request(start: Bound, end: Bound, stat: string, kind: GraphKind)

  /** The request the landing page issues, the only one whose response is cached. */
  const DefaultRequest: Request := Request(NoBound, NoBound, "instructions:u", Raw)

  /** A commit of the requested range: its date as a timestamp, and its sha. */
  datatype Commit = Commit(timestamp: int, sha: string)

  /** `graph::NewResponse`. */
  datatype Response = Response(commits: seq<(int, string)>, benchmarks: ResponseBenchmarks)

  /**
   * What the store answers for one request: the commits of the range, the
   * interpolated main series, the summary scenarios and the averaged series
   * of each summary query.
   */
  datatype RequestData = RequestData(
    commits: seq<Commit>, main: seq<FetchedSeries>, scenarios: seq<string>,
    average: SummaryQuery -> seq<InputPoint>)

  predicate RequestReady(body: Request, data: RequestData) {
    MainReady(body.kind, data.main) && SummaryReady(body.kind, data.scenarios, body.stat, data.average)
  }

  function CommitsOf(commits: seq<Commit>): seq<(int, string)> {
    seq(|commits|, i requires 0 <= i < |commits| => (commits[i].timestamp, commits[i].sha))
  }

  function AllSeries(body: Request, data: RequestData): seq<PointSeries>
    requires RequestReady(body, data)
  {
    AllSeriesOf(body.kind, body.stat, data.main, data.scenarios, data.average)
  }

  /**
   * `resp` is the response to `body` over `data`: the range's commits, and
   * every series grouped and encoded.
   */
  ghost predicate IsResponse(resp: Response, body: Request, data: RequestData) {
    && RequestReady(body, data)
    && resp.commits == CommitsOf(data.commits)
    && AllComplete(AllSeries(body, data))
    && exists m :: GroupedAs(m, AllSeries(body, data)) && BenchmarksEncoded(resp.benchmarks, m)
  }

  /** The handler of graph requests, with its cache of the landing-page response. */
  class SiteCtxt {
    /** `landing_page`: the cached response to the default request, if any. */
    var landingPage: Option<Response>
    /** The store contents the cached response was computed from. */
    ghost var landingData: RequestData
    /** How many responses have been computed rather than served from the cache. */
    ghost var recomputations: nat

    /** The cache only ever holds a response to the default request. */
    ghost predicate Valid()
      reads this
    {
      landingPage.Some? ==> IsResponse(landingPage.value, DefaultRequest, landingData)
    }

    constructor ()
      ensures Valid() && landingPage == None && recomputations == 0
    {
      landingPage := None;
      landingData := RequestData([], [], [], q => []);
      recomputations := 0;
    }

    /**
     * `handle_graph`: the default request is served from the cache when it
     * holds a response; any other call computes the response, and a computed
     * response to the default request is stored. An error leaves the cache
     * as it was.
     */
    method HandleGraph(body: Request, data: RequestData) returns (r: Result<Response, ServerError>)
      requires Valid() && RequestReady(body, data)
      modifies this
      ensures Valid()
      ensures body == DefaultRequest && old(landingPage).Some? ==>
                && r == Ok(old(landingPage).value)
                && landingPage == old(landingPage) && landingData == old(landingData)
                && recomputations == old(recomputations)
      ensures !(body == DefaultRequest && old(landingPage).Some?) ==>
                && recomputations == old(recomputations) + 1
                && (r.Ok? <==> MainComplete(data.main))
                && (r.Ok? ==> IsResponse(r.value, body, data))
                && (r.Err? ==>
                      exists i :: 0 <= i < |data.main| && !Complete(data.main[i].path)
                        && (forall j :: 0 <= j < i ==> Complete(data.main[j].path))
                        && r.error == MissingPathComponent(MissingTag(data.main[i].path)))
                && landingPage == (if body == DefaultRequest && r.Ok? then Some(r.value) else old(landingPage))
      ensures r.Ok? ==> (body == DefaultRequest ==> IsResponse(r.value, body, landingData))
    {
      var isDefaultQuery := body == DefaultRequest;
      if isDefaultQuery {
        match landingPage {
          case Some(resp) => return Ok(resp);
          case None =>
        }
      }
      recomputations := recomputations + 1;
      var commits := CommitsOf(data.commits);
      var grouped := HandleGraphImpl(body.kind, body.stat, data.main, data.scenarios, data.average);
      if grouped.Err? {
        return Err(grouped.error);
      }
      var benchmarks := BuildBenchmarks(grouped.value);
      var resp := Response(commits, benchmarks);
      assert IsResponse(resp, body, data);
      if isDefaultQuery {
        landingPage := Some(resp);
        landingData := data;
      }
      return Ok(resp);
    }
  }
}
