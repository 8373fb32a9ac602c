# rustc-perf: runtime-benchmark discovery and the graph handler, in Dafny

This project models two sequential parts of rustc-perf and proves properties of the models.

**Runtime-benchmark discovery** (`collector/src/runtime/benchmark.rs`):

- `get_runtime_benchmark_groups` lists the benchmark directory and keeps the entries that are directories holding a `Cargo.toml`. It sorts the crates it finds by name.
- `discover_benchmarks` builds each crate in order, in its own `target_dir/<crate>/target` when a target directory is given.
- `discover_benchmark_groups` folds one crate's cargo message stream into `BenchmarkGroup`s. Each `bin` artifact with an executable gives one group. Its benchmark names come from asking the binary.
  - A failed read of the message stream is an error, and so is a failed listing or wait. A line of cargo output that is not a JSON message arrives as a text line and adds no group.
  - An unsuccessful exit is an error too, with exit code 1 when the status has none.
- The final groups are sorted by binary path.
- `BenchmarkSuite` counts its benchmark names in total and after a filter.

**The graph request handler** (`site/src/request_handlers/graph.rs`):

- `to_graph_points` turns an interpolated series into raw, percent-from-first or percent-from-previous points.
- The summary series divide each averaged series by the baseline of the matching Empty-scenario query. That baseline is fetched once per query and then reused from a memo.
- Every series is grouped into benchmark → profile → [(scenario, points)].
- The grouping is turned into the response: one `points` list and one `is_interpolated` index set per run.
- `handle_graph` keeps the landing-page response for the one default request.

Files:

- `wrappers.dfy`: `Option` and `Result`.
- `ordering.dfy`: the string and path orders, and a sort on sequences.
- `runtime_benchmark.dfy`: module `RuntimeBenchmark`.
- `graph_points.dfy`: module `GraphPoints`, covering `to_graph_points` and series conversion.
- `graph.dfy`: module `GraphHandler`, covering grouping, summary series, response building and the cache class `SiteCtxt`.

What happens outside the modelled code enters as inputs:

- directory listings and cargo message streams become sequences of small datatypes;
- starting cargo, listing a binary's benchmarks and `passes_filter` become function parameters;
- the store's answers for a request become a `RequestData` value.

The loops of the source are methods with loop invariants. Each method is proved against a reference function, and the lemmas state what the source promises about that function.

## Model

| member | source | states |
|---|---|---|
| Ordering.StrLeTotal | collector/src/runtime/benchmark.rs:231 | Any two crate names are comparable under the name order used for sorting. |
| Ordering.StrLeAntisymmetric | collector/src/runtime/benchmark.rs:231 | Two names that are each ≤ the other are equal. |
| Ordering.StrLeTransitive | collector/src/runtime/benchmark.rs:231 | The name order is transitive. |
| Ordering.PathLeTotal | collector/src/runtime/benchmark.rs:121 | Any two binary paths are comparable under the component-wise path order. |
| Ordering.PathLeTransitive | collector/src/runtime/benchmark.rs:121 | The path order is transitive. |
| Ordering.Insert | collector/src/runtime/benchmark.rs:121 | Inserting one element adds exactly that element to the multiset of the sequence. |
| Ordering.InsertSorted | collector/src/runtime/benchmark.rs:121 | Under a total, transitive order, inserting into a sorted sequence keeps it sorted. |
| Ordering.SortBy | collector/src/runtime/benchmark.rs:121 | `sort_unstable_by`: the result is sorted and is a permutation of the input. |
| RuntimeBenchmark.BenchmarkNamesLength | collector/src/runtime/benchmark.rs:56-60 | The flattened name list is as long as the sum of the group sizes. |
| RuntimeBenchmark.BenchmarkNamesAt | collector/src/runtime/benchmark.rs:56-60 | Name k of group g sits at offset (sizes of groups before g) + k of the flattened list. This gives stored order, group after group. |
| RuntimeBenchmark.BenchmarkNamesAppend | collector/src/runtime/benchmark.rs:56-60 | Flattening distributes over concatenation of group lists. |
| RuntimeBenchmark.GroupSizesAppend | collector/src/runtime/benchmark.rs:40-42 | The name total of two group lists is the sum of their totals. |
| RuntimeBenchmark.GroupSizesPermutation | collector/src/runtime/benchmark.rs:121 | Reordering the groups, as the final sort does, keeps the name total. |
| RuntimeBenchmark.TotalBenchmarkCount | collector/src/runtime/benchmark.rs:40-42 | `total_benchmark_count` is the sum over the groups of their numbers of names. |
| RuntimeBenchmark.CountPassingBounds | collector/src/runtime/benchmark.rs:44-54 | At most all names pass the filter. All of them pass exactly when the predicate accepts every name. |
| RuntimeBenchmark.FilteredBenchmarkCount | collector/src/runtime/benchmark.rs:44-54 | `filtered_benchmark_count` ≤ `total_benchmark_count`. The two are equal iff `passes_filter` accepts every flattened name. |
| RuntimeBenchmark.OrdersAreTotal | collector/src/runtime/benchmark.rs:231 | The crate-name order and the binary-path order are total and transitive, so both sorts are well defined. |
| RuntimeBenchmark.CrateEntriesErrorPersists | collector/src/runtime/benchmark.rs:215-230 | Once an entry fails, later entries do not change the outcome (early return). |
| RuntimeBenchmark.CrateEntriesSpec | collector/src/runtime/benchmark.rs:215-230 | Scanning succeeds iff every entry is readable and every directory with a `Cargo.toml` has a file name. On success a crate is found iff such an entry has its name and path. |
| RuntimeBenchmark.GetRuntimeBenchmarkGroups | collector/src/runtime/benchmark.rs:213-233 | A listing error becomes `ListDirFailed`; an entry error is returned as is. Otherwise the crates are sorted by name and are a permutation of the qualifying entries. |
| RuntimeBenchmark.StreamGroupsErrorPersists | collector/src/runtime/benchmark.rs:134-135 | A failing message or gather aborts the fold: later messages do not matter. |
| RuntimeBenchmark.BinExecutablesSnoc | collector/src/runtime/benchmark.rs:137-141 | One more message adds its executable to the bin list iff it is a `bin` artifact with an executable. |
| RuntimeBenchmark.StreamGroupsSpec | collector/src/runtime/benchmark.rs:134-162 | The fold succeeds iff every item of the stream is read and every bin artifact's listing succeeds. Then there is one group per bin artifact, in stream order, each with that binary and the names its listing returned. Other messages add nothing. |
| RuntimeBenchmark.DiscoverBenchmarkGroups | collector/src/runtime/benchmark.rs:129-173 | `groups` only grows. On success exactly the stream's groups are appended. A stream read, listing or wait error, or an unsuccessful exit, is returned; the exit code is 1 when the status has none. |
| RuntimeBenchmark.CrateTargetDirsDistinct | collector/src/runtime/benchmark.rs:95-96 | Under one target dir, crates with different names get different build dirs, so no two crates share a cargo target. |
| RuntimeBenchmark.AllCrateGroupsErrorPersists | collector/src/runtime/benchmark.rs:107-117 | The first failing crate's error is the run's error: later crates do not matter. |
| RuntimeBenchmark.AllCrateGroupsOk | collector/src/runtime/benchmark.rs:94-118 | Building all crates succeeds iff every crate starts and compiles. |
| RuntimeBenchmark.AllCrateGroupsMembers | collector/src/runtime/benchmark.rs:94-118 | On success a group is collected iff some crate produced it. |
| RuntimeBenchmark.CompileCrate | collector/src/runtime/benchmark.rs:95-117 | One crate: a start failure becomes `StartFailed`, a compile failure becomes `CompileFailed`. On success that crate's groups are appended. |
| RuntimeBenchmark.CompileCrates | collector/src/runtime/benchmark.rs:93-118 | The per-crate loop yields all crates' groups in crate order, or the first crate's error. |
| RuntimeBenchmark.SortGroups | collector/src/runtime/benchmark.rs:121 | The final sort: groups sorted by binary, a permutation of the input, same name total. |
| RuntimeBenchmark.DiscoverBenchmarks | collector/src/runtime/benchmark.rs:83-125 | Listing errors are propagated. Crates are processed in name order, and any crate error aborts. On success the suite's groups are sorted by binary and are a permutation of all crates' groups. The name total is preserved. |
| GraphPoints.GraphPointsOf | site/src/request_handlers/graph.rs:218-241 | The reference output has one point per input. |
| GraphPoints.ToGraphPoints | site/src/request_handlers/graph.rs:218-241 | The loop with its `first`/`prev` state yields the reference output: one point per input, in order, with each input's interpolation flag. |
| GraphPoints.PercentInverse | site/src/request_handlers/graph.rs:228-230 | A percent change from a non-zero base, read back, gives the value. |
| GraphPoints.FirstPercentIsZero | site/src/request_handlers/graph.rs:226-231 | Under both percent kinds the first point is 0: it is its own first and its own predecessor. |
| GraphPoints.RawIsIdentity | site/src/request_handlers/graph.rs:234 | With `Raw` each output value is the input value. |
| GraphPoints.PercentFromFirstInverse | site/src/request_handlers/graph.rs:226-228 | With `PercentFromFirst`, v₀·(1 + out_i/100) = v_i for every i: the output is (v_i − v₀)/v₀·100. |
| GraphPoints.CompoundSuffix | site/src/request_handlers/graph.rs:229-231 | Compounding the `PercentRelative` outputs from point j onward, starting at v_{j−1}, rebuilds the values from j onward. |
| GraphPoints.PercentRelativeInverse | site/src/request_handlers/graph.rs:229-235 | With `PercentRelative`, compounding the outputs onto v₀ gives back the whole input series: out_i = (v_i − v_{i−1})/v_{i−1}·100. |
| GraphPoints.PercentRelativeExample | site/src/request_handlers/graph.rs:229-235 | 10, 20, 15 give 0, 100, −25. |
| GraphPoints.PercentFromFirstExample | site/src/request_handlers/graph.rs:226-236 | 10, 20, 15 give 0, 100, 50. |
| GraphPoints.ToSeries | site/src/request_handlers/graph.rs:47-57 | The response series has one value per point, in order. Its index set is {idx as u16 : point idx interpolated}. |
| GraphPoints.InterpolatedIndicesExact | site/src/request_handlers/graph.rs:52-57 | Up to 2^16 points, an index is in `is_interpolated` iff that point is interpolated. |
| GraphPoints.InterpolatedIndicesWrap | site/src/request_handlers/graph.rs:55 | At 2^16 + 1 points the `u16` cast aliases: index 0 is recorded although point 0 is not interpolated. |
| GraphHandler.RunsOfSnoc | site/src/request_handlers/graph.rs:205-212 | One more series extends the runs of its own (benchmark, profile) by its (scenario, points) and leaves other pairs unchanged. |
| GraphHandler.RunsOfAbsent | site/src/request_handlers/graph.rs:205-212 | A pair that no series has has no runs. |
| GraphHandler.FileSeriesBenchmarks | site/src/request_handlers/graph.rs:207-209 | After filing one series, the benchmark keys are exactly the benchmarks seen. |
| GraphHandler.FileSeriesProfiles | site/src/request_handlers/graph.rs:207-211 | After filing one series, each benchmark's profile keys are exactly the profiles seen with it. |
| GraphHandler.FileSeriesRuns | site/src/request_handlers/graph.rs:207-212 | After filing one series, every (benchmark, profile) entry lists its runs in series order. |
| GraphHandler.FileSeriesGroups | site/src/request_handlers/graph.rs:205-213 | One `entry().or_insert_with().push()` step keeps the map an exact grouping of the series seen so far. |
| GraphHandler.GroupByTestCase | site/src/request_handlers/graph.rs:204-215 | Succeeds iff every path has a benchmark, profile and scenario; the result is then the exact grouping. Otherwise the error names the missing component of the first incomplete path. |
| GraphHandler.BaselineOfEmptyIsItself | site/src/request_handlers/graph.rs:151-161 | A query is its own baseline query iff its scenario is Empty, and a baseline query's baseline is itself. |
| GraphHandler.EmptySummaryStartsAtOne | site/src/request_handlers/graph.rs:151-184 | An Empty-scenario summary with data is divided by its own first averaged value. Its raw series starts at 1.0, and each ratio times that first value is the averaged value. |
| GraphHandler.Normalise | site/src/request_handlers/graph.rs:177-184 | The averaged series divided by the baseline keeps its length, and every value stays present. |
| GraphHandler.NormaliseInverse | site/src/request_handlers/graph.rs:184 | Each summary value times the baseline is the averaged value, and its interpolation flag is kept. |
| GraphHandler.NormaliseExample | site/src/request_handlers/graph.rs:184 | Baseline 2 turns 2, 4, 6 into 1, 2, 3. |
| GraphHandler.ScenarioEntries | site/src/request_handlers/graph.rs:123-127 | Each scenario gives three summary series, one per profile. |
| GraphHandler.SummarySeriesOf | site/src/request_handlers/graph.rs:123-134 | The summary has one series per (scenario, profile), scenario-major. |
| GraphHandler.SummarySeriesComplete | site/src/request_handlers/graph.rs:186-199 | Every summary path has benchmark `Summary`, a profile, a scenario and the requested metric. |
| GraphHandler.LookupBaseline | site/src/request_handlers/graph.rs:162-176 | The memo returns the query's baseline. A miss fetches once and stores; a hit fetches nothing. The memo stays correct and free of repeated fetches. |
| GraphHandler.SummaryStep | site/src/request_handlers/graph.rs:136-201 | One summary iteration yields the reference summary series and adds at most its baseline query to the memo. |
| GraphHandler.ScenarioSeries | site/src/request_handlers/graph.rs:136-202 | A scenario's iterations yield its three reference series. Afterwards the memo holds exactly the three baseline queries. |
| GraphHandler.SummarySeries | site/src/request_handlers/graph.rs:119-202 | The summary loop yields the reference summary series. Each baseline query is fetched at most once. The baselines fetched are exactly the (check/debug/opt, Empty, metric) queries, and only when there is a scenario. |
| GraphHandler.MainSeriesOf | site/src/request_handlers/graph.rs:111-117 | One graph-point series per fetched series. |
| GraphHandler.MainSeries | site/src/request_handlers/graph.rs:111-117 | The main series keep their paths and lengths and equal the reference mapping. |
| GraphHandler.AllSeriesOf | site/src/request_handlers/graph.rs:111-202 | There are as many series as main series plus three per summary scenario. |
| GraphHandler.AllSeriesComplete | site/src/request_handlers/graph.rs:186-213 | Only a main series can lack a path component: every summary path is complete. |
| GraphHandler.HandleGraphImpl | site/src/request_handlers/graph.rs:91-216 | Succeeds iff every main path is complete, and then groups main series followed by summary series exactly. Otherwise it fails with the first incomplete main path's missing component. |
| GraphHandler.RunsEncodedSnoc | site/src/request_handlers/graph.rs:46-59 | Inserting one run's series keeps `by_run` keyed by exactly the scenario names seen. Each name maps to the series of its last run. |
| GraphHandler.RunsEncodedDistinct | site/src/request_handlers/graph.rs:46-59 | With distinct scenario names, every run's own series is in `by_run`. |
| GraphHandler.BuildByRun | site/src/request_handlers/graph.rs:44-60 | `by_run`: one converted series per scenario name, the last insert winning. |
| GraphHandler.BuildByProfile | site/src/request_handlers/graph.rs:43-63 | `by_profile` has the same profile keys, each with its runs encoded. |
| GraphHandler.BuildBenchmarks | site/src/request_handlers/graph.rs:40-66 | `benchmarks` has the same benchmark keys, each with its profiles encoded. |
| GraphHandler.RunsOfContains | site/src/request_handlers/graph.rs:205-212 | Each series's (scenario, points) is among the runs of its benchmark and profile. |
| GraphHandler.ResponseCoversSeries | site/src/request_handlers/graph.rs:40-66 | Every grouped series reaches the response under its benchmark, profile and scenario. |
| GraphHandler.SiteCtxt.constructor | site/src/request_handlers/graph.rs:26-31 | A fresh context has an empty landing-page slot and satisfies the cache invariant. |
| GraphHandler.SiteCtxt.HandleGraph | site/src/request_handlers/graph.rs:12-84 | Only the default request reads the cache: a hit returns the cached response unchanged and recomputes nothing. Otherwise the response is recomputed: Ok iff every main path is complete, then exactly the encoded response to the request, else the first missing component. Only a successful default request overwrites the cache, which only ever holds a default response. |

`GraphHandler.SiteCtxt.HandleGraph` states:

- Only the exact default request (no bounds, `instructions:u`, `Raw`) reads the landing-page cache.
- On a hit it returns the cached response. Nothing is recomputed and the cache is unchanged.
- Otherwise the response is recomputed. It succeeds iff every main path is complete, and it is then the grouped and encoded response to the request.
- A successful default request overwrites the cache. Any other request, and any error, leaves the cache untouched.
- The cache only ever holds a response to the default request.

## Left out

- Spawning cargo and benchmark binaries (`start_cargo_build`, `gather_benchmarks`), JSON decoding of cargo messages and benchmark lists, and `std::fs::read_dir` are process and filesystem I/O. The model takes their outcomes as inputs:
  - a listing of `DirEntry` values (the `is_dir` and `Cargo.toml` checks included);
  - a `build` function giving each crate's message stream and exit status;
  - a `gather` function giving each binary's names.
- `start_cargo_build` command construction (environment, arguments) is not modelled: it only configures the spawned process.
- Console progress output and the echoing of `TextLine` and `CompilerMessage` are presentation only. In the model those messages leave `groups` unchanged and do nothing else.
- `passes_filter` is a parameter, since its pattern semantics are not part of this model.
- `runtime_benchmark_dir`, `BenchmarkFilter::new` and `BenchmarkGroup::name` are a constant path, a plain constructor and a file-name accessor, so they have no model.
- `TotalBenchmarkCount` / `FilteredBenchmarkCount`: the `as u64` cast is not modelled. A `usize` count always fits in `u64`.
- Paths are sequences of components compared component-wise as strings. The root/prefix, `.` and `..` component kinds of `PathBuf` are not distinguished. Rust orders `..` before every normal component, which plain string comparison does not.
- `SortBy`: `sort_unstable_by` is modelled as an insertion sort on a sequence rather than in place. Only the promised properties (sorted, permutation) are stated, so unstable reordering of equal keys is not pinned down.
- `anyhow` error messages and contexts are reduced to error constructors carrying the crate name, path, code or reason. The message text is not modelled.
- `statistic_series`, `data_range`, `summary_scenarios`, `interpolate()` and `db::average` are store calls and helpers that are not part of this model. The answers for one request are inputs in `RequestData`. Store failures, which the source propagates with `?`, are not modelled.
- The path of each fetched series is taken as given. The selector query matching that produces it is not modelled.
- `ToGraphPoints`: requires every value to be present (the source panics otherwise) and the divisors of the chosen kind to be non-zero. With a zero divisor the source yields NaN or an infinity, which `real` cannot represent.
- `SummarySeries`: requires, for the same reason, a present baseline value and a non-zero baseline whenever the averaged series is non-empty.
- `SiteCtxt.HandleGraph`: `RequestReady` excludes the same absent and zero values.
- f64/f32 rounding, including the `as f32` cast of `GraphPoint::value`, is not modelled: values are exact reals.
- Profiles and scenarios are kept as their display strings. The `parse::<Profile>().unwrap()` and `parse::<Scenario>().unwrap()` round trips, and the metric `parse().unwrap()`, are identities on them. The display names of `Profile::{Check, Debug, Opt}` and `Scenario::Empty` live in the database module and are taken to be "check", "debug", "opt" and "full".
- The `ArcSwap` landing-page slot's atomic load and store, and concurrent requests, are not modelled: the cache is a plain field of `SiteCtxt`.
- Commit timestamps are inputs, not chrono dates. The `ArtifactId::Tag` arm is `unreachable!()` in the source and has no model.
- `HashMap` iteration order is not modelled: the response maps are built by picking any remaining key.
