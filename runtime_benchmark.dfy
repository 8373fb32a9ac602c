/**
 * Runtime-benchmark discovery: which crates of the benchmark directory are
 * built, how one crate's cargo message stream becomes benchmark groups, how a
 * failing build aborts the run, and the suite-wide counts.
 *
 * Reading the directory, spawning cargo, decoding its JSON messages and
 * running a binary with `list` are not modelled: their outcomes are inputs
 * (a listing, a `build` function from crate path and target dir to the
 * cargo run it produces, and a `gather` function from binary to its list
 * of benchmark names).
 */
module RuntimeBenchmark {
  import opened Wrappers
  import opened Ordering

  /** A filesystem path, as its sequence of components. */
  type Path = seq<string>

  /** One compiled binary and the benchmarks it reports, in reported order. */
  datatype BenchmarkGroup = BenchmarkGroup(binary: Path, benchmarkNames: seq<string>)

  datatype BenchmarkSuite = BenchmarkSuite(groups: seq<BenchmarkGroup>)

  datatype BenchmarkFilter = BenchmarkFilter(excludePattern: Option<string>, includePattern: Option<string>)

  datatype BenchmarkGroupCrate = BenchmarkGroupCrate(name: string, path: Path)

  /** What reading one directory entry yields. */
  datatype DirEntry =
    | Unreadable(reason: string)  // `entry?` or `entry.file_type()?` failed
    | Entry(path: Path, isDir: bool, hasManifest: bool, fileName: Option<string>)
      // `hasManifest`: `path/Cargo.toml` is a file; `fileName`: `file_name()` as UTF-8

  /** The cargo messages the discovery code distinguishes. */
  datatype Message =
    | CompilerArtifact(executable: Option<Path>, targetKinds: seq<string>)
    | TextLine(line: string)
    | CompilerMessage(rendered: Option<string>, message: string)
    | OtherMessage

  datatype ExitStatus = ExitStatus(success: bool, code: Option<int>)

  /**
   * A started cargo build: the items of its message stream and how `wait()`
   * ended. An `Err` item is a failed read of cargo's output; a line that is
   * not a JSON message arrives as `TextLine`.
   */
  datatype CargoRun = CargoRun(messages: seq<Result<Message, string>>, exit: Result<ExitStatus, string>)

  datatype Error =
    | ListDirFailed(dir: Path, reason: string)
    | EntryFailed(reason: string)
    | NoFileName(path: Path)
    | StartFailed(crateName: string, reason: string)  // "Cannot not start compilation of <crate>"
    | StreamReadFailed(reason: string)
    | GatherFailed(binary: Path, reason: string)
    | WaitFailed(reason: string)
    | ExitFailure(code: int)
    | CompileFailed(crateName: string, cause: Error)  // "Cannot compile runtime benchmark <crate>"

  // ---------------------------------------------------------------------------
  // Suite-wide counts
  // ---------------------------------------------------------------------------

  /** `benchmark_names`: every group's names, group after group. */
  function BenchmarkNames(groups: seq<BenchmarkGroup>): seq<string> {
    if groups == [] then [] else groups[0].benchmarkNames + BenchmarkNames(groups[1..])
  }

  /** Sum over the groups of the number of names each holds. */
  function GroupSizes(groups: seq<BenchmarkGroup>): nat {
    if groups == [] then 0 else |groups[0].benchmarkNames| + GroupSizes(groups[1..])
  }

  lemma {:induction false} BenchmarkNamesLength(groups: seq<BenchmarkGroup>)
    ensures |BenchmarkNames(groups)| == GroupSizes(groups)
  {
    if groups != [] {
      BenchmarkNamesLength(groups[1..]);
    }
  }

  /** The names of group `g` sit, in their stored order, right after those of the groups before it. */
  lemma {:induction false} BenchmarkNamesAt(groups: seq<BenchmarkGroup>, g: nat, k: nat)
    requires g < |groups| && k < |groups[g].benchmarkNames|
    ensures GroupSizes(groups[..g]) + k < |BenchmarkNames(groups)|
    ensures BenchmarkNames(groups)[GroupSizes(groups[..g]) + k] == groups[g].benchmarkNames[k]
  {
    BenchmarkNamesLength(groups);
    if g == 0 {
      assert groups[..0] == [];
    } else {
      BenchmarkNamesAt(groups[1..], g - 1, k);
      assert groups[..g][1..] == groups[1..][..g - 1];
      assert groups[..g] != [];
    }
  }

  lemma {:induction false} BenchmarkNamesAppend(a: seq<BenchmarkGroup>, b: seq<BenchmarkGroup>)
    ensures BenchmarkNames(a + b) == BenchmarkNames(a) + BenchmarkNames(b)
  {
    if a == [] {
      assert a + b == b;
    } else {
      assert (a + b)[1..] == a[1..] + b;
      BenchmarkNamesAppend(a[1..], b);
    }
  }

  lemma {:induction false} GroupSizesAppend(a: seq<BenchmarkGroup>, b: seq<BenchmarkGroup>)
    ensures GroupSizes(a + b) == GroupSizes(a) + GroupSizes(b)
  {
    if a == [] {
      assert a + b == b;
    } else {
      assert (a + b)[1..] == a[1..] + b;
      GroupSizesAppend(a[1..], b);
    }
  }

  lemma RemoveAtMultiset(b: seq<BenchmarkGroup>, j: nat)
    requires j < |b|
    ensures multiset(b[..j] + b[j + 1..]) == multiset(b) - multiset{b[j]}
  {
    assert b == b[..j] + [b[j]] + b[j + 1..];
  }

  lemma RemoveAtSizes(b: seq<BenchmarkGroup>, j: nat)
    requires j < |b|
    ensures GroupSizes(b) == |b[j].benchmarkNames| + GroupSizes(b[..j] + b[j + 1..])
  {
    var rest := [b[j]] + b[j + 1..];
    assert b[..j] + rest == b;
    GroupSizesAppend(b[..j], rest);
    GroupSizesAppend(b[..j], b[j + 1..]);
    assert rest[1..] == b[j + 1..];
  }

  /** Removing the head of `a` and a matching element of `b` keeps the two multisets equal. */
  lemma RemoveMatching(a: seq<BenchmarkGroup>, b: seq<BenchmarkGroup>) returns (j: nat)
    requires a != [] && multiset(a) == multiset(b)
    ensures j < |b| && b[j] == a[0]
    ensures multiset(a[1..]) == multiset(b[..j] + b[j + 1..])
  {
    assert a == [a[0]] + a[1..];
    assert a[0] in multiset(b);
    j :| 0 <= j < |b| && b[j] == a[0];
    RemoveAtMultiset(b, j);
  }

  /** Reordering the groups (as the final sort does) keeps the total. */
  lemma {:induction false} GroupSizesPermutation(a: seq<BenchmarkGroup>, b: seq<BenchmarkGroup>)
    requires multiset(a) == multiset(b)
    ensures GroupSizes(a) == GroupSizes(b)
    decreases |a|
  {
    if a == [] {
      assert |b| == |multiset(b)| == 0;
    } else {
      var j := RemoveMatching(a, b);
      RemoveAtSizes(b, j);
      GroupSizesPermutation(a[1..], b[..j] + b[j + 1..]);
    }
  }

  /** `total_benchmark_count`: how many names `benchmark_names` yields. */
  function TotalBenchmarkCount(suite: BenchmarkSuite): (n: nat)
    ensures n == GroupSizes(suite.groups)
  {
    BenchmarkNamesLength(suite.groups);
    |BenchmarkNames(suite.groups)|
  }

  /** How many of `names` pass the filter. */
  function CountPassing(
    names: seq<string>, filter: BenchmarkFilter,
    passes: (string, Option<string>, Option<string>) -> bool): nat
  {
    if names == [] then 0
    else (if passes(names[0], filter.excludePattern, filter.includePattern) then 1 else 0)
         + CountPassing(names[1..], filter, passes)
  }

  lemma {:induction false} CountPassingBounds(
    names: seq<string>, filter: BenchmarkFilter,
    passes: (string, Option<string>, Option<string>) -> bool)
    ensures CountPassing(names, filter, passes) <= |names|
    ensures CountPassing(names, filter, passes) == |names|
            <==> forall i :: 0 <= i < |names| ==> passes(names[i], filter.excludePattern, filter.includePattern)
  {
    if names != [] {
      CountPassingBounds(names[1..], filter, passes);
      if forall i :: 0 <= i < |names| - 1 ==> passes(names[1..][i], filter.excludePattern, filter.includePattern) {
        forall i | 0 < i < |names| ensures passes(names[i], filter.excludePattern, filter.includePattern) {
          assert names[i] == names[1..][i - 1];
        }
      }
    }
  }

  /**
   * `filtered_benchmark_count`: never more than the total, and equal to it
   * exactly when every name passes `passes_filter` (here the parameter `passes`).
   */
  function FilteredBenchmarkCount(
    suite: BenchmarkSuite, filter: BenchmarkFilter,
    passes: (string, Option<string>, Option<string>) -> bool): (n: nat)
    ensures n <= TotalBenchmarkCount(suite)
    ensures n == TotalBenchmarkCount(suite)
            <==> forall i :: 0 <= i < |BenchmarkNames(suite.groups)| ==>
                   passes(BenchmarkNames(suite.groups)[i], filter.excludePattern, filter.includePattern)
  {
    BenchmarkNamesLength(suite.groups);
    CountPassingBounds(BenchmarkNames(suite.groups), filter, passes);
    CountPassing(BenchmarkNames(suite.groups), filter, passes)
  }

  // ---------------------------------------------------------------------------
  // Finding the benchmark crates
  // ---------------------------------------------------------------------------

  predicate ByName(a: BenchmarkGroupCrate, b: BenchmarkGroupCrate) {
    StrLe(a.name, b.name)
  }

  predicate ByBinary(a: BenchmarkGroup, b: BenchmarkGroup) {
    PathLe(a.binary, b.binary)
  }

  lemma OrdersAreTotal()
    ensures Total(ByName) && Transitive(ByName)
    ensures Total(ByBinary) && Transitive(ByBinary)
  {
    forall a: BenchmarkGroupCrate, b: BenchmarkGroupCrate ensures ByName(a, b) || ByName(b, a) {
      StrLeTotal(a.name, b.name);
    }
    forall a: BenchmarkGroupCrate, b, c | ByName(a, b) && ByName(b, c) ensures ByName(a, c) {
      StrLeTransitive(a.name, b.name, c.name);
    }
    forall a: BenchmarkGroup, b: BenchmarkGroup ensures ByBinary(a, b) || ByBinary(b, a) {
      PathLeTotal(a.binary, b.binary);
    }
    forall a: BenchmarkGroup, b, c | ByBinary(a, b) && ByBinary(b, c) ensures ByBinary(a, c) {
      PathLeTransitive(a.binary, b.binary, c.binary);
    }
  }

  /** An entry that names a benchmark crate: a directory holding a `Cargo.toml` file. */
  predicate IsCrateEntry(e: DirEntry) {
    e.Entry? && e.isDir && e.hasManifest
  }

  /** One step of the entry loop: skip, keep, or fail. */
  function EntryStep(crates: seq<BenchmarkGroupCrate>, e: DirEntry): Result<seq<BenchmarkGroupCrate>, Error> {
    match e
    case Unreadable(reason) => Err(EntryFailed(reason))
    case Entry(path, isDir, hasManifest, fileName) =>
      if !isDir || !hasManifest then Ok(crates)
      else if fileName.None? then Err(NoFileName(path))
      else Ok(crates + [BenchmarkGroupCrate(fileName.value, path)])
  }

  /** The crates found in `entries`, in listing order, or the first error met. */
  function CrateEntries(entries: seq<DirEntry>): Result<seq<BenchmarkGroupCrate>, Error> {
    if entries == [] then Ok([])
    else match CrateEntries(entries[..|entries| - 1])
      case Err(e) => Err(e)
      case Ok(crates) => EntryStep(crates, entries[|entries| - 1])
  }

  lemma {:induction false} CrateEntriesErrorPersists(entries: seq<DirEntry>, i: nat)
    requires i <= |entries| && CrateEntries(entries[..i]).Err?
    ensures CrateEntries(entries) == CrateEntries(entries[..i])
    decreases |entries| - i
  {
    if i < |entries| {
      assert entries[..i + 1][..i] == entries[..i];
      CrateEntriesErrorPersists(entries, i + 1);
    } else {
      assert entries[..i] == entries;
    }
  }

  /**
   * Listing succeeds exactly when every entry is readable and every crate
   * entry has a file name, and then it keeps exactly the crate entries.
   */
  lemma {:induction false} CrateEntriesSpec(entries: seq<DirEntry>)
    ensures CrateEntries(entries).Ok?
            <==> forall i :: 0 <= i < |entries| ==>
                   entries[i].Entry? && (IsCrateEntry(entries[i]) ==> entries[i].fileName.Some?)
    ensures CrateEntries(entries).Ok? ==>
              forall c :: c in CrateEntries(entries).value
                <==> exists i :: 0 <= i < |entries| && IsCrateEntry(entries[i])
                       && entries[i].fileName == Some(c.name) && entries[i].path == c.path
  {
    if entries != [] {
      var init := entries[..|entries| - 1];
      var last := entries[|entries| - 1];
      CrateEntriesSpec(init);
      forall i | 0 <= i < |init| ensures entries[i] == init[i] { }
      if CrateEntries(init).Ok? && CrateEntries(entries).Ok? {
        var prev := CrateEntries(init).value;
        forall c ensures c in CrateEntries(entries).value
          <==> exists i :: 0 <= i < |entries| && IsCrateEntry(entries[i])
                 && entries[i].fileName == Some(c.name) && entries[i].path == c.path
        {
          if exists i :: 0 <= i < |entries| && IsCrateEntry(entries[i])
                 && entries[i].fileName == Some(c.name) && entries[i].path == c.path {
            var i :| 0 <= i < |entries| && IsCrateEntry(entries[i])
                 && entries[i].fileName == Some(c.name) && entries[i].path == c.path;
            if i < |init| {
              assert init[i] == entries[i];
            }
          }
        }
      }
    }
  }

  /**
   * `get_runtime_benchmark_groups`: the crate entries of the listing, sorted
   * by name; the first unreadable entry or unnamed crate aborts the listing.
   */
  method GetRuntimeBenchmarkGroups(directory: Path, listing: Result<seq<DirEntry>, string>)
    returns (r: Result<seq<BenchmarkGroupCrate>, Error>)
    ensures listing.Err? ==> r == Err(ListDirFailed(directory, listing.error))
    ensures listing.Ok? && CrateEntries(listing.value).Err? ==> r == CrateEntries(listing.value)
    ensures listing.Ok? && CrateEntries(listing.value).Ok? ==>
              r.Ok? && SortedBy(r.value, ByName)
              && multiset(r.value) == multiset(CrateEntries(listing.value).value)
  {
    if listing.Err? {
      return Err(ListDirFailed(directory, listing.error));
    }
    var entries := listing.value;
    var groups: seq<BenchmarkGroupCrate> := [];
    var i := 0;
    while i < |entries|
      invariant 0 <= i <= |entries|
      invariant CrateEntries(entries[..i]) == Ok(groups)
    {
      assert entries[..i + 1][..i] == entries[..i];
      var e := entries[i];
      if e.Unreadable? {
        CrateEntriesErrorPersists(entries, i + 1);
        return Err(EntryFailed(e.reason));
      }
      if !e.isDir || !e.hasManifest {
        i := i + 1;
        continue;
      }
      if e.fileName.None? {
        CrateEntriesErrorPersists(entries, i + 1);
        return Err(NoFileName(e.path));
      }
      groups := groups + [BenchmarkGroupCrate(e.fileName.value, e.path)];
      i := i + 1;
    }
    assert entries[..i] == entries;
    OrdersAreTotal();
    groups := SortBy(groups, ByName);
    return Ok(groups);
  }

  // ---------------------------------------------------------------------------
  // One crate's cargo build
  // ---------------------------------------------------------------------------

  /** An artifact that counts: it has an executable and one of its target kinds is "bin". */
  predicate IsBinArtifact(m: Message) {
    m.CompilerArtifact? && m.executable.Some? && "bin" in m.targetKinds
  }

  /** One step of the message loop. */
  function MessageStep(
    groups: seq<BenchmarkGroup>, m: Result<Message, string>,
    gather: Path -> Result<seq<string>, string>): Result<seq<BenchmarkGroup>, Error>
  {
    match m
    case Err(reason) => Err(StreamReadFailed(reason))
    case Ok(msg) =>
      if !IsBinArtifact(msg) then Ok(groups)
      else match gather(msg.executable.value)
        case Err(reason) => Err(GatherFailed(msg.executable.value, reason))
        case Ok(names) => Ok(groups + [BenchmarkGroup(msg.executable.value, names)])
  }

  /** The groups a message stream contributes, in stream order, or the first error met. */
  function StreamGroups(
    messages: seq<Result<Message, string>>,
    gather: Path -> Result<seq<string>, string>): Result<seq<BenchmarkGroup>, Error>
  {
    if messages == [] then Ok([])
    else match StreamGroups(messages[..|messages| - 1], gather)
      case Err(e) => Err(e)
      case Ok(groups) => MessageStep(groups, messages[|messages| - 1], gather)
  }

  lemma {:induction false} StreamGroupsErrorPersists(
    messages: seq<Result<Message, string>>, gather: Path -> Result<seq<string>, string>, i: nat)
    requires i <= |messages| && StreamGroups(messages[..i], gather).Err?
    ensures StreamGroups(messages, gather) == StreamGroups(messages[..i], gather)
    decreases |messages| - i
  {
    if i < |messages| {
      assert messages[..i + 1][..i] == messages[..i];
      StreamGroupsErrorPersists(messages, gather, i + 1);
    } else {
      assert messages[..i] == messages;
    }
  }

  /** Executables of the bin artifacts of a stream, in stream order (reference definition). */
  function BinExecutables(messages: seq<Result<Message, string>>): seq<Path> {
    if messages == [] then []
    else (if messages[0].Ok? && IsBinArtifact(messages[0].value)
          then [messages[0].value.executable.value] else [])
         + BinExecutables(messages[1..])
  }

  lemma {:induction false} BinExecutablesSnoc(messages: seq<Result<Message, string>>, m: Result<Message, string>)
    ensures BinExecutables(messages + [m])
            == BinExecutables(messages)
               + (if m.Ok? && IsBinArtifact(m.value) then [m.value.executable.value] else [])
  {
    if messages == [] {
      assert messages + [m] == [m];
    } else {
      assert (messages + [m])[1..] == messages[1..] + [m];
      BinExecutablesSnoc(messages[1..], m);
    }
  }

  /**
   * A stream succeeds exactly when every item is read and every bin
   * artifact's binary lists its benchmarks; it then yields exactly one group
   * per bin artifact, in stream order, holding that binary's listed names.
   * Text lines, compiler messages, other messages and non-bin artifacts add nothing.
   */
  lemma {:induction false} StreamGroupsSpec(
    messages: seq<Result<Message, string>>, gather: Path -> Result<seq<string>, string>)
    ensures StreamGroups(messages, gather).Ok?
            <==> forall i :: 0 <= i < |messages| ==>
                   messages[i].Ok?
                   && (IsBinArtifact(messages[i].value) ==> gather(messages[i].value.executable.value).Ok?)
    ensures StreamGroups(messages, gather).Ok? ==>
              var groups := StreamGroups(messages, gather).value;
              var bins := BinExecutables(messages);
              |groups| == |bins|
              && forall k :: 0 <= k < |groups| ==>
                   groups[k].binary == bins[k] && gather(bins[k]) == Ok(groups[k].benchmarkNames)
  {
    if messages != [] {
      var init := messages[..|messages| - 1];
      var last := messages[|messages| - 1];
      StreamGroupsSpec(init, gather);
      assert messages == init + [last];
      BinExecutablesSnoc(init, last);
      forall i | 0 <= i < |init| ensures messages[i] == init[i] { }
    }
  }

  /** A whole build: the message stream, then the exit status. */
  function BuildGroups(run: CargoRun, gather: Path -> Result<seq<string>, string>): Result<seq<BenchmarkGroup>, Error> {
    match StreamGroups(run.messages, gather)
    case Err(e) => Err(e)
    case Ok(groups) =>
      match run.exit
      case Err(reason) => Err(WaitFailed(reason))
      case Ok(status) =>
        if !status.success then Err(ExitFailure(status.code.UnwrapOr(1)))
        else Ok(groups)
  }

  /**
   * `discover_benchmark_groups`: appends to `groups` one group per bin
   * artifact of the stream; a failed read of the stream, a failed listing, a failed
   * wait or an unsuccessful exit is an error (exit code 1 when the status
   * carries none).
   */
  method DiscoverBenchmarkGroups(
    run: CargoRun, gather: Path -> Result<seq<string>, string>, groups: seq<BenchmarkGroup>)
    returns (groups': seq<BenchmarkGroup>, r: Result<(), Error>)
    ensures groups <= groups'
    ensures r.Ok? <==> BuildGroups(run, gather).Ok?
    ensures r.Ok? ==> groups' == groups + BuildGroups(run, gather).value
    ensures r.Err? ==> r.error == BuildGroups(run, gather).error
    ensures (run.exit.Ok? && !run.exit.value.success && run.exit.value.code.None?
             && StreamGroups(run.messages, gather).Ok?) ==> r == Err(ExitFailure(1))
  {
    var messages := run.messages;
    groups' := groups;
    var i := 0;
    while i < |messages|
      invariant 0 <= i <= |messages|
      invariant StreamGroups(messages[..i], gather).Ok?
      invariant groups' == groups + StreamGroups(messages[..i], gather).value
    {
      assert messages[..i + 1][..i] == messages[..i];
      match messages[i] {
        case Err(reason) =>
          StreamGroupsErrorPersists(messages, gather, i + 1);
          return groups', Err(StreamReadFailed(reason));
        case Ok(message) =>
          match message {
            case CompilerArtifact(executable, kinds) =>
              if executable.Some? && "bin" in kinds {
                var path := executable.value;
                match gather(path) {
                  case Err(reason) =>
                    StreamGroupsErrorPersists(messages, gather, i + 1);
                    return groups', Err(GatherFailed(path, reason));
                  case Ok(benchmarks) =>
                    groups' := groups' + [BenchmarkGroup(path, benchmarks)];
                }
              }
            case TextLine(_) =>
            case CompilerMessage(_, _) =>
            case OtherMessage =>
          }
      }
      i := i + 1;
    }
    assert messages[..i] == messages;
    match run.exit
    case Err(reason) =>
      return groups', Err(WaitFailed(reason));
    case Ok(status) =>
      if !status.success {
        return groups', Err(ExitFailure(status.code.UnwrapOr(1)));
      }
      return groups', Ok(());
  }

  // ---------------------------------------------------------------------------
  // The whole discovery
  // ---------------------------------------------------------------------------

  /** Where one crate builds: `<target_dir>/<crate name>/target`, or cargo's default. */
  function CrateTargetDir(targetDir: Option<Path>, crateName: string): Option<Path> {
    match targetDir
    case None => None
    case Some(dir) => Some(dir + [crateName] + ["target"])
  }

  /** Under a common target directory, crates with different names never share a build directory. */
  lemma CrateTargetDirsDistinct(dir: Path, a: string, b: string)
    requires a != b
    ensures CrateTargetDir(Some(dir), a) != CrateTargetDir(Some(dir), b)
  {
    assert CrateTargetDir(Some(dir), a).value[|dir|] == a;
    assert CrateTargetDir(Some(dir), b).value[|dir|] == b;
  }

  /** One crate: start its build, then collect its groups; errors name the crate. */
  function CrateGroups(
    c: BenchmarkGroupCrate, targetDir: Option<Path>,
    build: (Path, Option<Path>) -> Result<CargoRun, string>,
    gather: Path -> Result<seq<string>, string>): Result<seq<BenchmarkGroup>, Error>
  {
    match build(c.path, CrateTargetDir(targetDir, c.name))
    case Err(reason) => Err(StartFailed(c.name, reason))
    case Ok(run) =>
      match BuildGroups(run, gather)
      case Err(e) => Err(CompileFailed(c.name, e))
      case Ok(groups) => Ok(groups)
  }

  /** The groups of `crates` built in order, or the first crate's error. */
  function AllCrateGroups(
    crates: seq<BenchmarkGroupCrate>, targetDir: Option<Path>,
    build: (Path, Option<Path>) -> Result<CargoRun, string>,
    gather: Path -> Result<seq<string>, string>): Result<seq<BenchmarkGroup>, Error>
  {
    if crates == [] then Ok([])
    else match AllCrateGroups(crates[..|crates| - 1], targetDir, build, gather)
      case Err(e) => Err(e)
      case Ok(groups) =>
        match CrateGroups(crates[|crates| - 1], targetDir, build, gather)
        case Err(e) => Err(e)
        case Ok(more) => Ok(groups + more)
  }

  lemma {:induction false} AllCrateGroupsErrorPersists(
    crates: seq<BenchmarkGroupCrate>, targetDir: Option<Path>,
    build: (Path, Option<Path>) -> Result<CargoRun, string>,
    gather: Path -> Result<seq<string>, string>, i: nat)
    requires i <= |crates| && AllCrateGroups(crates[..i], targetDir, build, gather).Err?
    ensures AllCrateGroups(crates, targetDir, build, gather) == AllCrateGroups(crates[..i], targetDir, build, gather)
    decreases |crates| - i
  {
    if i < |crates| {
      assert crates[..i + 1][..i] == crates[..i];
      AllCrateGroupsErrorPersists(crates, targetDir, build, gather, i + 1);
    } else {
      assert crates[..i] == crates;
    }
  }

  /** Building crates in order succeeds exactly when every crate builds. */
  lemma {:induction false} AllCrateGroupsOk(
    crates: seq<BenchmarkGroupCrate>, targetDir: Option<Path>,
    build: (Path, Option<Path>) -> Result<CargoRun, string>,
    gather: Path -> Result<seq<string>, string>)
    ensures AllCrateGroups(crates, targetDir, build, gather).Ok?
            <==> forall i :: 0 <= i < |crates| ==> CrateGroups(crates[i], targetDir, build, gather).Ok?
  {
    if crates != [] {
      var init := crates[..|crates| - 1];
      AllCrateGroupsOk(init, targetDir, build, gather);
      assert forall i :: 0 <= i < |init| ==> crates[i] == init[i];
    }
  }

  /** A crate's groups, named by crate index so that its build is unfolded only where needed. */
  ghost predicate InCrate(
    g: BenchmarkGroup, crates: seq<BenchmarkGroupCrate>, i: int, targetDir: Option<Path>,
    build: (Path, Option<Path>) -> Result<CargoRun, string>,
    gather: Path -> Result<seq<string>, string>)
  {
    0 <= i < |crates| && CrateGroups(crates[i], targetDir, build, gather).Ok?
    && g in CrateGroups(crates[i], targetDir, build, gather).value
  }

  lemma AllCrateGroupsMemberSnoc(
    crates: seq<BenchmarkGroupCrate>, targetDir: Option<Path>,
    build: (Path, Option<Path>) -> Result<CargoRun, string>,
    gather: Path -> Result<seq<string>, string>, g: BenchmarkGroup,
    init: seq<BenchmarkGroupCrate>, prefix: seq<BenchmarkGroup>, last: seq<BenchmarkGroup>)
    requires crates != [] && init == crates[..|crates| - 1]
    requires CrateGroups(crates[|crates| - 1], targetDir, build, gather) == Ok(last)
    requires g in prefix <==> exists i :: InCrate(g, init, i, targetDir, build, gather)
    ensures g in prefix + last <==> exists i :: InCrate(g, crates, i, targetDir, build, gather)
  {
    var n := |crates| - 1;
    if exists i :: InCrate(g, crates, i, targetDir, build, gather) {
      var i :| InCrate(g, crates, i, targetDir, build, gather);
      if i < n {
        assert init[i] == crates[i];
        assert InCrate(g, init, i, targetDir, build, gather);
      }
    }
    if g in prefix {
      var i :| InCrate(g, init, i, targetDir, build, gather);
      assert init[i] == crates[i];
      assert InCrate(g, crates, i, targetDir, build, gather);
    }
    if g in last {
      assert InCrate(g, crates, n, targetDir, build, gather);
    }
  }

  /** On success, the groups are exactly those of the individual crates. */
  lemma {:induction false} AllCrateGroupsMembers(
    crates: seq<BenchmarkGroupCrate>, targetDir: Option<Path>,
    build: (Path, Option<Path>) -> Result<CargoRun, string>,
    gather: Path -> Result<seq<string>, string>)
    requires AllCrateGroups(crates, targetDir, build, gather).Ok?
    ensures forall g :: g in AllCrateGroups(crates, targetDir, build, gather).value
              <==> exists i :: InCrate(g, crates, i, targetDir, build, gather)
  {
    if crates != [] {
      var n := |crates| - 1;
      var init := crates[..n];
      var prefix := AllCrateGroups(init, targetDir, build, gather);
      var last := CrateGroups(crates[n], targetDir, build, gather);
      assert prefix.Ok? && last.Ok?;
      assert AllCrateGroups(crates, targetDir, build, gather).value == prefix.value + last.value;
      AllCrateGroupsMembers(init, targetDir, build, gather);
      forall g ensures g in prefix.value + last.value <==> exists i :: InCrate(g, crates, i, targetDir, build, gather) {
        AllCrateGroupsMemberSnoc(crates, targetDir, build, gather, g, init, prefix.value, last.value);
      }
    }
  }

  /**
   * One iteration of the loop of `discover_benchmarks`: start the build of
   * crate `c` in its own target directory, then collect its groups into
   * `groups`. A crate that fails adds nothing the caller keeps.
   */
  method CompileCrate(
    c: BenchmarkGroupCrate, targetDir: Option<Path>,
    build: (Path, Option<Path>) -> Result<CargoRun, string>,
    gather: Path -> Result<seq<string>, string>, groups: seq<BenchmarkGroup>)
    returns (groups': seq<BenchmarkGroup>, r: Result<(), Error>)
    ensures r.Ok? <==> CrateGroups(c, targetDir, build, gather).Ok?
    ensures r.Ok? ==> groups' == groups + CrateGroups(c, targetDir, build, gather).value
    ensures r.Err? ==> r.error == CrateGroups(c, targetDir, build, gather).error
  {
    var crateTargetDir := CrateTargetDir(targetDir, c.name);
    var started := build(c.path, crateTargetDir);
    if started.Err? {
      return groups, Err(StartFailed(c.name, started.error));
    }
    var outcome;
    groups', outcome := DiscoverBenchmarkGroups(started.value, gather, groups);
    if outcome.Err? {
      return groups', Err(CompileFailed(c.name, outcome.error));
    }
    r := Ok(());
  }

  /** The loop of `discover_benchmarks`: every crate built in order, stopping at the first error. */
  method CompileCrates(
    crates: seq<BenchmarkGroupCrate>, targetDir: Option<Path>,
    build: (Path, Option<Path>) -> Result<CargoRun, string>,
    gather: Path -> Result<seq<string>, string>)
    returns (r: Result<seq<BenchmarkGroup>, Error>)
    ensures r == AllCrateGroups(crates, targetDir, build, gather)
  {
    var groups: seq<BenchmarkGroup> := [];
    var i := 0;
    while i < |crates|
      invariant 0 <= i <= |crates|
      invariant AllCrateGroups(crates[..i], targetDir, build, gather) == Ok(groups)
    {
      assert crates[..i + 1][..i] == crates[..i];
      var outcome;
      groups, outcome := CompileCrate(crates[i], targetDir, build, gather, groups);
      if outcome.Err? {
        AllCrateGroupsErrorPersists(crates, targetDir, build, gather, i + 1);
        return Err(outcome.error);
      }
      i := i + 1;
    }
    assert crates[..i] == crates;
    return Ok(groups);
  }

  /** `groups.sort_unstable_by(|a, b| a.binary.cmp(&b.binary))`: a reordering that keeps the count. */
  method SortGroups(groups: seq<BenchmarkGroup>) returns (sorted: seq<BenchmarkGroup>)
    ensures SortedBy(sorted, ByBinary)
    ensures multiset(sorted) == multiset(groups)
    ensures GroupSizes(sorted) == GroupSizes(groups)
  {
    OrdersAreTotal();
    sorted := SortBy(groups, ByBinary);
    GroupSizesPermutation(sorted, groups);
  }

  /**
   * `discover_benchmarks`: finds the crates (sorted by name, returned in
   * `crates`), builds them in that order, and on success returns every group
   * they produced, sorted by binary path; any crate's error aborts the run.
   */
  method DiscoverBenchmarks(
    directory: Path, listing: Result<seq<DirEntry>, string>, targetDir: Option<Path>,
    build: (Path, Option<Path>) -> Result<CargoRun, string>,
    gather: Path -> Result<seq<string>, string>)
    returns (r: Result<BenchmarkSuite, Error>, ghost crates: seq<BenchmarkGroupCrate>)
    ensures listing.Err? ==> r == Err(ListDirFailed(directory, listing.error))
    ensures listing.Ok? && CrateEntries(listing.value).Err? ==> r == Err(CrateEntries(listing.value).error)
    ensures listing.Ok? && CrateEntries(listing.value).Ok? ==>
              && SortedBy(crates, ByName)
              && multiset(crates) == multiset(CrateEntries(listing.value).value)
              && (r.Ok? <==> AllCrateGroups(crates, targetDir, build, gather).Ok?)
              && (r.Err? ==> r.error == AllCrateGroups(crates, targetDir, build, gather).error)
    ensures r.Ok? ==>
              && SortedBy(r.value.groups, ByBinary)
              && multiset(r.value.groups) == multiset(AllCrateGroups(crates, targetDir, build, gather).value)
              && TotalBenchmarkCount(r.value) == GroupSizes(AllCrateGroups(crates, targetDir, build, gather).value)
  {
    var found := GetRuntimeBenchmarkGroups(directory, listing);
    if found.Err? {
      return Err(found.error), [];
    }
    crates := found.value;
    var compiled := CompileCrates(found.value, targetDir, build, gather);
    if compiled.Err? {
      return Err(compiled.error), crates;
    }
    var groups := SortGroups(compiled.value);
    return Ok(BenchmarkSuite(groups)), crates;
  }
}
