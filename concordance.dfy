/**
 * The concordance script: six checks over the repository's files, each adding one to
 * `totalChecks` and one to `passed` or `failed`, with messages collected in `errors`
 * and test-only extras counted in `warnings`; the exit code is 0 iff nothing failed.
 *
 * The file system is a map from paths relative to the repository root to contents.
 * An exception that escapes a check ends the run with exit code 1 and no summary.
 */
module Concordance {
  import opened Wrappers
  import opened Json
  import opened Text
  import opened Extract
  import opened OrderedSet

  type Files = map<string, string>

  const ConfigFiles: seq<string> := [
    "config/ids-list.json", "config/modules-list.json",
    "config/events-list.json", "config/localStorage-keys.json"]
  const DebugFiles: seq<string> := [
    "debug/debug.js", "debug/debug-logger.js", "debug/debug-ui.js",
    "debug/debug-modules.js", "debug/debug-dom.js", "debug/debug-storage.js",
    "debug/debug-events.js", "debug/debug-chart.js", "debug/debug-fallbacks.js"]

  const IdsConfigPath: string := "config/ids-list.json"
  const ModulesConfigPath: string := "config/modules-list.json"
  const EventsConfigPath: string := "config/events-list.json"
  const DomPath: string := "debug/debug-dom.js"
  const ModulesPath: string := "debug/debug-modules.js"
  const EventsPath: string := "debug/debug-events.js"
  const OrchestratorPath: string := "debug/debug.js"

  const IdsAnchor: string := "const IDS_TO_TEST = ["
  const ModulesAnchor: string := "const MODULES_TO_TEST = {"
  const EventsAnchor: string := "const EVENTS_TO_TEST = ["
  const ListClose: string := "];"
  const ObjectClose: string := "};"

  /** The message of the error `readFileSync` throws for a missing file. */
  function NoSuchFile(path: string): string {
    "ENOENT: no such file or directory, open '" + path + "'"
  }

  function ReadFile(files: Files, path: string): (r: Result<string>)
    ensures r.Ok? <==> path in files
    ensures r.Ok? ==> r.value == files[path]
  {
    if path in files then Ok(files[path]) else Err(NoSuchFile(path))
  }

  /** `loadJSON`: reading, then parsing; either failure is reported. */
  function LoadJsonSpec(files: Files, codec: JsonCodec, path: string): Result<Json> {
    match ReadFile(files, path)
    case Err(m) => Err(m)
    case Ok(c) => codec.parse(c)
  }

  function LoadError(path: string, m: string): string { "Load error: " + path + " - " + m }
  function ReadError(path: string): string { "Read error: " + path + " - " + NoSuchFile(path) }

  /** How one check ends: passed, failed with the messages it adds and whether it warned, or threw. */
  datatype CheckResult = Passed | Failed(newErrors: seq<string>, warned: bool) | Thrown(message: string)

  // ------------------------------------------------------------------ the two file checks

  /** The listed paths that do not exist, in list order. */
  function MissingFiles(files: Files, list: seq<string>): (m: seq<string>)
    ensures |m| <= |list|
  {
    if |list| == 0 then []
    else MissingFiles(files, list[..|list| - 1]) + (if list[|list| - 1] in files then [] else [list[|list| - 1]])
  }

  /** A path is reported missing iff it is listed and does not exist. */
  lemma {:induction false} MissingFilesMember(files: Files, list: seq<string>, f: string)
    ensures f in MissingFiles(files, list) <==> f in list && f !in files
  {
    if |list| > 0 {
      var p := list[..|list| - 1];
      assert list == p + [list[|list| - 1]];
      MissingFilesMember(files, p, f);
    }
  }

  function Prefixed(prefix: string, xs: seq<string>): (r: seq<string>)
    ensures |r| == |xs|
    ensures forall i :: 0 <= i < |xs| ==> r[i] == prefix + xs[i]
  {
    if |xs| == 0 then [] else [prefix + xs[0]] + Prefixed(prefix, xs[1..])
  }

  /** Checks 1 and 2: every listed file exists; each missing one adds a message. */
  function FilesCheck(files: Files, list: seq<string>, heading: string): CheckResult {
    var m := MissingFiles(files, list);
    if m == [] then Passed else Failed(Prefixed(heading, m), false)
  }

  /** A file check passes iff every listed file exists, and otherwise adds one message per missing file. */
  lemma FilesCheckMeaning(files: Files, list: seq<string>, heading: string)
    ensures var r := FilesCheck(files, list, heading);
      && !r.Thrown?
      && (r == Passed <==> forall f :: f in list ==> f in files)
      && (r.Failed? ==> !r.warned && |r.newErrors| == |MissingFiles(files, list)|)
  {
    var m := MissingFiles(files, list);
    if m == [] {
      forall f | f in list ensures f in files {
        MissingFilesMember(files, list, f);
      }
    } else {
      MissingFilesMember(files, list, m[0]);
    }
  }

  // ------------------------------------------------------------------ comparing two sets

  /** How many items of what kind the config has that the test lacks. */
  function NotTested(n: nat, noun: string): string { NatToString(n) + " " + noun + " not tested" }

  /**
   * The common end of checks 3 to 5: the check passes iff both sets are equal; only
   * config-only items add a message; test-only items only count as a warning.
   */
  function Compare(config: seq<Json>, test: seq<Json>, noun: string): CheckResult {
    var co := Without(config, test);
    var to := Without(test, config);
    if co == [] && to == [] then Passed
    else Failed(if co != [] then [NotTested(|co|, noun)] else [], to != [])
  }

  lemma CompareMeaning(config: seq<Json>, test: seq<Json>, noun: string)
    ensures var r := Compare(config, test, noun);
      && !r.Thrown?
      && (r == Passed <==> forall x :: x in config <==> x in test)
      && (r.Failed? ==> (r.warned <==> exists x :: x in test && x !in config))
      && (r.Failed? ==> (r.newErrors != [] <==> exists x :: x in config && x !in test))
      && (r.Failed? && r.newErrors != [] ==> r.newErrors == [NotTested(|Without(config, test)|, noun)])
  {
    WithoutEmpty(config, test);
    WithoutEmpty(test, config);
  }

  // ------------------------------------------------------------------ check 3: ids

  /**
   * The ids of every category whose `ids` is an array, in order; a `null` category
   * throws when its `ids` is read.
   */
  function CategoryIds(cats: seq<Json>): Result<seq<Json>> {
    if |cats| == 0 then Ok([])
    else
      match CategoryIds(cats[..|cats| - 1])
      case Err(m) => Err(m)
      case Ok(ids) =>
        var c := cats[|cats| - 1];
        if c.JNull? then Err(NullRead("ids")) else Ok(ids + ArrayAt(c, "ids"))
  }

  /** Collecting throws iff some category is `null`. */
  lemma {:induction false} CategoryIdsThrows(cats: seq<Json>)
    ensures CategoryIds(cats).Err? <==> exists i :: 0 <= i < |cats| && cats[i].JNull?
  {
    if |cats| > 0 {
      var p := cats[..|cats| - 1];
      CategoryIdsThrows(p);
      assert forall i :: 0 <= i < |p| ==> p[i] == cats[i];
    }
  }

  /** An id is collected iff some category's `ids` array holds it. */
  lemma {:induction false} CategoryIdsUnion(cats: seq<Json>, x: Json)
    requires CategoryIds(cats).Ok?
    ensures x in CategoryIds(cats).value <==> exists i :: 0 <= i < |cats| && x in ArrayAt(cats[i], "ids")
  {
    if |cats| > 0 {
      var p := cats[..|cats| - 1];
      assert forall i :: 0 <= i < |p| ==> p[i] == cats[i];
      CategoryIdsUnion(p, x);
      if x in CategoryIds(cats).value && x !in CategoryIds(p).value {
        assert x in ArrayAt(cats[|cats| - 1], "ids");
      }
    }
  }

  /** The categories of a configuration, `Object.values(config.categories)` when that is truthy. */
  function Categories(cfg: Json): seq<Json> {
    match Get(cfg, "categories")
    case Some(c) => if Truthy(c) then Values(c) else []
    case None => []
  }

  function DomTestIds(dom: string): Option<seq<string>> {
    match Between(dom, IdsAnchor, ListClose)
    case None => None
    case Some(body) => Some(QuotedTokens(body))
  }

  /**
   * Where checks 3 to 5 stand once both files are loaded and non-empty: an exception,
   * a list that could not be found, or the two sets to compare.
   */
  datatype Stage = Throw(message: string) | NoList | Sets(config: seq<Json>, test: seq<Json>)

  function Finish(st: Stage, noun: string): CheckResult {
    match st
    case Throw(m) => Thrown(m)
    case NoList => Failed([], false)
    case Sets(c, t) => Compare(c, t, noun)
  }

  /** The id sets of a loaded config and a loaded `debug-dom.js`. */
  function IdSets(cfg: Json, dom: string): Stage {
    match CategoryIds(Categories(cfg))
    case Err(m) => Throw(m)
    case Ok(ids) =>
      match DomTestIds(dom)
      case None => NoList
      case Some(ts) => Sets(Dedup(ids), Dedup(Strs(ts)))
  }

  /** `checkIDsConcordance`. */
  function IdsCheck(files: Files, codec: JsonCodec): CheckResult {
    match LoadJsonSpec(files, codec, IdsConfigPath)
    case Err(m) => Failed([LoadError(IdsConfigPath, m)], false)
    case Ok(cfg) =>
      if !Truthy(cfg) then Failed([], false)
      else match ReadFile(files, DomPath)
        case Err(_) => Failed([ReadError(DomPath)], false)
        case Ok(dom) => if dom == "" then Failed([], false) else Finish(IdSets(cfg, dom), "IDs")
  }

  // ------------------------------------------------------------------ checks 4 and 5

  /** `Object.keys(config[field])` when that is truthy, as (string) set members. */
  function ConfigKeys(cfg: Json, field: string): seq<Json> {
    match Get(cfg, field)
    case Some(v) => if Truthy(v) then Strs(Keys(v)) else []
    case None => []
  }

  function StripAll(ks: seq<string>): (r: seq<string>)
    ensures |r| == |ks|
    ensures forall i :: 0 <= i < |ks| ==> r[i] == StripQuotesAndColons(ks[i])
  {
    if |ks| == 0 then [] else [StripQuotesAndColons(ks[0])] + StripAll(ks[1..])
  }

  function ModuleTestNames(content: string): Option<seq<string>> {
    match Between(content, ModulesAnchor, ObjectClose)
    case None => None
    case Some(body) => Some(StripAll(JsKeys(body)))
  }

  function EventTestNames(content: string): Option<seq<string>> {
    match Between(content, EventsAnchor, ListClose)
    case None => None
    case Some(body) => Some(QuotedTokens(body))
  }

  /** The key sets of a loaded config and a loaded test file. */
  /** Which listing a test file holds: the keys of `MODULES_TO_TEST` or the strings of `EVENTS_TO_TEST`. */
  datatype Listing = ModuleListing | EventListing

  function TestNames(listing: Listing, content: string): Option<seq<string>> {
    match listing
    case ModuleListing => ModuleTestNames(content)
    case EventListing => EventTestNames(content)
  }

  function KeySets(cfg: Json, content: string, field: string, listing: Listing): Stage {
    match TestNames(listing, content)
    case None => NoList
    case Some(ts) => Sets(Dedup(ConfigKeys(cfg, field)), Dedup(Strs(ts)))
  }

  /** Checks 4 and 5: config keys of `field` against the names a test file lists. */
  function KeysCheck(files: Files, codec: JsonCodec, cfgPath: string, testPath: string,
                     field: string, listing: Listing, noun: string): (r: CheckResult)
    ensures !r.Thrown?
  {
    match LoadJsonSpec(files, codec, cfgPath)
    case Err(m) => Failed([LoadError(cfgPath, m)], false)
    case Ok(cfg) =>
      if !Truthy(cfg) then Failed([], false)
      else match ReadFile(files, testPath)
        case Err(_) => Failed([ReadError(testPath)], false)
        case Ok(content) =>
          if content == "" then Failed([], false) else Finish(KeySets(cfg, content, field, listing), noun)
  }

  function ModulesCheck(files: Files, codec: JsonCodec): CheckResult {
    KeysCheck(files, codec, ModulesConfigPath, ModulesPath, "modules", ModuleListing, "modules")
  }

  function EventsCheck(files: Files, codec: JsonCodec): CheckResult {
    KeysCheck(files, codec, EventsConfigPath, EventsPath, "events", EventListing, "events")
  }

  // ------------------------------------------------------------------ check 6: imports

  /** The imported paths whose file is missing under debug/, in order (repeats included). */
  function MissingImports(files: Files, imports: seq<string>): (m: seq<string>)
    ensures |m| <= |imports|
  {
    if |imports| == 0 then []
    else
      var x := imports[|imports| - 1];
      MissingImports(files, imports[..|imports| - 1]) + (if "debug/" + x in files then [] else [x])
  }

  /** An import is reported iff its file under debug/ is missing. */
  lemma {:induction false} MissingImportsMember(files: Files, imports: seq<string>, x: string)
    ensures x in MissingImports(files, imports) <==> x in imports && "debug/" + x !in files
  {
    if |imports| > 0 {
      var p := imports[..|imports| - 1];
      assert imports == p + [imports[|imports| - 1]];
      MissingImportsMember(files, p, x);
    }
  }

  /** The import check of a readable, non-empty debug.js. */
  function ImportsOf(files: Files, content: string): CheckResult {
    var m := MissingImports(files, ImportTargets(content, 0));
    if m == [] then Passed else Failed(Prefixed("Missing imported file: ", m), false)
  }

  function ImportsCheck(files: Files): (r: CheckResult)
    ensures !r.Thrown?
  {
    match ReadFile(files, OrchestratorPath)
    case Err(_) => Failed([ReadError(OrchestratorPath)], false)
    case Ok(content) => if content == "" then Failed([], false) else ImportsOf(files, content)
  }

  /** The import check of a readable, non-empty debug.js, in terms of the missing imports. */
  lemma ImportsCheckOf(files: Files, missing: seq<string>)
    requires OrchestratorPath in files && files[OrchestratorPath] != ""
    requires missing == MissingImports(files, ImportTargets(files[OrchestratorPath], 0))
    ensures ImportsCheck(files) == if missing == [] then Passed else Failed(Prefixed("Missing imported file: ", missing), false)
  {
  }

  /** An import check of readable, non-empty debug.js passes iff every imported file exists. */
  lemma ImportsCheckPasses(files: Files)
    requires OrchestratorPath in files && files[OrchestratorPath] != ""
    ensures ImportsCheck(files) == Passed
      <==> forall x :: x in ImportTargets(files[OrchestratorPath], 0) ==> "debug/" + x in files
  {
    var ts := ImportTargets(files[OrchestratorPath], 0);
    var m := MissingImports(files, ts);
    if m != [] {
      MissingImportsMember(files, ts, m[0]);
    } else {
      forall x | x in ts ensures "debug/" + x in files {
        MissingImportsMember(files, ts, x);
      }
    }
  }

  // ------------------------------------------------------------------ the counters

  datatype Tally = Tally(totalChecks: nat, passed: nat, failed: nat, warnings: nat, errors: seq<string>)

  /** What one check adds to the counters (`totalChecks` is counted first, even if it throws). */
  function Record(t: Tally, c: CheckResult): Tally {
    Settle(t.(totalChecks := t.totalChecks + 1), c)
  }

  /** Every check is counted once, and as passed or failed unless it threw. */
  lemma RecordCounts(t: Tally, c: CheckResult)
    ensures var r := Record(t, c);
      && r.totalChecks == t.totalChecks + 1
      && (!c.Thrown? ==> r.passed + r.failed == t.passed + t.failed + 1)
      && (c.Passed? <==> r.passed == t.passed + 1)
      && (c.Failed? <==> r.failed == t.failed + 1)
      && r.warnings == t.warnings + (if c.Failed? && c.warned then 1 else 0)
      && r.errors == t.errors + (if c.Failed? then c.newErrors else [])
  {
  }

  /** Settling a check's counters once `totalChecks` has been counted. */
  function Settle(t: Tally, c: CheckResult): Tally {
    match c
    case Passed => t.(passed := t.passed + 1)
    case Failed(es, w) => t.(failed := t.failed + 1, warnings := t.warnings + (if w then 1 else 0), errors := t.errors + es)
    case Thrown(_) => t
  }

  /** The six checks in `main`'s order. */
  function Checks(files: Files, codec: JsonCodec): (cs: seq<CheckResult>)
    ensures |cs| == 6
  {
    [FilesCheck(files, ConfigFiles, "Missing config file: "),
     FilesCheck(files, DebugFiles, "Missing debug file: "),
     IdsCheck(files, codec), ModulesCheck(files, codec), EventsCheck(files, codec),
     ImportsCheck(files)]
  }

  /** Running checks in order from a tally; a thrown exception stops the run. */
  function RunChecks(t: Tally, cs: seq<CheckResult>): (r: Result<Tally>) {
    if |cs| == 0 then Ok(t) else Then(RunChecks(t, cs[..|cs| - 1]), cs[|cs| - 1])
  }

  /** One more check after a run so far: its exception ends the run, otherwise it is recorded. */
  function Then(r: Result<Tally>, c: CheckResult): Result<Tally> {
    match r
    case Err(m) => Err(m)
    case Ok(u) => if c.Thrown? then Err(c.message) else Ok(Record(u, c))
  }

  function CountFailed(cs: seq<CheckResult>): nat {
    if |cs| == 0 then 0 else CountFailed(cs[..|cs| - 1]) + (if cs[|cs| - 1].Failed? then 1 else 0)
  }

  /** A run of one more check is the run so far, then that check. */
  lemma RunChecksSnoc(t: Tally, cs: seq<CheckResult>, c: CheckResult)
    ensures RunChecks(t, cs + [c]) == Then(RunChecks(t, cs), c)
  {
    assert (cs + [c])[..|cs|] == cs;
  }

  /**
   * Without an exception, every check is counted once and as exactly one of passed
   * or failed, the failures are counted one by one, and the run ends with
   * totalChecks = passed + failed if it started so.
   */
  lemma {:induction false} RunChecksCounts(t: Tally, cs: seq<CheckResult>)
    requires RunChecks(t, cs).Ok?
    ensures var r := RunChecks(t, cs).value;
      r.totalChecks == t.totalChecks + |cs| && r.passed + r.failed == t.passed + t.failed + |cs|
      && r.failed == t.failed + CountFailed(cs)
      && (t.totalChecks == t.passed + t.failed ==> r.totalChecks == r.passed + r.failed)
  {
    if |cs| > 0 {
      var p := cs[..|cs| - 1];
      RunChecksCounts(t, p);
      RecordCounts(RunChecks(t, p).value, cs[|cs| - 1]);
    }
  }

  /** A run ends with an exception iff one of its checks throws. */
  lemma {:induction false} RunChecksThrows(t: Tally, cs: seq<CheckResult>)
    ensures RunChecks(t, cs).Err? <==> exists i :: 0 <= i < |cs| && cs[i].Thrown?
  {
    if |cs| > 0 {
      var p := cs[..|cs| - 1];
      RunChecksThrows(t, p);
      assert forall i :: 0 <= i < |p| ==> p[i] == cs[i];
    }
  }

  lemma {:induction false} CountFailedZero(cs: seq<CheckResult>)
    ensures CountFailed(cs) == 0 <==> forall i :: 0 <= i < |cs| ==> !cs[i].Failed?
  {
    if |cs| > 0 {
      var p := cs[..|cs| - 1];
      CountFailedZero(p);
      assert forall i :: 0 <= i < |p| ==> p[i] == cs[i];
    }
  }

  const Start: Tally := Tally(0, 0, 0, 0, [])

  /** `main`'s exit code: 1 after an exception, otherwise `displaySummary`'s. */
  function ExitCode(files: Files, codec: JsonCodec): nat {
    match RunChecks(Start, Checks(files, codec))
    case Err(_) => 1
    case Ok(t) => if t.failed == 0 then 0 else 1
  }

  /** A run from the start ends without exception and without failure iff every check passes. */
  lemma RunCleanIffAllPass(cs: seq<CheckResult>)
    ensures (RunChecks(Start, cs).Ok? && RunChecks(Start, cs).value.failed == 0)
            <==> forall i :: 0 <= i < |cs| ==> cs[i] == Passed
  {
    RunChecksThrows(Start, cs);
    CountFailedZero(cs);
    if RunChecks(Start, cs).Ok? {
      RunChecksCounts(Start, cs);
    }
  }

  /** The script exits 0 iff every one of the six checks passes. */
  lemma ExitZeroIffAllPass(files: Files, codec: JsonCodec)
    ensures ExitCode(files, codec) == 0 <==> forall i :: 0 <= i < 6 ==> Checks(files, codec)[i] == Passed
  {
    RunCleanIffAllPass(Checks(files, codec));
  }

  // ------------------------------------------------------------------ the script

  /** The `forEach` over the listed files, collecting the missing ones. */
  method MissingOf(files: Files, list: seq<string>) returns (m: seq<string>)
    ensures m == MissingFiles(files, list)
  {
    m := [];
    var i := 0;
    while i < |list|
      invariant 0 <= i <= |list|
      invariant m == MissingFiles(files, list[..i])
    {
      assert list[..i + 1][..i] == list[..i];
      if list[i] !in files {
        m := m + [list[i]];
      }
      i := i + 1;
    }
    assert list[..i] == list;
  }

  /** The `forEach` over the imports, collecting those whose file is missing. */
  method MissingImportsOf(files: Files, imports: seq<string>) returns (m: seq<string>)
    ensures m == MissingImports(files, imports)
  {
    m := [];
    var i := 0;
    while i < |imports|
      invariant 0 <= i <= |imports|
      invariant m == MissingImports(files, imports[..i])
    {
      assert imports[..i + 1][..i] == imports[..i];
      if "debug/" + imports[i] !in files {
        m := m + [imports[i]];
      }
      i := i + 1;
    }
    assert imports[..i] == imports;
  }

  /** The failed check of a config or test file that cannot be loaded, is falsy or is empty. */
  function LoadFailure(files: Files, codec: JsonCodec, cfgPath: string, testPath: string): CheckResult {
    match LoadJsonSpec(files, codec, cfgPath)
    case Err(m) => Failed([LoadError(cfgPath, m)], false)
    case Ok(cfg) => if !Truthy(cfg) || testPath in files then Failed([], false) else Failed([ReadError(testPath)], false)
  }

  /** The config's category ids, gathered into a set; Err when a category is `null`. */
  method CollectConfigIds(cfg: Json) returns (r: Result<seq<Json>>)
    ensures CategoryIds(Categories(cfg)).Err? ==> r == Err(CategoryIds(Categories(cfg)).error)
    ensures CategoryIds(Categories(cfg)).Ok? ==> r == Ok(Dedup(CategoryIds(Categories(cfg)).value))
  {
    var cats := Categories(cfg);
    var acc: seq<Json> := [];
    ghost var all: seq<Json> := [];
    var i := 0;
    while i < |cats|
      invariant 0 <= i <= |cats|
      invariant CategoryIds(cats[..i]) == Ok(all)
      invariant acc == Dedup(all)
    {
      assert cats[..i + 1][..i] == cats[..i];
      if cats[i].JNull? {
        CategoryIdsNull(cats, i);
        return Err(NullRead("ids"));
      }
      var items := ArrayAt(cats[i], "ids");
      acc := AddAll(acc, all, items);
      all := all + items;
      i := i + 1;
    }
    assert cats[..i] == cats;
    r := Ok(acc);
  }

  /** The config's category ids and the listed DOM ids, each gathered into a set. */
  method ComputeIdSets(cfg: Json, dom: string) returns (st: Stage)
    ensures st == IdSets(cfg, dom)
  {
    var configIds := CollectConfigIds(cfg);
    if configIds.Err? {
      return Throw(configIds.error);
    }
    var listed := DomTestIds(dom);
    if listed.None? {
      return NoList;
    }
    var testIds := CollectSet(Strs(listed.value));
    st := Sets(configIds.value, testIds);
  }

  /** The config's keys and the names the test file lists, each gathered into a set. */
  method ComputeKeySets(cfg: Json, content: string, field: string, listing: Listing)
    returns (st: Stage)
    ensures st == KeySets(cfg, content, field, listing)
  {
    var configNames := CollectSet(ConfigKeys(cfg, field));
    var listed := TestNames(listing, content);
    if listed.None? {
      return NoList;
    }
    var testNames := CollectSet(Strs(listed.value));
    st := Sets(configNames, testNames);
  }

  /** Whether both files of a check load, the config is truthy and the test file non-empty. */
  predicate Loaded(files: Files, codec: JsonCodec, cfgPath: string, testPath: string) {
    && LoadJsonSpec(files, codec, cfgPath).Ok? && Truthy(LoadJsonSpec(files, codec, cfgPath).value)
    && testPath in files && files[testPath] != ""
  }

  /** The ids check is the load failure, or the comparison of the loaded files' sets. */
  lemma IdsCheckLoaded(files: Files, codec: JsonCodec)
    ensures !Loaded(files, codec, IdsConfigPath, DomPath) ==>
      IdsCheck(files, codec) == LoadFailure(files, codec, IdsConfigPath, DomPath)
    ensures Loaded(files, codec, IdsConfigPath, DomPath) ==>
      IdsCheck(files, codec) == Finish(IdSets(LoadJsonSpec(files, codec, IdsConfigPath).value, files[DomPath]), "IDs")
  {
  }

  /** The same for the two key checks. */
  lemma KeysCheckLoaded(files: Files, codec: JsonCodec, cfgPath: string, testPath: string,
                        field: string, listing: Listing, noun: string)
    ensures !Loaded(files, codec, cfgPath, testPath) ==>
      KeysCheck(files, codec, cfgPath, testPath, field, listing, noun) == LoadFailure(files, codec, cfgPath, testPath)
    ensures Loaded(files, codec, cfgPath, testPath) ==>
      KeysCheck(files, codec, cfgPath, testPath, field, listing, noun)
        == Finish(KeySets(LoadJsonSpec(files, codec, cfgPath).value, files[testPath], field, listing), noun)
  {
  }

  /** `globalResults` and the checks that update it. */
  class GlobalResults {
    var totalChecks: nat
    var passed: nat
    var failed: nat
    var warnings: nat
    var errors: seq<string>

    constructor ()
      ensures State() == Start
    {
      totalChecks, passed, failed, warnings, errors := 0, 0, 0, 0, [];
    }

    function State(): Tally
      reads this
    {
      Tally(totalChecks, passed, failed, warnings, errors)
    }

    method LoadJson(files: Files, codec: JsonCodec, path: string) returns (r: Result<Json>)
      modifies this`errors
      ensures r == LoadJsonSpec(files, codec, path)
      ensures r.Ok? ==> errors == old(errors)
      ensures r.Err? ==> errors == old(errors) + [LoadError(path, r.error)]
    {
      if path !in files {
        r := Err(NoSuchFile(path));
      } else {
        r := codec.parse(files[path]);
      }
      if r.Err? {
        errors := errors + [LoadError(path, r.error)];
      }
    }

    method LoadFile(files: Files, path: string) returns (r: Result<string>)
      modifies this`errors
      ensures r == ReadFile(files, path)
      ensures r.Ok? ==> errors == old(errors)
      ensures r.Err? ==> errors == old(errors) + [ReadError(path)]
    {
      if path in files {
        r := Ok(files[path]);
      } else {
        r := Err(NoSuchFile(path));
        errors := errors + [ReadError(path)];
      }
    }

    method FilesExist(files: Files, list: seq<string>, heading: string) returns (ok: bool)
      modifies this
      ensures State() == Record(old(State()), FilesCheck(files, list, heading))
      ensures ok == (FilesCheck(files, list, heading) == Passed)
    {
      totalChecks := totalChecks + 1;
      var missing := MissingOf(files, list);
      errors := errors + Prefixed(heading, missing);
      ok := missing == [];
      if ok {
        passed := passed + 1;
      } else {
        failed := failed + 1;
      }
    }

    /** The end of checks 3 to 5: two differences, then the counters. */
    method Conclude(config: seq<Json>, test: seq<Json>, noun: string) returns (ok: bool)
      modifies this
      ensures State() == Settle(old(State()), Compare(config, test, noun))
      ensures ok == (Compare(config, test, noun) == Passed)
    {
      var inConfigNotInTest := Difference(config, test);
      var inTestNotInConfig := Difference(test, config);
      if inConfigNotInTest == [] && inTestNotInConfig == [] {
        passed := passed + 1;
        ok := true;
      } else {
        if inConfigNotInTest != [] {
          errors := errors + [NotTested(|inConfigNotInTest|, noun)];
        }
        if inTestNotInConfig != [] {
          warnings := warnings + 1;
        }
        failed := failed + 1;
        ok := false;
      }
    }

    /** The common end of checks 3 to 5, once both files are loaded. */
    method Settled(st: Stage, noun: string) returns (r: Result<bool>)
      modifies this
      ensures State() == Settle(old(State()), Finish(st, noun))
      ensures r == if st.Throw? then Err(st.message) else Ok(Finish(st, noun) == Passed)
    {
      match st
      case Throw(m) =>
        r := Err(m);
      case NoList =>
        failed := failed + 1;
        r := Ok(false);
      case Sets(c, t) =>
        var ok := Conclude(c, t, noun);
        r := Ok(ok);
    }

    /** Loading the config and the test file; a failure there is a failed check. */
    method LoadBoth(files: Files, codec: JsonCodec, cfgPath: string, testPath: string)
      returns (r: Option<(Json, string)>)
      modifies this
      ensures r.Some? <==> Loaded(files, codec, cfgPath, testPath)
      ensures r.Some? ==> r.value == (LoadJsonSpec(files, codec, cfgPath).value, files[testPath])
      ensures r.Some? ==> State() == old(State())
      ensures r.None? ==> State() == Settle(old(State()), LoadFailure(files, codec, cfgPath, testPath))
    {
      var cfg := LoadJson(files, codec, cfgPath);
      if cfg.Err? || !Truthy(cfg.value) {
        failed := failed + 1;
        return None;
      }
      var content := LoadFile(files, testPath);
      if content.Err? || content.value == "" {
        failed := failed + 1;
        return None;
      }
      r := Some((cfg.value, content.value));
    }

    method CheckIds(files: Files, codec: JsonCodec) returns (r: Result<bool>)
      modifies this
      ensures State() == Record(old(State()), IdsCheck(files, codec))
      ensures r == match IdsCheck(files, codec) case Passed => Ok(true) case Failed(_, _) => Ok(false)
                   case Thrown(m) => Err(m)
    {
      totalChecks := totalChecks + 1;
      var loaded := LoadBoth(files, codec, IdsConfigPath, DomPath);
      if loaded.None? {
        IdsCheckLoaded(files, codec);
        return Ok(false);
      }
      var (cfg, dom) := loaded.value;
      IdsCheckLoaded(files, codec);
      var st := ComputeIdSets(cfg, dom);
      r := Settled(st, "IDs");
    }

    method CheckKeys(files: Files, codec: JsonCodec, cfgPath: string, testPath: string,
                     field: string, listing: Listing, noun: string) returns (ok: bool)
      modifies this
      ensures State() == Record(old(State()), KeysCheck(files, codec, cfgPath, testPath, field, listing, noun))
      ensures ok == (KeysCheck(files, codec, cfgPath, testPath, field, listing, noun) == Passed)
    {
      totalChecks := totalChecks + 1;
      var loaded := LoadBoth(files, codec, cfgPath, testPath);
      KeysCheckLoaded(files, codec, cfgPath, testPath, field, listing, noun);
      if loaded.None? {
        return false;
      }
      var (cfg, content) := loaded.value;
      var st := ComputeKeySets(cfg, content, field, listing);
      var r := Settled(st, noun);
      ok := r == Ok(true);
    }

    method CheckImports(files: Files) returns (ok: bool)
      modifies this
      ensures State() == Record(old(State()), ImportsCheck(files))
      ensures ok == (ImportsCheck(files) == Passed)
    {
      totalChecks := totalChecks + 1;
      var content := LoadFile(files, OrchestratorPath);
      if content.Err? || content.value == "" {
        failed := failed + 1;
        return false;
      }
      var missing := MissingImportsOf(files, ImportTargets(content.value, 0));
      ok := SettleMissing(missing);
      ImportsCheckOf(files, missing);
    }

    /** The end of the import check: the missing imports' messages, then the counters. */
    method SettleMissing(missing: seq<string>) returns (ok: bool)
      modifies this
      ensures var c := if missing == [] then Passed else Failed(Prefixed("Missing imported file: ", missing), false);
        State() == Settle(old(State()), c) && ok == (c == Passed)
    {
      errors := errors + Prefixed("Missing imported file: ", missing);
      ok := missing == [];
      if ok {
        passed := passed + 1;
      } else {
        failed := failed + 1;
      }
    }

    /** `displaySummary`: 0 iff no check failed. */
    method DisplaySummary() returns (code: nat)
      ensures code == 0 <==> failed == 0
      ensures code == 0 || code == 1
    {
      code := if failed == 0 then 0 else 1;
    }
  }

  lemma CategoryIdsNull(cats: seq<Json>, i: nat)
    requires i < |cats| && cats[i].JNull? && CategoryIds(cats[..i]).Ok?
    ensures CategoryIds(cats).Err? && CategoryIds(cats).error == NullRead("ids")
  {
    assert cats[..i + 1][..i] == cats[..i];
    assert CategoryIds(cats[..i + 1]) == Err(NullRead("ids"));
    CategoryIdsErrSticks(cats, i + 1);
  }

  /** Once a category throws, later categories do not change the error. */
  lemma {:induction false} CategoryIdsErrSticks(cats: seq<Json>, n: nat)
    requires n <= |cats| && CategoryIds(cats[..n]).Err?
    ensures CategoryIds(cats) == CategoryIds(cats[..n])
    decreases |cats| - n
  {
    if n < |cats| {
      assert cats[..n + 1][..n] == cats[..n];
      CategoryIdsErrSticks(cats, n + 1);
    } else {
      assert cats[..n] == cats;
    }
  }

  /**
   * The run of `main`'s checks, one after the other: the two file checks never throw,
   * so only the ids check can end the run early.
   */
  lemma RunChecksOfMain(files: Files, codec: JsonCodec)
    ensures var t2 := Record(Record(Start, FilesCheck(files, ConfigFiles, "Missing config file: ")),
                             FilesCheck(files, DebugFiles, "Missing debug file: "));
      var c2 := IdsCheck(files, codec);
      ExitCode(files, codec) == if c2.Thrown? then 1 else
        var t5 := Record(Record(Record(Record(t2, c2), ModulesCheck(files, codec)), EventsCheck(files, codec)),
                         ImportsCheck(files));
        if t5.failed == 0 then 0 else 1
  {
    var cs := Checks(files, codec);
    FilesCheckMeaning(files, ConfigFiles, "Missing config file: ");
    FilesCheckMeaning(files, DebugFiles, "Missing debug file: ");
    RunSixExit(cs[0], cs[1], cs[2], cs[3], cs[4], cs[5]);
    assert cs == [cs[0], cs[1], cs[2], cs[3], cs[4], cs[5]];
  }

  /** Six checks of which only the third can throw: the exit code they lead to. */
  lemma RunSixExit(c0: CheckResult, c1: CheckResult, c2: CheckResult,
                   c3: CheckResult, c4: CheckResult, c5: CheckResult)
    requires !c0.Thrown? && !c1.Thrown? && !c3.Thrown? && !c4.Thrown? && !c5.Thrown?
    ensures var t2 := Record(Record(Start, c0), c1);
      (match RunChecks(Start, [c0, c1, c2, c3, c4, c5]) case Err(_) => 1 case Ok(t) => if t.failed == 0 then 0 else 1)
      == if c2.Thrown? then 1 else
        var t5 := Record(Record(Record(Record(t2, c2), c3), c4), c5);
        if t5.failed == 0 then 0 else 1
  {
    var t1 := Record(Start, c0);
    var t2 := Record(t1, c1);
    assert RunChecks(Start, [c0]) == Ok(t1) by {
      RunChecksSnoc(Start, [], c0);
      assert [] + [c0] == [c0];
    }
    assert RunChecks(Start, [c0, c1]) == Ok(t2) by {
      RunChecksSnoc(Start, [c0], c1);
      assert [c0] + [c1] == [c0, c1];
    }
    RunChecksSnoc(Start, [c0, c1], c2);
    assert [c0, c1] + [c2] == [c0, c1, c2];
    if c2.Thrown? {
      assert RunChecks(Start, [c0, c1, c2]).Err?;
      RunErrSticks(Start, [c0, c1, c2], [c3, c4, c5]);
      assert [c0, c1, c2] + [c3, c4, c5] == [c0, c1, c2, c3, c4, c5];
    } else {
      var t3 := Record(t2, c2);
      var t4 := Record(t3, c3);
      var t5 := Record(t4, c4);
      assert RunChecks(Start, [c0, c1, c2]) == Ok(t3);
      assert RunChecks(Start, [c0, c1, c2, c3]) == Ok(t4) by {
        RunChecksSnoc(Start, [c0, c1, c2], c3);
        assert [c0, c1, c2] + [c3] == [c0, c1, c2, c3];
      }
      assert RunChecks(Start, [c0, c1, c2, c3, c4]) == Ok(t5) by {
        RunChecksSnoc(Start, [c0, c1, c2, c3], c4);
        assert [c0, c1, c2, c3] + [c4] == [c0, c1, c2, c3, c4];
      }
      RunChecksSnoc(Start, [c0, c1, c2, c3, c4], c5);
      assert [c0, c1, c2, c3, c4] + [c5] == [c0, c1, c2, c3, c4, c5];
    }
  }

  /** Once a check has thrown, the checks after it change nothing. */
  lemma {:induction false} RunErrSticks(t: Tally, cs: seq<CheckResult>, rest: seq<CheckResult>)
    requires RunChecks(t, cs).Err?
    ensures RunChecks(t, cs + rest) == RunChecks(t, cs)
  {
    if |rest| > 0 {
      var p := rest[..|rest| - 1];
      RunErrSticks(t, cs, p);
      assert cs + rest == (cs + p) + [rest[|rest| - 1]];
      RunChecksSnoc(t, cs + p, rest[|rest| - 1]);
    } else {
      assert cs + rest == cs;
    }
  }

  /**
   * `main`: the six checks in order, then the summary's exit code, which is 0 iff all
   * six pass (`ExitZeroIffAllPass`).
   */
  method RunAll(files: Files, codec: JsonCodec) returns (exit: nat)
    ensures exit == ExitCode(files, codec)
  {
    RunChecksOfMain(files, codec);
    var g := new GlobalResults();
    var _ := g.FilesExist(files, ConfigFiles, "Missing config file: ");
    var _ := g.FilesExist(files, DebugFiles, "Missing debug file: ");
    var ids := g.CheckIds(files, codec);
    if ids.Err? {
      return 1;
    }
    var _ := g.CheckKeys(files, codec, ModulesConfigPath, ModulesPath, "modules", ModuleListing, "modules");
    var _ := g.CheckKeys(files, codec, EventsConfigPath, EventsPath, "events", EventListing, "events");
    var _ := g.CheckImports(files);
    exit := g.DisplaySummary();
  }
}
