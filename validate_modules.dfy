/**
 * `scripts/validate-modules.js`: the stand-alone check that every module of
 * `config/modules-list.json` is an entry of `MODULES_TO_TEST` in `debug/debug-modules.js`
 * and that each such entry lists at least the exports the config declares. Modules are
 * JavaScript `Map`s from name to info, in insertion order.
 */
module ValidateModules {
  import opened Wrappers
  import opened Json
  import opened Text
  import opened Extract
  import opened OrderedSet
  import opened OrderedMap
  import opened Concordance

  const NoModulesObject: string := "Cannot find MODULES_TO_TEST object in debug-modules.js"

  /** A config entry: whether `critical` is truthy, and `exports || []`. */
  datatype ConfigInfo = ConfigInfo(critical: bool, exports: Json)

  /** A test entry: the exports its body lists and its literal `critical` flag. */
  datatype TestInfo = TestInfo(exports: seq<string>, critical: bool)

  datatype Mismatch = Mismatch(name: string, missing: seq<Json>)

  /** The lists `validateModules` fills in while walking the config modules. */
  datatype Walk = Walk(valid: bool, inConfigNotInTest: seq<string>, exportsMismatch: seq<Mismatch>,
                       criticalMissing: seq<string>)

  datatype Results = Results(walk: Walk, totalConfig: nat, totalTest: nat, inTestNotInConfig: seq<string>)

  // ------------------------------------------------------------------ loading the config

  /** The info the config records for one module; `null` throws when `path` is read. */
  function InfoOf(info: Json): Result<ConfigInfo> {
    if info.JNull? then Err(NullRead("path"))
    else
      var critical := match Get(info, "critical") case Some(c) => Truthy(c) case None => false;
      var exports := match Get(info, "exports") case Some(e) => (if Truthy(e) then e else JArr([])) case None => JArr([]);
      Ok(ConfigInfo(critical, exports))
  }

  /** The map built from `Object.entries(config.modules)`. */
  function ConfigModulesOf(es: seq<(string, Json)>): Result<OMap<string, ConfigInfo>> {
    if |es| == 0 then Ok([])
    else
      match ConfigModulesOf(es[..|es| - 1])
      case Err(m) => Err(m)
      case Ok(prev) =>
        match InfoOf(es[|es| - 1].1)
        case Err(m) => Err(m)
        case Ok(info) => Ok(MapSet(prev, es[|es| - 1].0, info))
  }

  /** The module entries of a configuration, when `config.modules` is truthy. */
  function ModuleConfigEntries(cfg: Json): seq<(string, Json)> {
    match Get(cfg, "modules")
    case Some(ms) => if Truthy(ms) then Entries(ms) else []
    case None => []
  }

  /** `loadConfigModules`. */
  function ConfigModules(files: Files, codec: JsonCodec): Result<OMap<string, ConfigInfo>> {
    match LoadJsonSpec(files, codec, ModulesConfigPath)
    case Err(m) => Err(m)
    case Ok(cfg) =>
      if cfg.JNull? then Err(NullRead("modules"))
      else ConfigModulesOf(ModuleConfigEntries(cfg))
  }

  /** The config's module names are the entry names, each once, in first-seen order. */
  lemma {:induction false} ConfigModulesKeys(es: seq<(string, Json)>)
    requires ConfigModulesOf(es).Ok?
    ensures MapKeys(ConfigModulesOf(es).value) == Dedup(MapKeys(es))
  {
    if |es| > 0 {
      var p := es[..|es| - 1];
      ConfigModulesKeys(p);
      var prev := ConfigModulesOf(p).value;
      var e := es[|es| - 1];
      MapSetKeys(prev, e.0, InfoOf(e.1).value);
      assert MapKeys(es) == MapKeys(p) + [e.0];
      DedupSnoc(MapKeys(p), e.0);
    }
  }

  // ------------------------------------------------------------------ loading the test file

  function TestInfoOf(body: string): TestInfo {
    TestInfo(DeclaredExports(body), CriticalFlag(body))
  }

  /** The (name, info) pair each match of the module regex yields. */
  function TestPairs(es: seq<ModuleEntry>): (ps: seq<(string, TestInfo)>)
    ensures |ps| == |es| && forall i :: 0 <= i < |es| ==> ps[i] == (es[i].name, TestInfoOf(es[i].body))
  {
    seq(|es|, i requires 0 <= i < |es| => (es[i].name, TestInfoOf(es[i].body)))
  }

  /** The `while (moduleRegex.exec(...))` loop: one `set` per match. */
  function TestModulesOf(es: seq<ModuleEntry>): OMap<string, TestInfo> {
    FromPairs(TestPairs(es))
  }

  /**
   * The test modules are the matched names, each once in first-seen order, and a name
   * matched several times carries the exports and flag of its last match.
   */
  lemma TestModulesKeys(es: seq<ModuleEntry>, i: nat)
    requires i < |es| && forall j :: i < j < |es| ==> es[j].name != es[i].name
    ensures forall n :: n in MapKeys(TestModulesOf(es)) <==> exists k :: 0 <= k < |es| && es[k].name == n
    ensures MapGet(TestModulesOf(es), es[i].name) == Some(TestInfoOf(es[i].body))
  {
    var ps := TestPairs(es);
    FromPairsKeys(ps);
    FromPairsLast(ps, i);
    forall n ensures n in MapKeys(ps) <==> exists k :: 0 <= k < |es| && es[k].name == n {
      if n in MapKeys(ps) {
        var k :| 0 <= k < |ps| && MapKeys(ps)[k] == n;
        assert es[k].name == n;
      }
    }
  }

  /** `loadTestModules`: the entries between `MODULES_TO_TEST = {` and the first `};`. */
  function TestModules(files: Files): Result<OMap<string, TestInfo>> {
    match ReadFile(files, ModulesPath)
    case Err(m) => Err(m)
    case Ok(content) =>
      match Between(content, ModulesAnchor, ObjectClose)
      case None => Err(NoModulesObject)
      case Some(body) => Ok(TestModulesOf(ModuleEntries(body)))
  }

  // ------------------------------------------------------------------ validation

  /** `new Set(v)` iterated: arrays yield their items, strings their characters, null nothing. */
  function Iterate(v: Json): (r: Result<seq<Json>>)
    ensures r.Err? <==> v.JBool? || v.JNum? || v.JObj?
  {
    match v
    case JNull => Ok([])
    case JArr(items) => Ok(items)
    case JStr(s) => Ok(seq(|s|, i requires 0 <= i < |s| => JStr([s[i]])))
    case _ => Err(TypeName(v) + " is not iterable")
  }

  /** The config exports of a shared module that its test entry does not list. */
  function MissingExports(info: ConfigInfo, t: TestInfo): Result<seq<Json>> {
    match Iterate(info.exports)
    case Err(m) => Err(m)
    case Ok(xs) => Ok(Without(Dedup(xs), Dedup(Strs(t.exports))))
  }

  /** A missing export is a config export that the test entry does not list. */
  lemma MissingExportsMeaning(info: ConfigInfo, t: TestInfo, x: Json)
    requires MissingExports(info, t).Ok?
    ensures x in MissingExports(info, t).value <==>
      x in Iterate(info.exports).value && x !in Strs(t.exports)
  {
  }

  /** What one config module contributes: Ok(missing exports), none when it has no test entry. */
  function MismatchOf(test: OMap<string, TestInfo>, e: (string, ConfigInfo)): Result<seq<Json>> {
    match MapGet(test, e.0)
    case None => Ok([])
    case Some(t) => MissingExports(e.1, t)
  }

  /** One step of the walk over the config modules' `forEach`. */
  function Step(w: Walk, test: OMap<string, TestInfo>, e: (string, ConfigInfo)): Result<Walk> {
    if e.0 !in MapKeys(test) then
      Ok(Walk(false, w.inConfigNotInTest + [e.0], w.exportsMismatch,
              w.criticalMissing + (if e.1.critical then [e.0] else [])))
    else
      match MismatchOf(test, e)
      case Err(m) => Err(m)
      case Ok(missing) =>
        if missing != [] then Ok(w.(valid := false, exportsMismatch := w.exportsMismatch + [Mismatch(e.0, missing)]))
        else Ok(w)
  }

  /** The walk over the config modules, up to an exception from `new Set`. */
  function WalkOf(config: OMap<string, ConfigInfo>, test: OMap<string, TestInfo>): Result<Walk> {
    if |config| == 0 then Ok(Walk(true, [], [], []))
    else
      match WalkOf(config[..|config| - 1], test)
      case Err(m) => Err(m)
      case Ok(w) => Step(w, test, config[|config| - 1])
  }

  /** The walk throws iff a shared module's config exports are not iterable. */
  lemma {:induction false} WalkThrows(config: OMap<string, ConfigInfo>, test: OMap<string, TestInfo>)
    ensures WalkOf(config, test).Err? <==> exists e :: e in config && MismatchOf(test, e).Err?
  {
    if |config| > 0 {
      var p, e := config[..|config| - 1], config[|config| - 1];
      InFront(config);
      WalkThrows(p, test);
    }
  }

  /** The config-only list is config ∖ test. */
  lemma {:induction false} WalkConfigOnly(config: OMap<string, ConfigInfo>, test: OMap<string, TestInfo>)
    requires WalkOf(config, test).Ok?
    ensures WalkOf(config, test).value.inConfigNotInTest == Without(MapKeys(config), MapKeys(test))
  {
    if |config| > 0 {
      var p, e := config[..|config| - 1], config[|config| - 1];
      WalkConfigOnly(p, test);
      var w := WalkOf(p, test).value;
      assert WalkOf(config, test) == Step(w, test, e);
      MapKeysSnoc(config);
      WithoutSnoc(MapKeys(p), e.0, MapKeys(test));
    }
  }

  /** `criticalMissing` holds exactly the config-only modules whose config flags them critical. */
  lemma {:induction false} WalkCritical(config: OMap<string, ConfigInfo>, test: OMap<string, TestInfo>, x: string)
    requires WalkOf(config, test).Ok?
    ensures x in WalkOf(config, test).value.criticalMissing <==>
      exists e :: e in config && e.0 == x && x !in MapKeys(test) && e.1.critical
  {
    if |config| > 0 {
      var p, e := config[..|config| - 1], config[|config| - 1];
      InFront(config);
      WalkCritical(p, test, x);
    }
  }

  /** `valid` holds iff neither a config-only module nor a mismatch was found. */
  lemma {:induction false} WalkValid(config: OMap<string, ConfigInfo>, test: OMap<string, TestInfo>)
    requires WalkOf(config, test).Ok?
    ensures var w := WalkOf(config, test).value;
      w.valid <==> w.inConfigNotInTest == [] && w.exportsMismatch == []
  {
    if |config| > 0 {
      WalkValid(config[..|config| - 1], test);
    }
  }

  /** No mismatch is recorded iff every shared module's test entry lists all its config exports. */
  lemma {:induction false} WalkNoMismatch(config: OMap<string, ConfigInfo>, test: OMap<string, TestInfo>)
    requires WalkOf(config, test).Ok?
    ensures WalkOf(config, test).value.exportsMismatch == [] <==> forall e :: e in config ==> MismatchOf(test, e) == Ok([])
  {
    if |config| > 0 {
      var p, e := config[..|config| - 1], config[|config| - 1];
      InFront(config);
      WalkNoMismatch(p, test);
    }
  }

  /** Every recorded mismatch names a shared module and the non-empty list of exports it misses. */
  lemma {:induction false} WalkMismatchEntries(config: OMap<string, ConfigInfo>, test: OMap<string, TestInfo>, m: Mismatch)
    requires WalkOf(config, test).Ok?
    requires m in WalkOf(config, test).value.exportsMismatch
    ensures m.missing != [] && m.name in MapKeys(test)
    ensures exists e :: e in config && e.0 == m.name && MismatchOf(test, e) == Ok(m.missing)
  {
    var p, e := config[..|config| - 1], config[|config| - 1];
    assert config == p + [e];
    if m in WalkOf(p, test).value.exportsMismatch {
      WalkMismatchEntries(p, test, m);
    }
  }

  /** The module names of test entries that the config lacks. */
  method TestOnly(config: OMap<string, ConfigInfo>, test: OMap<string, TestInfo>) returns (r: seq<string>)
    ensures r == Without(MapKeys(test), MapKeys(config))
  {
    r := Difference(MapKeys(test), MapKeys(config));
  }

  /** `validateModules`: Err is the exception `new Set` throws on a non-iterable export list. */
  method Validate(config: OMap<string, ConfigInfo>, test: OMap<string, TestInfo>) returns (r: Result<Results>)
    ensures r.Err? <==> WalkOf(config, test).Err?
    ensures r.Ok? ==> r.value.walk == WalkOf(config, test).value
    ensures r.Ok? ==> r.value.totalConfig == |config| && r.value.totalTest == |test|
    ensures r.Ok? ==> r.value.inTestNotInConfig == Without(MapKeys(test), MapKeys(config))
  {
    var w := Walk(true, [], [], []);
    var i := 0;
    while i < |config|
      invariant 0 <= i <= |config|
      invariant WalkOf(config[..i], test) == Ok(w)
    {
      assert config[..i + 1][..i] == config[..i];
      var (name, info) := config[i];
      var t := MapGet(test, name);
      if t.None? {
        w := Walk(false, w.inConfigNotInTest + [name], w.exportsMismatch,
                  w.criticalMissing + (if info.critical then [name] else []));
      } else {
        var missing := MissingExports(info, t.value);
        if missing.Err? {
          assert WalkOf(config[..i + 1], test).Err?;
          WalkErrSticks(config, test, i + 1);
          return Err(missing.error);
        }
        if missing.value != [] {
          w := w.(valid := false, exportsMismatch := w.exportsMismatch + [Mismatch(name, missing.value)]);
        }
      }
      i := i + 1;
    }
    assert config[..i] == config;
    var extra := TestOnly(config, test);
    r := Ok(Results(w, |config|, |test|, extra));
  }

  /** An exception part-way through ends the whole walk. */
  lemma {:induction false} WalkErrSticks(config: OMap<string, ConfigInfo>, test: OMap<string, TestInfo>, n: nat)
    requires n <= |config| && WalkOf(config[..n], test).Err?
    ensures WalkOf(config, test).Err?
  {
    if n < |config| {
      var q := config[..|config| - 1];
      assert q[..n] == config[..n];
      WalkErrSticks(q, test, n);
    } else {
      assert config[..n] == config;
    }
  }

  // ------------------------------------------------------------------ main

  /** The exit code of a whole run: `displayResults` returns 0 iff `valid`. */
  function Outcome(files: Files, codec: JsonCodec): nat {
    match ConfigModules(files, codec)
    case Err(_) => 1
    case Ok(config) =>
      match TestModules(files)
      case Err(_) => 1
      case Ok(test) =>
        match WalkOf(config, test)
        case Err(_) => 1
        case Ok(w) => if w.valid then 0 else 1
  }

  /**
   * A run exits 0 iff both files load, every config module has a test entry, and every
   * shared module's config exports are all listed by its test entry. Test-only modules
   * do not matter.
   */
  lemma OutcomeZeroIff(files: Files, codec: JsonCodec)
    ensures Outcome(files, codec) == 0 <==>
      && ConfigModules(files, codec).Ok? && TestModules(files).Ok?
      && var config, test := ConfigModules(files, codec).value, TestModules(files).value;
         && (forall x :: x in MapKeys(config) ==> x in MapKeys(test))
         && (forall e :: e in config ==> MismatchOf(test, e) == Ok([]))
  {
    if ConfigModules(files, codec).Ok? && TestModules(files).Ok? {
      var config, test := ConfigModules(files, codec).value, TestModules(files).value;
      WalkThrows(config, test);
      if WalkOf(config, test).Ok? {
        WalkConfigOnly(config, test);
        WalkValid(config, test);
        WalkNoMismatch(config, test);
        WithoutEmpty(MapKeys(config), MapKeys(test));
      }
    }
  }

  /** `loadConfigModules` as it runs: one `set` per config entry. */
  method LoadConfigModules(files: Files, codec: JsonCodec) returns (r: Result<OMap<string, ConfigInfo>>)
    ensures r == ConfigModules(files, codec)
  {
    var loaded := LoadJsonSpec(files, codec, ModulesConfigPath);
    if loaded.Err? {
      return Err(loaded.error);
    }
    if loaded.value.JNull? {
      return Err(NullRead("modules"));
    }
    var es := ModuleConfigEntries(loaded.value);
    var modules: OMap<string, ConfigInfo> := [];
    var i := 0;
    while i < |es|
      invariant 0 <= i <= |es|
      invariant ConfigModulesOf(es[..i]) == Ok(modules)
    {
      assert es[..i + 1][..i] == es[..i];
      var info := InfoOf(es[i].1);
      if info.Err? {
        ConfigModulesErrSticks(es, i + 1);
        return Err(info.error);
      }
      modules := MapSet(modules, es[i].0, info.value);
      i := i + 1;
    }
    assert es[..i] == es;
    r := Ok(modules);
  }

  lemma {:induction false} ConfigModulesErrSticks(es: seq<(string, Json)>, n: nat)
    requires n <= |es| && ConfigModulesOf(es[..n]).Err?
    ensures ConfigModulesOf(es) == ConfigModulesOf(es[..n])
  {
    if n < |es| {
      var q := es[..|es| - 1];
      assert q[..n] == es[..n];
      ConfigModulesErrSticks(q, n);
    } else {
      assert es[..n] == es;
    }
  }

  /** `loadTestModules` as it runs: the regex loop over the object body. */
  method LoadTestModules(files: Files) returns (r: Result<OMap<string, TestInfo>>)
    ensures r == TestModules(files)
  {
    if ModulesPath !in files {
      return Err(NoSuchFile(ModulesPath));
    }
    var listed := Between(files[ModulesPath], ModulesAnchor, ObjectClose);
    if listed.None? {
      return Err(NoModulesObject);
    }
    var es := ModuleEntries(listed.value);
    var modules: OMap<string, TestInfo> := [];
    var i := 0;
    while i < |es|
      invariant 0 <= i <= |es|
      invariant modules == FromPairs(TestPairs(es)[..i])
    {
      assert TestPairs(es)[..i + 1][..i] == TestPairs(es)[..i];
      modules := MapSet(modules, es[i].name, TestInfoOf(es[i].body));
      i := i + 1;
    }
    assert TestPairs(es)[..i] == TestPairs(es);
    r := Ok(modules);
  }

  /** `main`. */
  method Run(files: Files, codec: JsonCodec) returns (exit: nat)
    ensures exit == Outcome(files, codec)
  {
    var configData := LoadConfigModules(files, codec);
    if configData.Err? {
      return 1;
    }
    var testData := LoadTestModules(files);
    if testData.Err? {
      return 1;
    }
    var results := Validate(configData.value, testData.value);
    if results.Err? {
      return 1;
    }
    exit := if results.value.walk.valid then 0 else 1;
  }
}
