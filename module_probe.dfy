/**
 * The table of application modules `debug/debug-modules.js` checks: for each file, its
 * path, whether it is critical, and the exports it must define.
 */
module ModuleTable {
  /** One entry of `MODULES_TO_TEST`. */
  datatype ModuleConfig = ModuleConfig(name: string, path: string, critical: bool, exports: seq<string>)

  const StateExports: seq<string> := [
    "emit", "on", "getCurrentRange", "setCurrentRange", "ymd",
    "getSettings", "saveSettings", "setSetting",
    "getLimits", "saveLimits",
    "getEconomy", "saveEconomy",
    "getWarnState", "saveWarnState",
    "getDaily", "getAllDaily",
    "addEntry", "removeEntry",
    "totalsForDate", "totalsForWeek", "totalsForMonth", "totalsForYear",
    "getAggregates", "getTotalsForRange"]

  /** The critical entries of `MODULES_TO_TEST`, which come first. */
  const CriticalModules: seq<ModuleConfig> := [
    ModuleConfig("state.js", "./js/state.js", true, StateExports),
    ModuleConfig("app.js", "./js/app.js", true, []),
    ModuleConfig("counters.js", "./js/counters.js", true, ["initCounters"]),
    ModuleConfig("charts.js", "./js/charts.js", true, ["initCharts"]),
    ModuleConfig("modals.js", "./js/modals.js", true, ["initModals"])]

  /** The optional entries of `MODULES_TO_TEST`, which follow. */
  const OptionalModules: seq<ModuleConfig> := [
    ModuleConfig("stats.js", "./js/stats.js", false, ["initStats"]),
    ModuleConfig("calendar.js", "./js/calendar.js", false, ["initCalendar"]),
    ModuleConfig("export.js", "./js/export.js", false, ["initExport"]),
    ModuleConfig("settings.js", "./js/settings.js", false, ["initSettings"]),
    ModuleConfig("economy.js", "./js/economy.js", false, ["initEconomy"]),
    ModuleConfig("limits.js", "./js/limits.js", false, ["initLimits"])]

  /** `MODULES_TO_TEST`, in the order of its entries. */
  const ModulesToTest: seq<ModuleConfig> := CriticalModules + OptionalModules

  /** How many entries of cfgs are critical. */
  function CriticalCount(cfgs: seq<ModuleConfig>): (n: nat)
    ensures n <= |cfgs|
  {
    if |cfgs| == 0 then 0
    else CriticalCount(cfgs[..|cfgs| - 1]) + if cfgs[|cfgs| - 1].critical then 1 else 0
  }

  /** The critical entries of a concatenation are those of its parts. */
  lemma {:induction false} CriticalCountConcat(a: seq<ModuleConfig>, b: seq<ModuleConfig>)
    ensures CriticalCount(a + b) == CriticalCount(a) + CriticalCount(b)
  {
    if |b| > 0 {
      var p := b[..|b| - 1];
      CriticalCountConcat(a, p);
      assert (a + b)[..|a + b| - 1] == a + p;
    } else {
      assert a + b == a;
    }
  }

  /** A table whose entries are all critical, or all optional, counts all or none of them. */
  lemma {:induction false} CriticalCountUniform(cfgs: seq<ModuleConfig>, critical: bool)
    requires forall i :: 0 <= i < |cfgs| ==> cfgs[i].critical == critical
    ensures CriticalCount(cfgs) == if critical then |cfgs| else 0
  {
    if |cfgs| > 0 {
      var p := cfgs[..|cfgs| - 1];
      assert forall i :: 0 <= i < |p| ==> p[i] == cfgs[i];
      CriticalCountUniform(p, critical);
    }
  }

  /** The table holds 11 modules, 5 of them critical, and `app.js` alone declares no exports. */
  lemma TableShape()
    ensures |ModulesToTest| == 11
    ensures CriticalCount(ModulesToTest) == 5
    ensures forall i :: 0 <= i < |ModulesToTest| ==> (ModulesToTest[i].exports == [] <==> i == 1)
  {
    CriticalCountConcat(CriticalModules, OptionalModules);
    CriticalCountUniform(CriticalModules, true);
    CriticalCountUniform(OptionalModules, false);
  }
}

/**
 * `debug/debug-modules.js`: each module of the table is imported and its declared exports
 * looked up; the run is tallied into passed, failed and critical failures. The dynamic
 * `import(path)` is an oracle: it fails with a message, or yields the names the module
 * defines.
 */
module ModuleProbe {
  import opened Wrappers
  import opened Browser
  import opened Severity
  import opened ModuleTable

  /** `await import(path)`: an error message, or the names the namespace defines. */
  type Loader = string -> Result<set<string>>

  /** What `testModule` returns, without the load time. */
  datatype ModuleResult = ModuleResult(
    name: string, path: string, critical: bool,
    loaded: bool, exportsValid: bool,
    exportsFound: seq<string>, exportsMissing: seq<string>, errors: seq<string>)

  /** The declared exports the module defines, in declaration order. */
  function Kept(xs: seq<string>, defined: set<string>): (r: seq<string>)
    ensures |r| <= |xs|
  {
    if |xs| == 0 then []
    else Kept(xs[..|xs| - 1], defined) + if xs[|xs| - 1] in defined then [xs[|xs| - 1]] else []
  }

  /** The declared exports the module does not define, in declaration order. */
  function Dropped(xs: seq<string>, defined: set<string>): (r: seq<string>)
    ensures |r| <= |xs|
  {
    if |xs| == 0 then []
    else Dropped(xs[..|xs| - 1], defined) + if xs[|xs| - 1] in defined then [] else [xs[|xs| - 1]]
  }

  /**
   * Found and missing partition the declared exports: together they hold each declaration
   * exactly once.
   */
  lemma {:induction false} KeptDroppedCount(xs: seq<string>, defined: set<string>)
    ensures |Kept(xs, defined)| + |Dropped(xs, defined)| == |xs|
    ensures multiset(Kept(xs, defined)) + multiset(Dropped(xs, defined)) == multiset(xs)
  {
    if |xs| > 0 {
      var p, x := xs[..|xs| - 1], xs[|xs| - 1];
      KeptDroppedCount(p, defined);
      assert xs == p + [x];
    }
  }

  /** Found holds exactly the defined declarations, missing exactly the undefined ones. */
  lemma {:induction false} KeptDroppedIff(xs: seq<string>, defined: set<string>)
    ensures forall x :: x in Kept(xs, defined) <==> x in xs && x in defined
    ensures forall x :: x in Dropped(xs, defined) <==> x in xs && x !in defined
  {
    if |xs| > 0 {
      var p, x := xs[..|xs| - 1], xs[|xs| - 1];
      KeptDroppedIff(p, defined);
      assert xs == p + [x];
    }
  }

  const ImportFailed: string := "Import failed: "

  /** `testModule` for one entry. */
  function Outcome(cfg: ModuleConfig, load: Loader): (r: ModuleResult)
    ensures r.name == cfg.name && r.path == cfg.path && r.critical == cfg.critical
  {
    var start := ModuleResult(cfg.name, cfg.path, cfg.critical, false, false, [], [], []);
    match load(cfg.path)
    case Err(m) => start.(errors := [ImportFailed + m])
    case Ok(defined) =>
      if cfg.exports == [] then start.(loaded := true, exportsValid := true)
      else
        var missing := Dropped(cfg.exports, defined);
        start.(loaded := true, exportsFound := Kept(cfg.exports, defined),
               exportsMissing := missing, exportsValid := missing == [])
  }

  /**
   * An import failure gives one error and nothing else; a loaded module has no errors, its
   * found and missing exports are the defined and undefined declarations, and it is valid
   * iff none is missing -- so a module declaring no exports is valid once loaded.
   */
  lemma OutcomeMeaning(cfg: ModuleConfig, load: Loader)
    ensures var r := Outcome(cfg, load);
      && (r.loaded <==> load(cfg.path).Ok?)
      && (load(cfg.path).Err? ==>
            !r.exportsValid && r.errors == [ImportFailed + load(cfg.path).error]
            && r.exportsFound == [] && r.exportsMissing == [])
      && (load(cfg.path).Ok? ==>
            var defined := load(cfg.path).value;
            && r.errors == []
            && r.exportsFound == Kept(cfg.exports, defined)
            && r.exportsMissing == Dropped(cfg.exports, defined)
            && (r.exportsValid <==> forall i :: 0 <= i < |cfg.exports| ==> cfg.exports[i] in defined))
  {
    if load(cfg.path).Ok? {
      var defined := load(cfg.path).value;
      KeptDroppedIff(cfg.exports, defined);
      if cfg.exports != [] && Dropped(cfg.exports, defined) != [] {
        assert Dropped(cfg.exports, defined)[0] in Dropped(cfg.exports, defined);
      }
    }
  }

  /** `testModule` as it runs: the import, then the loop over the declared exports. */
  method TestModule(cfg: ModuleConfig, load: Loader) returns (r: ModuleResult)
    ensures r == Outcome(cfg, load)
  {
    r := ModuleResult(cfg.name, cfg.path, cfg.critical, false, false, [], [], []);
    var imported := load(cfg.path);
    if imported.Err? {
      r := r.(loaded := false, errors := r.errors + [ImportFailed + imported.error]);
      return;
    }
    r := r.(loaded := true);
    if |cfg.exports| == 0 {
      r := r.(exportsValid := true);
    } else {
      var defined := imported.value;
      var i := 0;
      while i < |cfg.exports|
        invariant 0 <= i <= |cfg.exports|
        invariant r.exportsFound == Kept(cfg.exports[..i], defined)
        invariant r.exportsMissing == Dropped(cfg.exports[..i], defined)
        invariant r == ModuleResult(cfg.name, cfg.path, cfg.critical, true, false, r.exportsFound, r.exportsMissing, [])
      {
        var name := cfg.exports[i];
        assert cfg.exports[..i + 1][..i] == cfg.exports[..i];
        if name in defined {
          r := r.(exportsFound := r.exportsFound + [name]);
        } else {
          r := r.(exportsMissing := r.exportsMissing + [name]);
        }
        i := i + 1;
      }
      assert cfg.exports[..i] == cfg.exports;
      r := r.(exportsValid := |r.exportsMissing| == 0);
    }
  }

  // ------------------------------------------------------------------ testModules

  /** What `testModules` returns, without the timings. */
  datatype ModulesResults = ModulesResults(
    total: nat, tested: nat, passed: nat, failed: nat, criticalFailed: nat,
    modules: map<string, ModuleResult>)

  predicate Passes(r: ModuleResult) {
    r.loaded && r.exportsValid
  }

  /** One iteration of the `for ... of` of `testModules`. */
  function VisitModule(acc: ModulesResults, cfg: ModuleConfig, load: Loader): ModulesResults {
    var res := Outcome(cfg, load);
    var acc1 := acc.(tested := acc.tested + 1, modules := acc.modules[cfg.name := res]);
    if Passes(res) then acc1.(passed := acc1.passed + 1)
    else acc1.(failed := acc1.failed + 1,
               criticalFailed := if cfg.critical then acc1.criticalFailed + 1 else acc1.criticalFailed)
  }

  /** The results after the loop has visited cfgs, for a table of `total` entries. */
  function ScanModules(total: nat, cfgs: seq<ModuleConfig>, load: Loader): ModulesResults {
    if |cfgs| == 0 then ModulesResults(total, 0, 0, 0, 0, map[])
    else VisitModule(ScanModules(total, cfgs[..|cfgs| - 1], load), cfgs[|cfgs| - 1], load)
  }

  /** How many entries of cfgs fail, and how many of those are critical. */
  function Failures(cfgs: seq<ModuleConfig>, load: Loader, onlyCritical: bool): (n: nat)
    ensures n <= |cfgs|
  {
    if |cfgs| == 0 then 0
    else
      var cfg := cfgs[|cfgs| - 1];
      Failures(cfgs[..|cfgs| - 1], load, onlyCritical)
        + if !Passes(Outcome(cfg, load)) && (cfg.critical || !onlyCritical) then 1 else 0
  }

  /**
   * Every entry is tested once and either passes or fails; `criticalFailed` counts the
   * failing critical entries, so it never exceeds `failed`.
   */
  lemma {:induction false} ScanModulesMeaning(total: nat, cfgs: seq<ModuleConfig>, load: Loader)
    ensures var r := ScanModules(total, cfgs, load);
      && r.total == total
      && r.tested == |cfgs| && r.passed + r.failed == r.tested
      && r.failed == Failures(cfgs, load, false)
      && r.criticalFailed == Failures(cfgs, load, true)
      && r.criticalFailed <= r.failed
  {
    if |cfgs| > 0 {
      ScanModulesMeaning(total, cfgs[..|cfgs| - 1], load);
    }
  }

  /** The results are keyed by exactly the names of the entries visited. */
  lemma {:induction false} ScanModulesKeys(total: nat, cfgs: seq<ModuleConfig>, load: Loader)
    ensures forall i :: 0 <= i < |cfgs| ==> cfgs[i].name in ScanModules(total, cfgs, load).modules
    ensures forall n :: n in ScanModules(total, cfgs, load).modules ==>
      exists i :: 0 <= i < |cfgs| && cfgs[i].name == n
  {
    if |cfgs| > 0 {
      var p := cfgs[..|cfgs| - 1];
      ScanModulesKeys(total, p, load);
      assert forall i :: 0 <= i < |p| ==> p[i] == cfgs[i];
      forall n | n in ScanModules(total, cfgs, load).modules
        ensures exists i :: 0 <= i < |cfgs| && cfgs[i].name == n
      {
        if n != cfgs[|cfgs| - 1].name {
          var i :| 0 <= i < |p| && p[i].name == n;
          assert cfgs[i] == p[i];
        }
      }
    }
  }

  /** With distinct names, the result recorded under an entry's name is that entry's. */
  lemma {:induction false} ModuleRecorded(total: nat, cfgs: seq<ModuleConfig>, load: Loader, i: nat)
    requires i < |cfgs|
    requires forall a, b :: 0 <= a < b < |cfgs| ==> cfgs[a].name != cfgs[b].name
    ensures cfgs[i].name in ScanModules(total, cfgs, load).modules
    ensures ScanModules(total, cfgs, load).modules[cfgs[i].name] == Outcome(cfgs[i], load)
  {
    var p := cfgs[..|cfgs| - 1];
    if i < |cfgs| - 1 {
      ModuleRecorded(total, p, load, i);
      assert cfgs[i] == p[i];
    }
  }

  /** `testModules` over any table of entries. */
  method ProbeModules(cfgs: seq<ModuleConfig>, load: Loader) returns (r: ModulesResults)
    ensures r == ScanModules(|cfgs|, cfgs, load)
  {
    r := ModulesResults(|cfgs|, 0, 0, 0, 0, map[]);
    var i := 0;
    while i < |cfgs|
      invariant 0 <= i <= |cfgs|
      invariant r == ScanModules(|cfgs|, cfgs[..i], load)
    {
      var cfg := cfgs[i];
      assert cfgs[..i + 1][..i] == cfgs[..i];
      r := r.(tested := r.tested + 1);
      var moduleResult := TestModule(cfg, load);
      r := r.(modules := r.modules[cfg.name := moduleResult]);
      if moduleResult.loaded && moduleResult.exportsValid {
        r := r.(passed := r.passed + 1);
      } else {
        r := r.(failed := r.failed + 1);
        if cfg.critical {
          r := r.(criticalFailed := r.criticalFailed + 1);
        }
      }
      i := i + 1;
    }
    assert cfgs[..i] == cfgs;
  }

  /** What `testModules` returns under `load`. */
  function ModulesOf(load: Loader): ModulesResults {
    ScanModules(|ModulesToTest|, ModulesToTest, load)
  }

  /** `testModules`. */
  method TestModules(load: Loader) returns (r: ModulesResults)
    ensures r == ModulesOf(load)
    ensures r.total == r.tested == 11 && r.passed + r.failed == r.tested
    ensures r.failed == Failures(ModulesToTest, load, false)
    ensures r.criticalFailed == Failures(ModulesToTest, load, true) && r.criticalFailed <= r.failed
  {
    r := ProbeModules(ModulesToTest, load);
    ScanModulesMeaning(|ModulesToTest|, ModulesToTest, load);
    TableShape();
  }

  /** The line `testModules` ends with. */
  function ModulesVerdict(r: ModulesResults): Verdict {
    Classify(r.failed, r.criticalFailed)
  }

  // ------------------------------------------------------------------ testChartJS

  datatype ChartResult = ChartResult(available: bool, version: Option<string>, error: Option<string>)

  const ChartUndefined: string := "window.Chart is undefined"

  /** `Chart.version || 'unknown'`: an absent or empty version reads as "unknown". */
  function VersionOf(c: ChartGlobal): string {
    if c.version.Some? && c.version.value != "" then c.version.value else "unknown"
  }

  /** `testChartJS`: whether `window.Chart` is defined, and its version. */
  function TestChartJs(chart: Option<ChartGlobal>): (r: ChartResult)
    ensures r.available <==> chart.Some?
    ensures r.available ==> r.error.None? && r.version.Some? && r.version.value != ""
    ensures r.available && chart.value.version.Some? && chart.value.version.value != "" ==>
      r.version == chart.value.version
    ensures !r.available ==> r.version.None? && r.error == Some(ChartUndefined)
  {
    match chart
    case Some(c) => ChartResult(true, Some(VersionOf(c)), None)
    case None => ChartResult(false, None, Some(ChartUndefined))
  }
}
