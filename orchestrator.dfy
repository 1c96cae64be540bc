/**
 * `debug/debug.js`: the orchestrator. It loads the testers, runs the six test phases into
 * `debugState.results`, decides which repairs to attempt, prints the console summary, and
 * keeps the `active` / `SA_DEBUG` state in step with the overlay.
 */
module Orchestrator {
  import opened Wrappers
  import opened Json
  import opened Browser
  import opened Severity
  import opened DebugResults
  import ModuleTable
  import ModuleProbe
  import DomIds
  import DomProbe
  import Storage
  import Fallbacks
  import DebugUi
  import Reporter

  /** The eight modules `loadDebugModules` imports, in its order. */
  datatype Tester = LoggerModule | UiModule | ModulesTester | DomTester | StorageTester
                  | EventsTester | ChartTester | FallbacksModule

  /**
   * The handles `loadDebugModules` leaves set when the imports in `imports` succeed: all
   * of them, unless the logger fails, which stops the loading before anything else.
   */
  function LoadedBy(imports: set<Tester>): (loaded: set<Tester>)
    ensures LoggerModule in loaded <==> LoggerModule in imports
    ensures loaded <= imports
  {
    if LoggerModule in imports then imports else {}
  }

  // ------------------------------------------------------------------ results

  /**
   * What the probes guarantee of the results they store: the model's probes never throw,
   * critical module failures are failures, critical missing ids are missing ids, and
   * storage errors are failed keys.
   */
  predicate Coherent(res: Results) {
    && (res.modules.Some? ==>
          res.modules.value.Done? && res.modules.value.value.criticalFailed <= res.modules.value.value.failed)
    && (res.dom.Some? ==>
          res.dom.value.Done? && |res.dom.value.value.criticalMissing| <= |res.dom.value.value.missing| == res.dom.value.value.failed)
    && (res.storage.Some? ==>
          res.storage.value.Done? && |res.storage.value.value.errors| <= res.storage.value.value.failed)
  }

  /** Phase 1 stores what `testModules` and `testChartJS` returned, when the modules tester is loaded. */
  function AfterModules(res: Results, loaded: set<Tester>, mods: ModuleProbe.ModulesResults,
                        chart: ModuleProbe.ChartResult): Results
  {
    if ModulesTester in loaded then res.(modules := Some(Done(mods)), chartJS := Some(chart)) else res
  }

  /** Phase 2 stores what `testDOM`, `testButtons` and `testInputs` returned, when the DOM tester is loaded. */
  function AfterDom(res: Results, loaded: set<Tester>, dom: DomProbe.DomResults, buttons: DomProbe.ButtonResults,
                    inputs: DomProbe.InputResults): Results
  {
    if DomTester in loaded then res.(dom := Some(Done(dom)), buttons := Some(buttons), inputs := Some(inputs)) else res
  }

  /** Phase 3 stores what `testLocalStorage` returned, when the storage tester is loaded. */
  function AfterStorage(res: Results, loaded: set<Tester>, storage: Storage.StorageResults): Results {
    if StorageTester in loaded then res.(storage := Some(Done(storage))) else res
  }

  /** Phases 4 and 5 record that the events and Chart.js testers ran, when they are loaded. */
  function AfterLate(res: Results, loaded: set<Tester>): Results {
    var r := if EventsTester in loaded then res.(events := true) else res;
    if ChartTester in loaded then r.(chartDetailed := true) else r
  }

  /** Phases 4 and 5 leave the module, DOM and storage results alone. */
  lemma LateKeepsCoherent(res: Results, loaded: set<Tester>)
    requires Coherent(res)
    ensures Coherent(AfterLate(res, loaded))
  {
  }

  /**
   * The results after phases 1-5 of `runAllTests`, each run exactly when its tester is
   * loaded and storing what its tester returned; a skipped phase leaves the previous
   * run's result in place.
   */
  function Tested(res: Results, loaded: set<Tester>, mods: ModuleProbe.ModulesResults, chart: ModuleProbe.ChartResult,
                  dom: DomProbe.DomResults, buttons: DomProbe.ButtonResults, inputs: DomProbe.InputResults,
                  storage: Storage.StorageResults): Results
  {
    AfterLate(AfterStorage(AfterDom(AfterModules(res, loaded, mods, chart), loaded, dom, buttons, inputs), loaded, storage), loaded)
  }

  /** A phase's result changes exactly when its tester is loaded... */
  lemma TestedPhases(res: Results, loaded: set<Tester>, mods: ModuleProbe.ModulesResults, chart: ModuleProbe.ChartResult,
                     dom: DomProbe.DomResults, buttons: DomProbe.ButtonResults, inputs: DomProbe.InputResults,
                     storage: Storage.StorageResults)
    ensures var t := Tested(res, loaded, mods, chart, dom, buttons, inputs, storage);
      && (t.modules == if ModulesTester in loaded then Some(Done(mods)) else res.modules)
      && (t.chartJS == if ModulesTester in loaded then Some(chart) else res.chartJS)
      && (t.dom == if DomTester in loaded then Some(Done(dom)) else res.dom)
      && (t.buttons == if DomTester in loaded then Some(buttons) else res.buttons)
      && (t.inputs == if DomTester in loaded then Some(inputs) else res.inputs)
      && (t.storage == if StorageTester in loaded then Some(Done(storage)) else res.storage)
      && (t.events <==> res.events || EventsTester in loaded)
      && (t.chartDetailed <==> res.chartDetailed || ChartTester in loaded)
  {
  }

  /** ... and what the probes return keeps the results coherent. */
  lemma TestedCoherent(res: Results, loaded: set<Tester>, mods: ModuleProbe.ModulesResults, chart: ModuleProbe.ChartResult,
                       dom: DomProbe.DomResults, buttons: DomProbe.ButtonResults, inputs: DomProbe.InputResults,
                       storage: Storage.StorageResults)
    requires Coherent(res)
    requires mods.criticalFailed <= mods.failed
    requires |dom.criticalMissing| <= |dom.missing| == dom.failed
    requires |storage.errors| <= storage.failed
    ensures Coherent(Tested(res, loaded, mods, chart, dom, buttons, inputs, storage))
  {
    TestedPhases(res, loaded, mods, chart, dom, buttons, inputs, storage);
  }

  // ------------------------------------------------------------------ repairs

  /**
   * Phase 6's decisions: repair storage, create the critical missing ids, install the
   * Chart.js stub; `failed` when reading an errored slot threw, which ends the phase.
   */
  datatype RepairPlan = RepairPlan(storage: bool, elements: bool, chart: bool, failed: bool)

  /** The checks of phase 6, in order, on the results of phases 1-5. */
  function PlanOf(res: Results): RepairPlan {
    if res.storage.Some? && res.storage.value.Threw? then RepairPlan(false, false, false, true)
    else
      var st := res.storage.Some? && |res.storage.value.value.errors| > 0;
      if res.dom.Some? && res.dom.value.Threw? then RepairPlan(st, false, false, true)
      else
        var el := res.dom.Some? && |res.dom.value.value.missing| > 0 && |res.dom.value.value.criticalMissing| > 0;
        var ch := res.chartJS.None? || !res.chartJS.value.available;
        RepairPlan(st, el, ch, false)
  }

  /** Whether phase 6 logs "No repairs needed". */
  predicate NoRepairsNeeded(p: RepairPlan) {
    !p.failed && !p.storage && !p.elements && !p.chart
  }

  /**
   * On coherent results the repairs attempted are the report's own rules: storage is
   * repaired exactly when the report recommends it, elements are created exactly when
   * critical ids are missing, and the Chart.js stub is installed exactly when Chart.js
   * was not found or not tested.
   */
  lemma PlanMatchesReport(res: Results)
    requires Coherent(res)
    ensures !PlanOf(res).failed
    ensures PlanOf(res).storage <==> Reporter.StorageBroken(res)
    ensures PlanOf(res).elements <==> Reporter.DomCritical(res)
    ensures PlanOf(res).chart <==> res.chartJS.None? || Reporter.ChartMissing(res)
    ensures NoRepairsNeeded(PlanOf(res)) <==>
      !Reporter.StorageBroken(res) && !Reporter.DomCritical(res) && res.chartJS.Some? && res.chartJS.value.available
  {
  }

  /** A stored storage error stops phase 6 before any repair; a DOM one after the storage repair. */
  lemma PlanOnErrors(res: Results)
    ensures res.storage.Some? && res.storage.value.Threw? ==> PlanOf(res) == RepairPlan(false, false, false, true)
    ensures res.dom.Some? && res.dom.value.Threw? ==> PlanOf(res).failed && !PlanOf(res).elements && !PlanOf(res).chart
    ensures PlanOf(res).failed <==>
      (res.storage.Some? && res.storage.value.Threw?) || (res.dom.Some? && res.dom.value.Threw?)
  {
  }

  // ------------------------------------------------------------------ summary

  datatype Phase = ModulesPhase | DomPhase | StoragePhase

  /** A line of `displaySummary`, by what it reports rather than by its text. */
  datatype SummaryLine = PhaseLine(phase: Phase, verdict: Verdict) | ChartLine(available: bool) | ErrorsLine(count: nat)

  /** Reading `.length` of a field an errored slot lacks. */
  const ReadError: string := "TypeError: Cannot read properties of undefined (reading 'length')"

  /** The modules line; an errored slot has no `failed` and no `criticalFailed`, so it warns. */
  function ModulesLine(slot: Slot<ModuleProbe.ModulesResults>): SummaryLine {
    match slot
    case Done(m) => PhaseLine(ModulesPhase, Classify(m.failed, m.criticalFailed))
    case Threw(_) => PhaseLine(ModulesPhase, Warnings)
  }

  /**
   * `displaySummary`: a line per stored phase result, the Chart.js line when it was
   * tested, and always the captured-errors line. A DOM or storage slot holding an error
   * makes it read `.length` of undefined, which throws.
   */
  function DisplaySummary(res: Results, errors: seq<CapturedError>): Result<seq<SummaryLine>> {
    var ms: seq<SummaryLine> := if res.modules.Some? then [ModulesLine(res.modules.value)] else [];
    if res.dom.Some? && res.dom.value.Threw? then Err(ReadError)
    else
      var ds: seq<SummaryLine> := if res.dom.Some?
        then [PhaseLine(DomPhase, Classify(res.dom.value.value.failed, |res.dom.value.value.criticalMissing|))] else [];
      if res.storage.Some? && res.storage.value.Threw? then Err(ReadError)
      else
        var ss: seq<SummaryLine> := if res.storage.Some?
          then [PhaseLine(StoragePhase, Classify(res.storage.value.value.failed, |res.storage.value.value.errors|))] else [];
        var cs: seq<SummaryLine> := if res.chartJS.Some? then [ChartLine(res.chartJS.value.available)] else [];
        Ok(ms + ds + ss + cs + [ErrorsLine(|errors|)])
  }

  /**
   * On coherent results the console summary never throws and flags as critical exactly
   * what the report's banner counts as critical: a module critically failed, a critical
   * id missing, a storage error.
   */
  lemma SummaryMatchesReport(res: Results, errors: seq<CapturedError>)
    requires Coherent(res)
    ensures DisplaySummary(res, errors).Ok?
    ensures PhaseLine(ModulesPhase, Critical) in DisplaySummary(res, errors).value <==> Reporter.ModulesCritical(res)
    ensures PhaseLine(DomPhase, Critical) in DisplaySummary(res, errors).value <==> Reporter.DomCritical(res)
    ensures PhaseLine(StoragePhase, Critical) in DisplaySummary(res, errors).value <==> Reporter.StorageBroken(res)
    ensures ChartLine(false) in DisplaySummary(res, errors).value <==> Reporter.ChartMissing(res)
    ensures ErrorsLine(|errors|) in DisplaySummary(res, errors).value
  {
    var lines := DisplaySummary(res, errors).value;
    var ms: seq<SummaryLine> := if res.modules.Some? then [ModulesLine(res.modules.value)] else [];
    var ds: seq<SummaryLine> := if res.dom.Some?
      then [PhaseLine(DomPhase, Classify(res.dom.value.value.failed, |res.dom.value.value.criticalMissing|))] else [];
    var ss: seq<SummaryLine> := if res.storage.Some?
      then [PhaseLine(StoragePhase, Classify(res.storage.value.value.failed, |res.storage.value.value.errors|))] else [];
    var cs: seq<SummaryLine> := if res.chartJS.Some? then [ChartLine(res.chartJS.value.available)] else [];
    assert lines == ms + ds + ss + cs + [ErrorsLine(|errors|)];
    assert forall l :: l in lines <==> l in ms || l in ds || l in ss || l in cs || l == ErrorsLine(|errors|);
  }

  // ------------------------------------------------------------------ the testers

  /**
   * The tester functions that `loadDebugModules` leaves reachable through
   * `debugState.modules`, each as what it returns on the part of the environment it
   * reads: the module loader, `window.Chart`, the document's elements, the store's items.
   */
  datatype Testers = Testers(
    modules: ModuleProbe.Loader -> ModuleProbe.ModulesResults,
    chart: Option<ChartGlobal> -> ModuleProbe.ChartResult,
    dom: seq<Element> -> DomProbe.DomResults,
    buttons: seq<Element> -> DomProbe.ButtonResults,
    inputs: seq<Element> -> DomProbe.InputResults,
    storage: map<string, string> -> Storage.StorageResults)

  /** The repository's testers, for a store that exists or not and a JSON codec. */
  function SourceTesters(storageAvailable: bool, codec: JsonCodec): Testers {
    Testers(ModuleProbe.ModulesOf, ModuleProbe.TestChartJs, DomProbe.DomOf, DomProbe.ButtonsOf, DomProbe.InputsOf,
      items => Storage.StorageReport(storageAvailable, items, codec.parse))
  }

  /**
   * What the orchestrator relies on of the testers: critical module failures are
   * failures, critical missing ids are missing ids counted as failed, and storage errors
   * are failed keys.
   */
  ghost predicate Sound(t: Testers) {
    && (forall load :: t.modules(load).criticalFailed <= t.modules(load).failed)
    && (forall els :: |t.dom(els).criticalMissing| <= |t.dom(els).missing| == t.dom(els).failed)
    && (forall items :: |t.storage(items).errors| <= t.storage(items).failed)
  }

  /** The repository's testers keep those promises. */
  lemma SourceTestersSound(storageAvailable: bool, codec: JsonCodec)
    ensures Sound(SourceTesters(storageAvailable, codec))
  {
    var t := SourceTesters(storageAvailable, codec);
    forall load: ModuleProbe.Loader ensures t.modules(load).criticalFailed <= t.modules(load).failed {
      ModuleProbe.ScanModulesMeaning(|ModuleTable.ModulesToTest|, ModuleTable.ModulesToTest, load);
    }
    forall els: seq<Element> ensures |t.dom(els).criticalMissing| <= |t.dom(els).missing| == t.dom(els).failed {
      DomProbe.ScanMeaning(|DomIds.IdsToTest|, els, DomIds.IdsToTest);
    }
    forall items: map<string, string> ensures |t.storage(items).errors| <= t.storage(items).failed {
      Storage.StorageReportCounts(storageAvailable, items, codec.parse);
    }
  }

  // ------------------------------------------------------------------ the orchestrator

  /**
   * `debugState` with the module handles, and the environment it runs in: the store,
   * the document, the window, the overlay, and as oracles which imports succeed, the
   * application-module loader, whether `localStorage` exists, the JSON codec and the
   * repair timestamp.
   */
  class Debug {
    const ls: LocalStorage
    const doc: Document
    const w: Window
    const ui: DebugUi.Ui
    const imports: set<Tester>
    const load: ModuleProbe.Loader
    const storageAvailable: bool
    const codec: JsonCodec
    const now: string
    /** The tester functions, reached through the handles in `loaded`. */
    const testers: Testers

    var initialized: bool
    var active: bool
    /** The handles set by `loadDebugModules`. */
    var loaded: set<Tester>
    /** `debugState.modules`: for each import attempted, whether it loaded. */
    var statuses: map<Tester, bool>
    var results: Results
    var errors: seq<CapturedError>
    /** The last phase-6 decisions, and what the repairs attempted returned. */
    var plan: Option<RepairPlan>
    var storageRepair: Option<Fallbacks.RepairResult>
    var elementsCreated: Option<Fallbacks.CreateResult>
    var chartFallback: Option<Fallbacks.ChartFallbackResult>

    constructor (ls: LocalStorage, doc: Document, w: Window, ui: DebugUi.Ui, imports: set<Tester>,
                 load: ModuleProbe.Loader, storageAvailable: bool, codec: JsonCodec, now: string)
      requires ui.ls == ls && ui.Valid()
      ensures Valid()
      ensures this.ls == ls && this.doc == doc && this.w == w && this.ui == ui && this.imports == imports
      ensures this.load == load && this.storageAvailable == storageAvailable && this.codec == codec && this.now == now
      ensures testers == SourceTesters(storageAvailable, codec)
      ensures !initialized && !active && loaded == {} && statuses == map[] && results == Empty && errors == []
      ensures plan.None? && storageRepair.None? && elementsCreated.None? && chartFallback.None?
    {
      this.ls := ls;
      this.doc := doc;
      this.w := w;
      this.ui := ui;
      this.imports := imports;
      this.load := load;
      this.storageAvailable := storageAvailable;
      this.codec := codec;
      this.now := now;
      testers := SourceTesters(storageAvailable, codec);
      initialized := false;
      active := false;
      loaded := {};
      statuses := map[];
      results := Empty;
      errors := [];
      plan := None;
      storageRepair := None;
      elementsCreated := None;
      chartFallback := None;
      SourceTestersSound(storageAvailable, codec);
    }

    /**
     * The results are coherent, the testers keep their promises, the overlay shares the
     * store, and its gesture is sound.
     */
    ghost predicate Valid()
      reads this, ui
    {
      Coherent(results) && Sound(testers) && ui.ls == ls && ui.Valid()
    }

    /**
     * `loadDebugModules`: false exactly when the logger fails to load, which records only
     * its own failure; otherwise every import is attempted and recorded.
     */
    method LoadDebugModules() returns (ok: bool)
      modifies this`loaded, this`statuses
      ensures ok <==> LoggerModule in imports
      ensures ok ==> loaded == LoadedBy(imports) && statuses == map t: Tester | true :: t in imports
      ensures !ok ==> loaded == old(loaded) && statuses == old(statuses)[LoggerModule := false]
    {
      if LoggerModule !in imports {
        statuses := statuses[LoggerModule := false];
        return false;
      }
      loaded := imports;
      statuses := map t: Tester | true :: t in imports;
      ok := true;
    }

    /**
     * The results phases 1-5 store when the testers in `testers` run on the current
     * document and window, were the store to hold `items`.
     */
    function TestedOn(res: Results, ts: set<Tester>, items: map<string, string>): Results
      reads doc, w
    {
      Tested(res, ts, testers.modules(load), testers.chart(w.chart), testers.dom(doc.elements),
        testers.buttons(doc.elements), testers.inputs(doc.elements), testers.storage(items))
    }

    /** Phases 1-5 of `runAllTests`; phases 4 and 5 only record that they ran. */
    method RunTests()
      requires Coherent(results) && Sound(testers)
      modifies this`results
      ensures results == TestedOn(old(results), loaded, ls.items)
      ensures Coherent(results)
    {
      if ModulesTester in loaded {
        var m := testers.modules(load);
        var c := testers.chart(w.chart);
        results := results.(modules := Some(Done(m)), chartJS := Some(c));
      }
      if DomTester in loaded {
        var d := testers.dom(doc.elements);
        var b := testers.buttons(doc.elements);
        var i := testers.inputs(doc.elements);
        results := results.(dom := Some(Done(d)), buttons := Some(b), inputs := Some(i));
      }
      if StorageTester in loaded {
        var s := testers.storage(ls.items);
        results := results.(storage := Some(Done(s)));
      }
      LateKeepsCoherent(results, loaded);
      results := AfterLate(results, loaded);
    }

    /**
     * `runAllTests`: nothing without the logger; otherwise phases 1-5 for the loaded
     * testers, phase 6 when the fallbacks are loaded, and the summary.
     */
    method RunAllTests() returns (summary: Option<Result<seq<SummaryLine>>>)
      requires Valid()
      modifies this, ls, doc, w
      ensures Valid()
      ensures LoggerModule !in loaded ==> summary.None? && results == old(results) && plan == old(plan)
      ensures LoggerModule !in loaded || FallbacksModule !in loaded ==>
        ls.items == old(ls.items) && doc.elements == old(doc.elements) && w.chart == old(w.chart)
      ensures LoggerModule in loaded ==> results == old(TestedOn(results, loaded, ls.items))
      ensures LoggerModule in loaded ==> summary == Some(DisplaySummary(results, errors)) && summary.value.Ok?
      ensures LoggerModule in loaded && FallbacksModule in loaded ==> plan == Some(PlanOf(results))
      ensures LoggerModule in loaded && FallbacksModule !in loaded ==> plan == old(plan)
      ensures loaded == old(loaded) && active == old(active) && initialized == old(initialized) && errors == old(errors)
    {
      if LoggerModule !in loaded {
        return None;
      }
      RunTests();
      if FallbacksModule in loaded {
        RunFallbacks();
      }
      SummaryMatchesReport(results, errors);
      summary := Some(DisplaySummary(results, errors));
    }

    /**
     * Phase 6: the storage repair when storage reported errors, the placeholders for the
     * critical missing ids, the Chart.js stub when it was not found or not tested.
     */
    method RunFallbacks()
      requires Valid()
      modifies this`plan, this`storageRepair, this`elementsCreated, this`chartFallback, ls, doc, w
      ensures Valid()
      ensures plan == Some(PlanOf(results))
      ensures PlanOf(results).storage ==>
        storageRepair.Some? &&
        Fallbacks.Repair(ls.items, storageRepair.value) == Fallbacks.RepairSpec(storageAvailable, old(ls.items), codec, ls.fits, now)
      ensures !PlanOf(results).storage ==> storageRepair == old(storageRepair) && ls.items == old(ls.items)
      ensures PlanOf(results).elements ==>
        elementsCreated.Some? && doc.elements == old(doc.elements) + (if doc.hasBody then Fallbacks.Placeholders(results.dom.value.value.criticalMissing) else [])
      ensures !PlanOf(results).elements ==> elementsCreated == old(elementsCreated) && doc.elements == old(doc.elements)
      ensures PlanOf(results).chart ==>
        chartFallback.Some? && w.chart == (if old(w.chart).Some? then old(w.chart) else Some(Fallbacks.ChartStub))
      ensures !PlanOf(results).chart ==> chartFallback == old(chartFallback) && w.chart == old(w.chart)
    {
      var p := PlanOf(results);
      PlanMatchesReport(results);
      if p.storage {
        var r := Fallbacks.RepairLocalStorage(storageAvailable, ls, codec, now);
        storageRepair := Some(r);
      }
      if p.elements {
        var r := Fallbacks.CreateMissingElements(doc, Some(results.dom.value.value.criticalMissing));
        elementsCreated := Some(r);
      }
      if p.chart {
        var r := Fallbacks.CreateChartFallback(w);
        chartFallback := Some(r);
      }
      plan := Some(p);
    }

    /**
     * `activateDebug`: once active, nothing; otherwise it becomes active, stores
     * `SA_DEBUG` = 'true', sets up and shows the overlay when the UI is loaded, and runs
     * the tests on the store as just written.
     */
    method ActivateDebug()
      requires Valid()
      modifies this, ls, doc, w, ui
      ensures Valid()
      ensures old(active) ==> results == old(results) && ls.items == old(ls.items) && ui.visible == old(ui.visible)
      ensures active && loaded == old(loaded) && initialized == old(initialized)
      ensures !old(active) && LoggerModule in loaded ==>
        results == old(TestedOn(results, loaded, ls.items[DebugUi.FlagKey := "true"]))
      ensures !old(active) && UiModule in loaded && ui.overlay ==> ui.visible
      ensures !old(active) && (LoggerModule !in loaded || FallbacksModule !in loaded) ==>
        ls.items == old(ls.items)[DebugUi.FlagKey := "true"]
    {
      if active {
        return;
      }
      active := true;
      ls.items := ls.items[DebugUi.FlagKey := "true"];
      ghost var written := ls.items;
      ghost var before := TestedOn(results, loaded, written);
      if UiModule in loaded {
        var _ := ui.InitUi();
        assert ls.items == written;
        ui.Show();
        assert ls.items == written;
      }
      assert TestedOn(results, loaded, ls.items) == before;
      var _ := RunAllTests();
    }

    /** `deactivateDebug`: once inactive, nothing; otherwise 'false' is stored and the overlay hidden. */
    method DeactivateDebug()
      requires Valid()
      modifies this`active, ls, ui
      ensures Valid()
      ensures !active
      ensures !old(active) ==> ls.items == old(ls.items) && ui.visible == old(ui.visible)
      ensures old(active) ==> ls.items == old(ls.items)[DebugUi.FlagKey := "false"]
      ensures old(active) && UiModule in loaded && ui.overlay ==> !ui.visible
      ensures old(active) && (UiModule !in loaded || !ui.overlay) ==> ui.visible == old(ui.visible)
    {
      if !active {
        return;
      }
      active := false;
      ls.items := ls.items[DebugUi.FlagKey := "false"];
      if UiModule in loaded {
        ui.Hide();
      }
    }

    /** `toggleDebug`: deactivates when active, activates otherwise. */
    method ToggleDebug()
      requires Valid()
      modifies this, ls, doc, w, ui
      ensures Valid()
      ensures active == !old(active)
      ensures old(active) ==> ls.items == old(ls.items)[DebugUi.FlagKey := "false"]
    {
      if active {
        DeactivateDebug();
      } else {
        ActivateDebug();
      }
    }

    /**
     * `init`: runs once. When the logger fails to load it stops, still uninitialised;
     * otherwise it sets up the overlay, reactivates when `SA_DEBUG` was 'true', and is
     * initialised.
     */
    method Init()
      requires Valid()
      modifies this, ls, doc, w, ui
      ensures Valid()
      ensures old(initialized) ==> initialized && results == old(results) && active == old(active) && ls.items == old(ls.items)
      ensures !old(initialized) ==> (initialized <==> LoggerModule in imports)
      ensures !old(initialized) && LoggerModule !in imports ==>
        results == old(results) && active == old(active) && ls.items == old(ls.items)
      ensures !old(initialized) && LoggerModule in imports ==> loaded == LoadedBy(imports)
      ensures !old(initialized) && LoggerModule in imports ==>
        (active <==> old(active) || old(ls.Stored(DebugUi.FlagKey)) == Some("true"))
    {
      if initialized {
        return;
      }
      var ok := LoadDebugModules();
      if !ok {
        return;
      }
      if UiModule in loaded {
        var _ := ui.InitUi();
      }
      var saved := ls.GetItem(DebugUi.FlagKey);
      if saved == Some("true") {
        ActivateDebug();
      }
      initialized := true;
    }
  }

  /**
   * The start-up of `init` as written, when `SA_DEBUG` was 'true': `init` calls `initUI`,
   * then `activateDebug` calls it again, and the header ends with two tap handlers.
   */
  method SavedStartupAsWritten(ui: DebugUi.Ui)
    requires ui.listeners == 0 && ui.headerPresent
    modifies ui, ui.ls
    ensures ui.listeners == 2
  {
    var _ := ui.InitUiAsWritten();
    var _ := ui.InitUiAsWritten();
  }
}
