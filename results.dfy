/**
 * `debugState.results` and `debugState.errors` of `debug/debug.js`: what each test phase
 * stored, read back by the orchestrator and by `utils/reporter.js`.
 */
module DebugResults {
  import opened Wrappers
  import ModuleProbe
  import DomProbe
  import Storage

  /** A phase's result: what the tester returned, or `{ error: e.message }` when it threw. */
  datatype Slot<T> = Done(value: T) | Threw(message: string)

  /**
   * An entry of `debugState.errors`; `filename` is "" when the event carries none (an
   * unhandled rejection), which the report treats as absent.
   */
  datatype CapturedError = CapturedError(kind: string, message: string, filename: string, lineno: nat, timestamp: string)

  /**
   * The fields of `debugState.results` the orchestrator and the report read. The events
   * and detailed Chart.js testers are not modelled: only whether they stored a result is.
   */
  datatype Results = Results(
    modules: Option<Slot<ModuleProbe.ModulesResults>>,
    chartJS: Option<ModuleProbe.ChartResult>,
    dom: Option<Slot<DomProbe.DomResults>>,
    buttons: Option<DomProbe.ButtonResults>,
    inputs: Option<DomProbe.InputResults>,
    storage: Option<Slot<Storage.StorageResults>>,
    events: bool,
    chartDetailed: bool)

  /** `results: {}` as `debugState` starts. */
  const Empty: Results := Results(None, None, None, None, None, None, false, false)
}
