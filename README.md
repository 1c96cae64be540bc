# StopAddict debug tool, modelled in Dafny

The StopAddict debug tool is an in-browser diagnostic layer for the StopAddict web
application, together with the Node scripts that keep its configuration lists and its
testers in agreement. This project models its core and proves what each part promises:

- **The orchestrator** (`debug/debug.js`). It loads eight tester modules, but only if the
  logger loads first. It runs six test phases into `debugState.results` and decides which
  repairs to attempt. It prints a console summary and keeps `debugState.active` and the
  `SA_DEBUG` flag in `localStorage` in step with the overlay.
- **The logger** (`debug/debug-logger.js`). It is a class with a bounded history. The
  history is saved to `localStorage` after every entry. Listeners are notified in order,
  and the statistics are counted per level.
- **The overlay** (`debug/debug-ui.js`). It is created on start-up and can be shown,
  hidden or toggled. Five quick taps on its header toggle it; the tap counter resets
  after 800 ms.
- **The testers**:
  - `debug/debug-modules.js`: the application modules and their exports, and Chart.js.
  - `debug/debug-dom.js`: the 103 listed element ids, the critical ones and the buttons
    and inputs.
  - `debug/debug-storage.js`: the stored keys and the validators of their JSON shapes.
- **The repairs** (`debug/debug-fallbacks.js`). They rewrite broken storage keys with
  defaults and are idempotent. They create placeholders for the critical missing ids,
  which the clean-up removes again. They add function stubs and a Chart.js stand-in.
- **The report** (`utils/reporter.js`). This covers the executive summary, the banner
  and the numbered recommendations, and the DOM and errors sections. The text report's
  sections appear in a fixed order.
- **The concordance tools**: `utils/validator.js`, `scripts/validate-ids.js`,
  `scripts/validate-modules.js` and `scripts/check-concordance.js`. They compare
  `config/*.json` with the literals in the testers. Each regular expression they use is
  written out as a scanner with the same matches, and the scanners are proved to read
  back what a literal lists.

**How the model is written.**

- The stateful parts are classes whose methods are proved against functions of the old
  state: the logger, the overlay, the orchestrator's `debugState`, `localStorage`, the
  document and the check script's counters.
- The pure parts are functions with lemmas.
- Collections are sequences kept free of repeats. A JavaScript `Set` or `Map` is modelled
  this way, in insertion order.
- Calls the model cannot see become parameters:
  - the file system of the scripts is a map from relative path to contents;
  - `JSON.parse` and `JSON.stringify` form a codec passed in;
  - the module loader, the clock and the imports that succeed are also passed in.

## Model

| member | source | states |
|---|---|---|
| Logger.Style | debug/debug-logger.js:13-19 | a level has an icon and a colour exactly when it is one of INFO, SUCCESS, WARNING, ERROR, DEBUG |
| Logger.Pad2 | debug/debug-logger.js:182-184 | the padded field is all digits; below 100 it is exactly two digits that read back as the number |
| Logger.FormatTime | debug/debug-logger.js:181-186 | the time is eight characters, colons at positions 2 and 5, and the three two-character fields are the padded hours, minutes and seconds |
| Logger.FormatTimeFields | debug/debug-logger.js:181-186 | for a clock reading (h < 24, m < 60, s < 60) each field of the formatted time reads back as h, m and s |
| Logger.NewEntry | debug/debug-logger.js:60-69 | the entry keeps message, level and data, takes the ISO timestamp and formatted time of the clock, and uses the level's icon and colour, or the default ones for an unknown level |
| Logger.FormatLog | debug/debug-logger.js:188-190 | defined by its body; meaning in Logger.FormatLogShape |
| Logger.FormatLogShape | debug/debug-logger.js:188-190 | a formatted line starts with the time in brackets and ends with the message, with the icon between them |
| Logger.LastN | debug/debug-logger.js:144 | `slice(-n)` keeps min(n, length) elements, and they are the last ones |
| Logger.Appended | debug/debug-logger.js:72-77 | defined by its body (push, then one shift past 50); meaning in Logger.AppendedKeepsNewest |
| Logger.AppendedKeepsNewest | debug/debug-logger.js:72-77 | after push-then-shift the new entry is last, the history stays within 50 entries and equals the last 50 of old history plus the entry; below the cap nothing is dropped, at the cap only the oldest is |
| Logger.Deliveries | debug/debug-logger.js:168-176 | each listener is called once with the entry, in registration order, whether or not an earlier one throws |
| Logger.CountLevel | debug/debug-logger.js:212-231 | the count never exceeds the history length; meaning in Logger.KnownCountBound and Logger.Logger.GetStats |
| Logger.KnownCountBound | debug/debug-logger.js:224-228 | the five level counters add up to at most the total, and to exactly the total iff every entry has a known level |
| Logger.Logger.constructor | debug/debug-logger.js:27-29 | the logger starts with an empty history, no listeners and not initialized |
| Logger.Logger.SavedHistory | debug/debug-logger.js:138-152 | saving leaves the history as it is or cuts it to its last 10 entries, and cuts it whenever the first write does not fit |
| Logger.Logger.SavedItems | debug/debug-logger.js:138-152 | saving leaves the store as it was (both writes refused) or puts under SA_DEBUG_HISTORY the encoding of the history kept |
| Logger.Logger.GetHistory | debug/debug-logger.js:122-124 | the copy returned equals the history |
| Logger.Logger.SaveHistory | debug/debug-logger.js:138-152 | the new history and the new store contents are those of SavedHistory and SavedItems |
| Logger.Logger.Invoke | debug/debug-logger.js:169-175 | calling a listener records the call, thrown exception or not |
| Logger.Logger.NotifyListeners | debug/debug-logger.js:168-176 | the calls made are exactly Deliveries of the registered listeners |
| Logger.Logger.Log | debug/debug-logger.js:58-94 | the returned entry is NewEntry; the history is the capped append, then saved; every listener is notified; listeners and initialization are unchanged |
| Logger.Logger.ClearHistory | debug/debug-logger.js:126-136 | afterwards the history holds only the "History cleared" entry, the stored copy is removed and then rewritten as by `saveHistory` of that one-entry history, every listener receives the entry in order, the listeners and the initialized flag are kept, and the call reports success |
| Logger.Logger.InitLogger | debug/debug-logger.js:34-53 | a second call changes nothing; a stored history that does not parse leaves the logger uninitialized and untouched; otherwise the stored (or current) history is adopted, "Logger initialized" is logged onto it and saved, and every listener receives that entry in order |
| Logger.Logger.AddListener | debug/debug-logger.js:157-162 | a function is appended and its unsubscribe handle returned; anything else is ignored and nothing is returned |
| Logger.Logger.RemoveListener | debug/debug-logger.js:164-166 | every occurrence of the callback is gone and every other listener stays, in order |
| Logger.Logger.GetStats | debug/debug-logger.js:212-231 | the total is the history length, each counter is the number of entries of its level, and the counters never exceed the total |
| Logger.SavedKeepsNewest | debug/debug-logger.js:72-80 | even when the quota forces the cut to 10 entries, the entry just logged is kept, last, and the history stays within the cap |
| Storage.DayCheck | debug/debug-storage.js:198-213 | one day passes iff its key has the YYYY-MM-DD shape and its value is a truthy object holding cigs, weed and alcohol |
| Storage.ValidateDailyData | debug/debug-storage.js:189-216 | null throws (Object.keys of null); a non-object is "Must be an object"; an object is valid iff every key passes the day check, and then the day count is its number of keys |
| Storage.ValidateSettings | debug/debug-storage.js:218-228 | null throws; the settings are valid iff it is an object whose modules and prices are truthy objects; the first one that is not gives its message |
| Storage.NumberCheck | debug/debug-storage.js:236-240 | an entry passes iff its value is a number |
| Storage.ValidateLimits | debug/debug-storage.js:230-243 | null throws; a non-object is "Must be an object"; an object is valid iff every value is a number, and otherwise the message names one of its keys |
| Storage.ValidateEconomy | debug/debug-storage.js:245-255 | the `in` operator throws unless the value is an object or array; it is valid iff `enabled` is present and boolean; absent gives "Missing \"enabled\" field" |
| Storage.FieldCheck | debug/debug-storage.js:260-264 | a required field passes iff the `in` test finds it |
| Storage.ValidateWarn | debug/debug-storage.js:257-271 | the `in` operator throws on a primitive; the value is valid iff accepted, hide and timestamp are present and accepted and hide are booleans; with all three present the only failure is "accepted/hide must be booleans" |
| Storage.ValidateKeyContent | debug/debug-storage.js:167-187 | a key other than the five known ones is always valid |
| Storage.TestKey | debug/debug-storage.js:103-162 | a missing key is "Key not found" with nothing else set; a present key records its size; a parse failure is "Invalid JSON: " plus the parser's message; the key is valid iff it carries no error |
| Storage.TestKeyValidIff | debug/debug-storage.js:103-162 | a key passes iff it is stored, parses, has the expected type and passes its validator |
| Storage.ArrayFailsTypeTest | debug/debug-storage.js:130-136 | a stored array fails every expected key with "Wrong type (expected object, got array)" |
| Storage.NullReportedAsInvalidJson | debug/debug-storage.js:125-154 | a stored `null` passes the type test, makes the validator throw, and is reported as "Invalid JSON: ..." although it parsed |
| Storage.RecordStep | debug/debug-storage.js:51-79 | one key adds one to tested and one to passed or failed; a failure adds one message, to errors if the key is critical, to warnings if not |
| Storage.Tally | debug/debug-storage.js:50-80 | defined by its body (one `testKey` record per key, in order); meaning in Storage.TallyAccounts |
| Storage.TallyAccounts | debug/debug-storage.js:50-80 | after the loop tested is the number of keys, passed + failed = tested, errors are the messages of the failing critical keys and warnings those of the failing optional keys, in order |
| Storage.StorageReport | debug/debug-storage.js:15-98 | defined by its body; meaning in Storage.StorageReportCounts and Storage.MissingCriticalReported |
| Storage.StorageReportCounts | debug/debug-storage.js:26-98 | with a store five keys are tested and each is passed or failed, with one message per failure; without one nothing is tested |
| Storage.MissingCriticalReported | debug/debug-storage.js:70-74 | a missing critical key puts "<key>: Missing (CRITICAL)" into errors |
| Storage.TestLocalStorage | debug/debug-storage.js:26-98 | the method's result is StorageReport: empty when the store is absent, otherwise the tally of the five expected keys |
| Storage.TestKeys | debug/debug-storage.js:50-80 | the loop's result is the tally of the keys visited |
| Fallbacks.DefaultValue | debug/debug-fallbacks.js:92-118 | every default is an object, and a key other than the five is given `{}` |
| Fallbacks.SettingsDefaultValid | debug/debug-fallbacks.js:95-98 | the settings default passes the settings validator |
| Fallbacks.LimitsDefaultValid | debug/debug-fallbacks.js:99-105 | the limits default passes the limits validator |
| Fallbacks.EconomyDefaultValid | debug/debug-fallbacks.js:106-109 | the economy default passes the economy validator |
| Fallbacks.WarnDefaultValid | debug/debug-fallbacks.js:110-114 | the warning default passes the warning validator, whatever the clock reads |
| Fallbacks.DefaultsPass | debug/debug-fallbacks.js:92-118 | for each expected key the default has the expected type and passes that key's content check |
| Fallbacks.DefaultPassesTest | debug/debug-fallbacks.js:50-52 | a key rewritten with its default then passes the storage probe's `testKey`, given a codec that reads the default back |
| Fallbacks.RewriteFrame | debug/debug-fallbacks.js:51-53 | a write touches only its own key and reports only that key, as repaired or failed |
| Fallbacks.StepFrame | debug/debug-fallbacks.js:45-71 | one iteration writes at most its own key and reports at most its own key |
| Fallbacks.RunFrame | debug/debug-fallbacks.js:44-72 | the loop writes only visited keys, reports only visited keys, and records one error per failed key |
| Fallbacks.StepOnKey | debug/debug-fallbacks.js:45-71 | the iteration on a key settles it: left alone if it parsed, otherwise rewritten with its default and marked repaired, or left unchanged and marked failed when the write does not fit |
| Fallbacks.StepOffKey | debug/debug-fallbacks.js:44-72 | an iteration on another key keeps that outcome |
| Fallbacks.RunKey | debug/debug-fallbacks.js:44-72 | after the loop every visited key has its outcome, given distinct keys |
| Fallbacks.RepairKeysDistinct | debug/debug-fallbacks.js:36-42 | the five keys to check are distinct |
| Fallbacks.RepairRun | debug/debug-fallbacks.js:44-72 | defined by its body (one repair step per key, in order); meaning in Fallbacks.RunKey and Fallbacks.RunFrame |
| Fallbacks.RepairSpec | debug/debug-fallbacks.js:15-87 | defined by its body; meaning in Fallbacks.RepairPerKey, Fallbacks.RepairFrame and Fallbacks.RepairIdempotent |
| Fallbacks.RepairPerKey | debug/debug-fallbacks.js:15-87 | for each of the five keys, the repair pass gives that key its outcome: a parsing value is kept even when its content is invalid; a missing or unparsable one is rewritten and repaired, or failed |
| Fallbacks.RepairFrame | debug/debug-fallbacks.js:36-72 | no other storage key is touched |
| Fallbacks.RunNothingToDo | debug/debug-fallbacks.js:56-58 | when every key parses, the pass changes nothing and reports nothing |
| Fallbacks.RepairIdempotent | debug/debug-fallbacks.js:15-87 | after a pass where no write failed, a second pass repairs nothing and leaves the store as it is |
| Fallbacks.RepairLocalStorage | debug/debug-fallbacks.js:15-87 | the store and the result are those of the repair specification; with no store nothing is written and "localStorage not available" is reported |
| Fallbacks.RepairAll | debug/debug-fallbacks.js:44-72 | the loop's store and result are those of the run over the keys visited |
| Fallbacks.Placeholder | debug/debug-fallbacks.js:140-144 | a placeholder carries the missing id, is tagged as a fallback and is hidden |
| Fallbacks.Placeholders | debug/debug-fallbacks.js:137-156 | one placeholder per id, in order |
| Fallbacks.NoBodyErrors | debug/debug-fallbacks.js:151-154 | with no body, each id gets one error naming it |
| Fallbacks.CreateMissingElements | debug/debug-fallbacks.js:123-163 | a value that is not an array, or an empty list, changes nothing; otherwise each id's placeholder is appended to the document in order and listed as created, or, with no body, every id fails and the document is unchanged |
| Fallbacks.PlaceholdersFound | debug/debug-fallbacks.js:137-149 | once the placeholders are in, `getElementById` finds every non-empty id they carry |
| Fallbacks.Unmarked | debug/debug-fallbacks.js:261-269 | what is left after removing tagged elements contains no tagged element |
| Fallbacks.UnmarkedWithin | debug/debug-fallbacks.js:261-269 | cleanup only removes: every element left was in the document |
| Fallbacks.MarkedCount | debug/debug-fallbacks.js:262-266 | the removed count plus the elements left is the document's size |
| Fallbacks.UnmarkedAppend | debug/debug-fallbacks.js:261-269 | cleaning a document in two parts gives the two cleaned parts, concatenated |
| Fallbacks.CleanupUndoesCreate | debug/debug-fallbacks.js:251-281 | cleanup undoes element creation: on a document with no tagged elements, removing the tagged elements after placeholders were added gives back the document as it was |
| Fallbacks.CleanupStep | debug/debug-fallbacks.js:262-269 | one visit of the loop removes the visited element if tagged and keeps it otherwise |
| Fallbacks.CleanupFallbacks | debug/debug-fallbacks.js:251-281 | exactly the tagged elements are removed, the rest keep their order, and the count is the number of tagged elements |
| Fallbacks.ReadOnlyErrors | debug/debug-fallbacks.js:192-196 | one error per name, naming it |
| Fallbacks.StubbedMeaning | debug/debug-fallbacks.js:182-191 | after stubbing, every named property holds its stub (overwriting what was there), the others are kept, and no other property appears |
| Fallbacks.CreateFunctionStubs | debug/debug-fallbacks.js:168-204 | a missing module or an empty or non-array list does nothing; a writable module gets a stub for each name and all are created; a read-only namespace keeps its properties and every name fails |
| Fallbacks.CreateChartFallback | debug/debug-fallbacks.js:209-246 | a defined `window.Chart` is left as it is and nothing is created; otherwise the stub with version "stub" is installed and created is true |
| ModuleTable.CriticalCountConcat | debug/debug-modules.js:15-81 | the critical entries of two tables put together are those of each |
| ModuleTable.TableShape | debug/debug-modules.js:15-81 | the table holds 11 modules, 5 of them critical, and app.js alone declares no exports |
| ModuleProbe.KeptDroppedCount | debug/debug-modules.js:171-178 | every declared export lands in found or in missing, exactly once: the two lists together are a permutation of the declarations |
| ModuleProbe.KeptDroppedIff | debug/debug-modules.js:171-178 | found holds exactly the declared exports the module defines, missing exactly those it does not |
| ModuleProbe.Outcome | debug/debug-modules.js:132-145 | a module's result carries its name, path and criticality |
| ModuleProbe.OutcomeMeaning | debug/debug-modules.js:132-195 | a module is loaded iff its import succeeds; a failed import gives one "Import failed: " error and nothing else; a loaded module has no errors, its found and missing exports are its defined and undefined declarations, and it is valid iff every declaration is defined (so one declaring none is valid) |
| ModuleProbe.TestModule | debug/debug-modules.js:132-195 | the import and the loop over declared exports compute Outcome |
| ModuleProbe.Failures | debug/debug-modules.js:104-111 | no more entries fail than were tested |
| ModuleProbe.ScanModulesMeaning | debug/debug-modules.js:99-112 | every entry is tested once and passes or fails; failed counts the failing entries and criticalFailed the failing critical ones, so it never exceeds failed |
| ModuleProbe.ScanModulesKeys | debug/debug-modules.js:102 | the results are keyed by exactly the names of the entries visited |
| ModuleProbe.ModuleRecorded | debug/debug-modules.js:101-102 | with distinct names, the result stored under an entry's name is that entry's own outcome |
| ModuleProbe.ProbeModules | debug/debug-modules.js:99-112 | the loop's result is the scan of the entries |
| ModuleProbe.TestModules | debug/debug-modules.js:86-127 | the probe tests all 11 modules, each passes or fails, and failed and criticalFailed are the counts of failing and failing critical entries |
| ModuleProbe.TestChartJs | debug/debug-modules.js:272-297 | Chart.js is available iff `window.Chart` is defined; then the version is its own or "unknown" when absent or empty; otherwise the error is "window.Chart is undefined" |
| DomIds.CriticalListed | debug/debug-dom.js:15-93 | the id list as written holds 103 ids and the critical list 20, and every critical id is in the id list |
| DomIds.ProbeListsListed | debug/debug-dom.js:152-154 | the six counter buttons are critical ids and the six inputs are listed ids |
| DomProbe.Absent | debug/debug-dom.js:123-125 | no more ids are missing than were listed |
| DomProbe.OnlyCritical | debug/debug-dom.js:127-128 | the critical missing ids are a sub-list of the missing ones |
| DomProbe.VisitMeaning | debug/debug-dom.js:111-134 | one visit tests one more id, which goes to found or to missing and never both, and to criticalMissing only when it is critical |
| DomProbe.ScanMeaning | debug/debug-dom.js:111-134 | after the loop every id is tested, passed + failed = tested, missing lists the absent ids in order, found has one record per present id, and criticalMissing is the critical part of missing |
| DomProbe.ProbeIds | debug/debug-dom.js:111-134 | the loop's result is the scan of the id list |
| DomProbe.TestDom | debug/debug-dom.js:98-146 | the probe tests all 103 ids; missing is exactly the absent ids in list order, found one record per present id, and criticalMissing the critical part of missing |
| DomProbe.AbsentIff | debug/debug-dom.js:113-125 | an id is reported missing iff it is listed and the document does not hold it |
| DomProbe.RecordsFound | debug/debug-dom.js:115-122 | found and missing together account for every listed id, and each record describes the element `getElementById` returns for a listed id |
| DomProbe.OnlyCriticalIff | debug/debug-dom.js:127-128 | criticalMissing is exactly the critical ids among the missing ones |
| DomProbe.CriticalMissingIff | debug/debug-dom.js:111-134 | a critical id is reported missing iff the document lacks it |
| DomProbe.DomVerdictIff | debug/debug-dom.js:137-143 | the closing line is success iff every listed id is present, and an error iff some critical id is absent |
| DomProbe.PresentIds | debug/debug-dom.js:162-174 | the ids found and the ids missing together count every id |
| DomProbe.PresentIff | debug/debug-dom.js:162-174 | an id is found iff it is in the list and the document holds it |
| DomProbe.NotFoundAll | debug/debug-dom.js:165-167 | each id not found gets one record with the reason "Not found" |
| DomProbe.ScanButtonsMeaning | debug/debug-dom.js:162-179 | the buttons found are the working ones, in order, and the others are broken with the reason "Not found" (the listener check always answers yes) |
| DomProbe.ProbeButtons | debug/debug-dom.js:162-179 | the loop's result is the scan of the button ids |
| DomProbe.TestButtons | debug/debug-dom.js:151-188 | of the six buttons the working ones are those found and the broken ones those not found, each "Not found" |
| DomProbe.ButtonsIff | debug/debug-dom.js:151-188 | a button is working iff it is found and broken iff it is not, always with the reason "Not found", and each of the six is reported exactly once |
| DomProbe.InputsOf | debug/debug-dom.js:202-211 | found plus missing is the number of inputs, and missing counts the inputs the document lacks |
| DomProbe.TestInputs | debug/debug-dom.js:190-220 | six inputs are counted, each as found or missing, and missing is the number of inputs absent |
| DebugUi.Tap | debug/debug-ui.js:237-255 | defined by its body; meaning in DebugUi.TapSlow, DebugUi.TapQuick and DebugUi.TapBelow |
| DebugUi.TapSlow | debug/debug-ui.js:240-241 | a tap more than 800 ms after the previous one starts a new gesture at one and never toggles |
| DebugUi.TapQuick | debug/debug-ui.js:242-251 | a quick tap counts one more and toggles, resetting the count to zero, exactly when it is the fifth |
| DebugUi.TapBelow | debug/debug-ui.js:240-251 | between taps the count is always below five |
| DebugUi.Click | debug/debug-ui.js:237-255 | defined by its body (each attached handler runs once per click); meaning in DebugUi.ClickQuick and DebugUi.ClickFresh |
| DebugUi.ClickQuick | debug/debug-ui.js:237-255 | within a gesture, running the handler n times adds n to the count modulo five and toggles once per multiple of five passed |
| DebugUi.ClickFresh | debug/debug-ui.js:237-255 | the first click of a gesture, with n handlers attached, counts n taps from zero |
| DebugUi.ToggleCounts | debug/debug-ui.js:237-255 | one toggle count per click |
| DebugUi.BurstAfter | debug/debug-ui.js:237-255 | after a quick burst of clicks, with h handlers attached, the count is h times the number of clicks, modulo five |
| DebugUi.BurstTotal | debug/debug-ui.js:237-255 | a quick burst toggles the overlay once per five taps counted |
| DebugUi.ToggleCountsAt | debug/debug-ui.js:237-255 | the toggles of click i are those of that click on the counter left by the clicks before it |
| DebugUi.SingleListenerTaps | debug/debug-ui.js:16-17 | with one handler attached, a quick burst toggles the overlay on its 5th, 10th, ... click and on no other: the five-tap gesture |
| DebugUi.SingleListenerClick | debug/debug-ui.js:240-251 | with one handler, click i + 1 toggles iff i + 1 is a multiple of five |
| DebugUi.DoubleListenerClick | debug/debug-ui.js:240-251 | with two handlers, each click adds two taps, and click i + 1 toggles iff that carries the count past a multiple of five |
| DebugUi.DoubleListenerTaps | debug/debug-ui.js:229-258 | with the handler attached twice the third quick click already toggles, and five quick clicks toggle twice, leaving the overlay as it was |
| DebugUi.Ui.constructor | debug/debug-ui.js:22-27 | the module starts with no overlay, hidden, a zero tap count and no handlers or subscriptions |
| DebugUi.Ui.CreateOverlay | debug/debug-ui.js:65-70 | when the document already holds the overlay id nothing is created; otherwise the overlay is created; either way the id is in the document and nothing else changes |
| DebugUi.Ui.AttachTapListener | debug/debug-ui.js:229-258 | one more handler is attached when the document has a header or brand element, none otherwise |
| DebugUi.Ui.Show | debug/debug-ui.js:199-208 | with an overlay it becomes visible and SA_DEBUG is set to 'true'; without one nothing changes |
| DebugUi.Ui.Hide | debug/debug-ui.js:210-216 | with an overlay it is hidden and SA_DEBUG is set to 'false'; without one nothing changes |
| DebugUi.Ui.Toggle | debug/debug-ui.js:218-224 | with an overlay, visibility flips and SA_DEBUG records the new state; without one nothing changes |
| DebugUi.Ui.TapHandler | debug/debug-ui.js:237-255 | the counter advances by one tap; when the tap toggles and there is an overlay, visibility flips and the flag is stored; the count stays below five |
| DebugUi.Ui.ClickHeader | debug/debug-ui.js:237-255 | a click runs every attached handler in turn: the counter is that of Click, visibility is flipped once per toggle, and the invariant (count below five, at most one handler) is kept |
| DebugUi.Ui.InitUi | debug/debug-ui.js:32-60 | corrected: the overlay exists afterwards, the tap handler and the log subscription are set up once however often it is called, and the overlay is shown when SA_DEBUG is 'true' |
| DebugUi.Ui.InitUiAsWritten | debug/debug-ui.js:32-60 | as written: every call attaches one more tap handler and subscribes again, so a second call breaks the one-handler invariant |
| DebugUi.Ui.Destroy | debug/debug-ui.js:382-393 | the overlay is removed from the document if it was created, every copy of the log subscription is dropped, and the tap handlers and visibility stay |
| Reporter.ExecutiveSummary | utils/reporter.js:113-146 | defined by its body; meaning in Reporter.SummaryOfAllPhases, Reporter.SummaryIgnoresMissingPhases and Reporter.SummaryAccounts |
| Reporter.SummaryOfAllPhases | utils/reporter.js:113-146 | with the three phases done, the summary's total is the modules total plus the DOM total plus the storage keys tested, passed and failed add up the same way, and the critical failures are the failed critical modules, the missing critical ids and the storage errors |
| Reporter.SummaryIgnoresMissingPhases | utils/reporter.js:116-146 | a phase that did not run, or that threw, adds nothing: with none of them the four counters are zero |
| Reporter.SummaryAccounts | utils/reporter.js:113-146 | when every phase's passed and failed add up to its total, so do the summary's |
| Reporter.Banner | utils/reporter.js:154-160 | the status is "no critical error" iff there are none, "some problems" for one to three, "urgent" for four or more |
| Reporter.BannerMatchesRules | utils/reporter.js:154-160 | the banner reports no critical failure exactly when no module failed critically, no critical id is missing and storage has no error, the conditions of the first three recommendations |
| Reporter.AddIfKeepsOrder | utils/reporter.js:349-372 | pushing a recommendation after those of earlier rules keeps them in rule order and adds one line iff the rule fired |
| Reporter.AddIfMember | utils/reporter.js:349-372 | after the push a recommendation is present iff it was before or it is the one whose rule fired |
| Reporter.AdviceForMember | utils/reporter.js:349-372 | each rule's advice is given exactly when that rule holds |
| Reporter.AdviceForSorted | utils/reporter.js:349-372 | the advice comes in rule order, at most one line per rule, so at most five |
| Reporter.Recommendations | utils/reporter.js:343-372 | defined by its body; meaning in Reporter.RecommendationsMeaning and Reporter.NoRecommendationIff |
| Reporter.RecommendationsMeaning | utils/reporter.js:343-372 | a recommendation is made exactly when its rule fires (a critical module failed, a critical id is missing, storage has errors, Chart.js was tested and is unavailable, errors were captured), in rule order and each at most once |
| Reporter.NoRecommendationIff | utils/reporter.js:374-375 | the "no recommendation" line is written exactly when no rule fires |
| Reporter.NumberedAllAt | utils/reporter.js:377-379 | line k carries recommendation k under the number k + 1 |
| Reporter.NumberRecommendations | utils/reporter.js:377-379 | the loop numbers every recommendation from 1, in order |
| Reporter.GenerateRecommendations | utils/reporter.js:343-383 | the section is the single "no recommendation" line when no rule fires, and otherwise one numbered line per recommendation, in rule order |
| Reporter.Bullets | utils/reporter.js:217-219 | one bullet per id |
| Reporter.BulletsShape | utils/reporter.js:217-219 | bullet k is the line for id k, and every line written is a bullet |
| Reporter.AppendBullets | utils/reporter.js:225-227 | the loop adds the bullets of the ids after the lines already written |
| Reporter.DomSectionOf | utils/reporter.js:207-234 | defined by its body; meaning in Reporter.DomSectionCritical and Reporter.DomSectionMissing |
| Reporter.GenerateDomSection | utils/reporter.js:207-234 | the lines written are the three counters (0 for a phase that threw), then the critical block, then the missing-id block, whose contents DomSectionCritical and DomSectionMissing state |
| Reporter.DomSectionCritical | utils/reporter.js:215-221 | the critical header appears iff some critical id is missing, and every missing critical id is listed |
| Reporter.DomSectionMissing | utils/reporter.js:223-231 | every missing id is listed, under its header, exactly when one to twenty are missing; above twenty only their number is given |
| Reporter.Detailed | utils/reporter.js:322 | only the first ten errors, in order, are detailed |
| Reporter.DetailErrors | utils/reporter.js:322-331 | the loop writes one block per error, numbered from 1 |
| Reporter.ErrorsSectionOf | utils/reporter.js:317-338 | defined by its body; meaning in Reporter.ErrorsSectionHeadings, Reporter.ErrorsSectionDetails and Reporter.ErrorsSectionMore |
| Reporter.GenerateErrorsSection | utils/reporter.js:317-338 | the lines written are the total, one block per detailed error and the left-out count, whose contents the ErrorsSection lemmas state |
| Reporter.CountHeadingsAppend | utils/reporter.js:322-331 | the headings of two runs of lines add up |
| Reporter.ErrorBlockHeadings | utils/reporter.js:323-330 | each error block opens with its own heading and holds no other |
| Reporter.ErrorBlocksHeadings | utils/reporter.js:322-331 | the blocks hold one heading per error |
| Reporter.ErrorBlocksDetail | utils/reporter.js:323-325 | error k is detailed under "Erreur #k+1" with its own message |
| Reporter.ErrorBlocksNoMore | utils/reporter.js:322-331 | no block line is the count of errors left out |
| Reporter.ErrorsSectionHeadings | utils/reporter.js:317-338 | the section holds one heading per detailed error, so at most ten |
| Reporter.ErrorsSectionDetails | utils/reporter.js:322-331 | each of the first ten errors appears under its number with its message |
| Reporter.ErrorsSectionMore | utils/reporter.js:333-335 | the count of errors left out is written exactly when there are more than ten, and it is their number less ten |
| Reporter.Sections | utils/reporter.js:34-93 | there are seven numbered sections, and the recommendations are always written |
| Reporter.SectionsNumbered | utils/reporter.js:34-93 | the sections are numbered 1 to 7 by position |
| Reporter.PresentBounds | utils/reporter.js:34-93 | when sections are skipped, the ones written keep their numbers |
| Reporter.PresentOrdered | utils/reporter.js:34-93 | the sections written come in increasing number |
| Reporter.PresentHas | utils/reporter.js:34-93 | section k is written exactly when it is not skipped |
| Reporter.PresentKeeps | utils/reporter.js:34-93 | a section that is not skipped is written as built |
| Reporter.TextReportOrder | utils/reporter.js:13-108 | the report opens with the executive summary and its banner, closes with the recommendations, and its sections come in increasing order |
| Reporter.SectionsWanted | utils/reporter.js:34-93 | section k is built exactly when its condition holds |
| Reporter.TextReportHas | utils/reporter.js:34-93 | section k appears in the report exactly when its condition holds, and then as built |
| Reporter.TextReport | utils/reporter.js:34-93 | defined by its body; meaning in Reporter.TextReportOrder, Reporter.TextReportSections and Reporter.TextReportContents |
| Reporter.TextReportSections | utils/reporter.js:34-93 | sections 1 to 6 appear exactly when their result exists (modules, DOM, storage, events, either Chart.js result, captured errors) and the recommendations always do |
| Reporter.TextReportContents | utils/reporter.js:44-93 | the report holds the DOM section built from the DOM result, the errors section when errors were captured, and the recommendations |
| Validator.TestIdsOf | utils/validator.js:302-315 | defined by its body; meaning in Validator.TestIdsOfMeaning and Validator.TestIdsOfCall |
| Validator.TestIdsOfMeaning | utils/validator.js:302-315 | a test file without content yields no ids; otherwise an id is extracted iff some `getElementById` call in the content has it as argument; each id once |
| Validator.TestIdsOfCall | utils/validator.js:307-311 | a call with a literal id between single or double quotes contributes that id |
| Validator.JsKeysOfLiteral | utils/validator.js:325-329 | round trip: the `'name.js':` keys read from a written-out module literal are its entry names, in order |
| Validator.JsKeysOfEntry | utils/validator.js:325-329 | an entry in front of the rest of a literal adds its name in front of the rest's keys |
| Validator.FirstEntryLacks | utils/validator.js:322 | the first entry's text up to its closing brace holds no other closing brace |
| Validator.FirstEntryKeys | utils/validator.js:325-329 | the keys of the first entry's text are its name alone |
| Validator.ModulesAsWritten | utils/validator.js:317-334 | as written (Findings row 1); defined by its body; meaning in Validator.ModulesAsWrittenSeesFirstOnly |
| Validator.ModulesAsWrittenSeesFirstOnly | utils/validator.js:322 | as written, `\{([^}]+)\}` stops at the first entry's closing brace, so for any literal of one or more entries only the first module is extracted |
| Validator.FirstBraceCapture | utils/validator.js:322-323 | the capture of the as-written expression is the first entry's text |
| Validator.TestModulesOfAt | utils/validator.js:317-334 | corrected: with the literal read up to its closing `};`, the modules are the keys of the whole literal |
| Validator.TestModulesOf | utils/validator.js:317-334 | corrected (Findings row 1); defined by its body; meaning in Validator.TestModulesOfLiteral |
| Validator.TestModulesOfLiteral | utils/validator.js:317-334 | corrected: read up to its `};`, a module literal yields every entry's name |
| Validator.Scanned | utils/validator.js:34-44 | the categories visited are the prefix before the first `null` one, whose `ids` read throws |
| Validator.AddIds | utils/validator.js:36-42 | adding a category's ids keeps the set as the distinct ids seen so far, in first-seen order, and notes every id already seen |
| Validator.ScanCategories | utils/validator.js:33-45 | the loop throws iff some category is `null`; the set and the duplicates are those of the ids of the categories before it |
| Validator.ScannedPrefix | utils/validator.js:34-44 | the scan covers exactly the categories before the first `null` |
| Validator.CountedTwice | utils/validator.js:72-81 | an id is listed iff it occurs more than once in the list counted |
| Validator.ValidateIds | utils/validator.js:14-109 | duplicatesInConfig are the repeated config ids; a `null` category gives an invalid report with the one TypeError, counts 0; otherwise the totals are the sizes of the two sets, the differences are computed both ways, duplicatesInTest is always empty (it counts a set), and valid holds iff the two id sets have the same members |
| Validator.CompareIds | utils/validator.js:47-81 | the report of the two id sets: both differences, the counts, an empty duplicatesInTest, and valid iff the sets agree; established by Validator.CompareTestIds |
| Validator.CompareTestIds | utils/validator.js:47-81 | the report compares the config ids and the test ids: both differences, both sizes, valid iff they have the same members |
| Validator.NoneCountedTwice | utils/validator.js:72-81 | in a list without repeats nothing is counted twice, so duplicatesInTest is empty |
| Validator.ModulesConcordantIff | utils/validator.js:148-160 | with no `null` module info, the modules agree iff both differences are empty |
| Validator.ConfigModuleNames | utils/validator.js:132-137 | the loop throws iff some module info is `null`; otherwise it yields the distinct module names |
| Validator.ValidateModules | utils/validator.js:114-182 | a `null` module info gives an invalid report with the one TypeError; otherwise the totals and both differences are those of the config names and the modules read from the test file; exportsMismatch stays empty; valid iff the two sets agree |
| Validator.ValidateEvents | utils/validator.js:187-246 | the totals and both differences are those of the config event names and the names quoted in `EVENTS_TO_TEST`; errors stay empty; valid iff the two sets agree |
| Validator.ValidateAll | utils/validator.js:251-297 | a validation runs iff its config is truthy and its test file present, and allValid holds iff every validation that ran found its two sets in agreement |
| Validator.IdsStep | utils/validator.js:264-266 | the id validation runs iff its inputs are present, and then it is valid iff the ids agree |
| Validator.ModulesStep | utils/validator.js:269-271 | the module validation runs iff its inputs are present, and then it is valid iff the modules agree |
| Validator.EventsStep | utils/validator.js:274-276 | the event validation runs iff its inputs are present, and then it is valid iff the events agree |
| ValidateIds.TestIdsFail | scripts/validate-ids.js:75-127 | loading the test file fails iff the file is missing or holds no `IDS_TO_TEST` literal; on success both id collections are sets |
| ValidateIds.TestIdsOfLayout | scripts/validate-ids.js:82-100 | a test file laid out as `const IDS_TO_TEST = ['a', 'b', ...];` with no `CRITICAL_IDS` literal yields exactly the listed ids, each once, and no critical id |
| ValidateIds.ConfigIds | scripts/validate-ids.js:47-73 | defined by its body; meaning in ValidateIds.ConfigIdsUnion and ValidateIds.LoadConfigIds |
| ValidateIds.LoadConfigIds | scripts/validate-ids.js:47-73 | the loading loop computes the config id set, or the error that ends the run |
| ValidateIds.TestIds | scripts/validate-ids.js:75-127 | defined by its body; meaning in ValidateIds.TestIdsFail and ValidateIds.TestIdsOfLayout |
| ValidateIds.LoadTestIds | scripts/validate-ids.js:75-127 | the loading loop computes the listed and the critical id sets, or the error that ends the run |
| ValidateIds.Validate | scripts/validate-ids.js:132-179 | both totals, both differences and the critical ids missing from the config; valid iff the two sets have the same members; the duplicate scan over a set finds nothing |
| ValidateIds.RepeatedIn | scripts/validate-ids.js:162-169 | the `seen` loop lists exactly the elements met again after their first occurrence |
| ValidateIds.Listing | scripts/validate-ids.js:193-211 | at most ten entries are shown, in order, followed by one "... and N more" line carrying the number left out |
| ValidateIds.ListingAccounts | scripts/validate-ids.js:193-211 | the "more" line appears iff there are more than ten entries, and every shown entry is one of them |
| ValidateIds.DisplayExit | scripts/validate-ids.js:229-235 | the exit code is 0 or 1 |
| ValidateIds.Outcome | scripts/validate-ids.js:132-255 | defined by its body; meaning in ValidateIds.OutcomeZeroIff and ValidateIds.Run |
| ValidateIds.OutcomeZeroIff | scripts/validate-ids.js:132-179 | a run exits 0 iff both files load, the config ids and the listed ids have the same members and every critical id is in the config |
| ValidateIds.ConfigIdsUnion | scripts/validate-ids.js:57-64 | a config id is exactly one found in the `ids` array of some category |
| ValidateIds.Run | scripts/validate-ids.js:241-255 | `main` exits with the code of the whole run as specified above |
| ValidateModules.ConfigModulesKeys | scripts/validate-modules.js:56-64 | the config's module names are its entry names, each once, in first-seen order |
| ValidateModules.TestPairs | scripts/validate-modules.js:97-122 | one (name, info) pair per matched entry, in order, carrying the exports its body lists and its literal `critical` flag |
| ValidateModules.TestModulesKeys | scripts/validate-modules.js:90-122 | a test module is exactly a matched entry name, and a name matched again carries the info of its last match (`Map.set` overwrites) |
| ValidateModules.Iterate | scripts/validate-modules.js:162-163 | `new Set(v)` throws exactly on booleans, numbers and objects; arrays, strings and `null` are iterable |
| ValidateModules.MissingExportsMeaning | scripts/validate-modules.js:162-170 | an export is missing iff the config lists it and the test entry does not |
| ValidateModules.WalkThrows | scripts/validate-modules.js:151-180 | the walk over the config modules throws iff some shared module's config exports are not iterable |
| ValidateModules.WalkConfigOnly | scripts/validate-modules.js:151-158 | inConfigNotInTest lists the config modules without a test entry, in config order |
| ValidateModules.WalkCritical | scripts/validate-modules.js:156-158 | criticalMissing holds a module iff it is in the config, flagged critical there, and has no test entry |
| ValidateModules.WalkOf | scripts/validate-modules.js:137-190 | defined by its body; meaning in ValidateModules.WalkThrows, ValidateModules.WalkConfigOnly, ValidateModules.WalkCritical, ValidateModules.WalkValid, ValidateModules.WalkNoMismatch and ValidateModules.TestOnly |
| ValidateModules.WalkValid | scripts/validate-modules.js:151-180 | valid holds iff no config module lacks a test entry and no mismatch was recorded |
| ValidateModules.WalkNoMismatch | scripts/validate-modules.js:159-179 | no mismatch is recorded iff every shared module's test entry lists all its config exports |
| ValidateModules.WalkMismatchEntries | scripts/validate-modules.js:172-178 | every recorded mismatch names a shared module together with the non-empty list of the exports it misses |
| ValidateModules.TestOnly | scripts/validate-modules.js:183-187 | inTestNotInConfig lists the test modules the config lacks, in test order |
| ValidateModules.Validate | scripts/validate-modules.js:137-190 | the loop throws iff the walk does; otherwise it yields the walk's lists, both totals and the test-only modules |
| ValidateModules.WalkErrSticks | scripts/validate-modules.js:151-180 | an exception part-way through the config modules ends the whole walk |
| ValidateModules.Outcome | scripts/validate-modules.js:137-263 | defined by its body; meaning in ValidateModules.OutcomeZeroIff and ValidateModules.Run |
| ValidateModules.OutcomeZeroIff | scripts/validate-modules.js:137-244 | a run exits 0 iff both files load, every config module has a test entry and every shared module's test entry lists all its config exports; test-only modules do not matter |
| ValidateModules.ConfigModules | scripts/validate-modules.js:47-73 | defined by its body; meaning in ValidateModules.ConfigModulesKeys and ValidateModules.LoadConfigModules |
| ValidateModules.LoadConfigModules | scripts/validate-modules.js:47-73 | the loading loop computes the config module map, or the error that ends the run |
| ValidateModules.ConfigModulesErrSticks | scripts/validate-modules.js:57-63 | a `null` module info part-way through ends the loading |
| ValidateModules.TestModules | scripts/validate-modules.js:75-132 | defined by its body; meaning in ValidateModules.TestModulesKeys and ValidateModules.LoadTestModules |
| ValidateModules.LoadTestModules | scripts/validate-modules.js:75-132 | the loading loop computes the test module map, or the error that ends the run |
| ValidateModules.Run | scripts/validate-modules.js:249-262 | `main` exits with the code of the whole run as specified above |
| Concordance.ReadFile | scripts/check-concordance.js:71-80 | reading succeeds iff the file exists, and then yields its contents |
| Concordance.MissingFilesMember | scripts/check-concordance.js:106-115 | a path is reported missing iff it is listed and does not exist |
| Concordance.FilesCheck | scripts/check-concordance.js:93-169 | defined by its body; meaning in Concordance.FilesCheckMeaning |
| Concordance.FilesCheckMeaning | scripts/check-concordance.js:93-169 | checks 1 and 2 never throw, pass iff every listed file exists, and otherwise add one message per missing file and no warning |
| Concordance.Compare | scripts/check-concordance.js:228-262 | defined by its body; meaning in Concordance.CompareMeaning |
| Concordance.CompareMeaning | scripts/check-concordance.js:228-262 | a comparison passes iff the two sets have the same members; a failure warns iff some test item is not in the config, and adds the one "N … not tested" message iff some config item is not tested |
| Concordance.CategoryIdsThrows | scripts/check-concordance.js:196-202 | collecting the config ids throws iff some category is `null` |
| Concordance.CategoryIdsUnion | scripts/check-concordance.js:196-202 | an id is collected iff the `ids` array of some category holds it |
| Concordance.CategoryIdsNull | scripts/check-concordance.js:197-198 | the first `null` category ends the collection with the TypeError of reading its `ids` |
| Concordance.CategoryIdsErrSticks | scripts/check-concordance.js:197-201 | once a category throws, later categories do not change the error |
| Concordance.ModulesCheck | scripts/check-concordance.js:268-353 | defined by its body (Concordance.KeysCheck on the modules files); meaning in Concordance.KeysCheck, Concordance.KeysCheckLoaded and Concordance.CompareMeaning |
| Concordance.EventsCheck | scripts/check-concordance.js:358-443 | defined by its body (Concordance.KeysCheck on the events files); meaning in Concordance.KeysCheck, Concordance.KeysCheckLoaded and Concordance.CompareMeaning |
| Concordance.KeysCheck | scripts/check-concordance.js:268-443 | checks 4 and 5 never throw |
| Concordance.MissingImportsMember | scripts/check-concordance.js:472-482 | an import is reported iff its file under `debug/` is missing |
| Concordance.ImportsCheck | scripts/check-concordance.js:448-493 | check 6 never throws |
| Concordance.ImportsCheckOf | scripts/check-concordance.js:472-492 | for a readable, non-empty `debug.js`, check 6 passes when no import is missing and otherwise adds one message per missing import |
| Concordance.ImportsCheckPasses | scripts/check-concordance.js:448-493 | for a readable, non-empty `debug.js`, check 6 passes iff every file it imports exists under `debug/` |
| Concordance.RecordCounts | scripts/check-concordance.js:93-493 | every check adds one to totalChecks, and one to passed or failed unless it threw; a warning only with a warned failure; failure messages are appended in order |
| Concordance.Checks | scripts/check-concordance.js:531-537 | `main` runs six checks |
| Concordance.RunChecksSnoc | scripts/check-concordance.js:531-537 | a run of one more check is the run so far, then that check |
| Concordance.RunChecks | scripts/check-concordance.js:528-546 | defined by its body; meaning in Concordance.RunChecksCounts and Concordance.RunChecksThrows |
| Concordance.RunChecksCounts | scripts/check-concordance.js:29-35 | without an exception every check is counted once and as exactly one of passed or failed, so totalChecks = passed + failed |
| Concordance.RunChecksThrows | scripts/check-concordance.js:531-546 | a run ends with an exception iff one of its checks throws |
| Concordance.CountFailedZero | scripts/check-concordance.js:516-522 | no failure is counted iff no check failed |
| Concordance.RunCleanIffAllPass | scripts/check-concordance.js:516-546 | a run from zeroed counters ends without exception and without failure iff every check passes |
| Concordance.ExitCode | scripts/check-concordance.js:498-546 | defined by its body; meaning in Concordance.ExitZeroIffAllPass |
| Concordance.ExitZeroIffAllPass | scripts/check-concordance.js:528-547 | the script exits 0 iff each of the six checks passes |
| Concordance.MissingOf | scripts/check-concordance.js:106-115 | the `forEach` over the listed files collects exactly the missing ones, in order |
| Concordance.MissingImportsOf | scripts/check-concordance.js:473-482 | the `forEach` over the imports collects exactly those whose file is missing, in order |
| Concordance.CollectConfigIds | scripts/check-concordance.js:195-202 | the category loop throws like the collection, or yields the collected ids as a set |
| Concordance.ComputeIdSets | scripts/check-concordance.js:194-224 | the extraction computes the two id sets of check 3, or the missing list, or the exception |
| Concordance.ComputeKeySets | scripts/check-concordance.js:288-316 | the extraction computes the two key sets of checks 4 and 5, or the missing list |
| Concordance.IdsCheck | scripts/check-concordance.js:174-263 | defined by its body; meaning in Concordance.IdsCheckLoaded and Concordance.CategoryIdsThrows |
| Concordance.IdsCheckLoaded | scripts/check-concordance.js:174-263 | check 3 is the load failure when a file does not load, is falsy or empty, and otherwise the comparison of the two id sets |
| Concordance.KeysCheckLoaded | scripts/check-concordance.js:268-443 | checks 4 and 5 are the load failure when a file does not load, is falsy or empty, and otherwise the comparison of the two key sets |
| Concordance.GlobalResults.constructor | scripts/check-concordance.js:29-35 | the counters start at zero with no error |
| Concordance.GlobalResults.LoadJson | scripts/check-concordance.js:59-69 | loading yields the parsed file, and on failure appends exactly one load error |
| Concordance.GlobalResults.LoadFile | scripts/check-concordance.js:71-80 | reading yields the contents, and on failure appends exactly one read error |
| Concordance.GlobalResults.FilesExist | scripts/check-concordance.js:93-169 | checks 1 and 2 record their result in the counters and return whether they passed |
| Concordance.GlobalResults.Conclude | scripts/check-concordance.js:228-262 | the end of checks 3 to 5 settles the comparison's result in the counters |
| Concordance.GlobalResults.Settled | scripts/check-concordance.js:210-262 | a missing list is a failed check, an exception is passed on, otherwise the comparison is settled |
| Concordance.GlobalResults.LoadBoth | scripts/check-concordance.js:178-192 | both files are returned iff they load, the config is truthy and the test file non-empty; otherwise the failure is settled |
| Concordance.GlobalResults.CheckIds | scripts/check-concordance.js:174-263 | check 3 records its result in the counters; it returns whether it passed, or its exception |
| Concordance.GlobalResults.CheckKeys | scripts/check-concordance.js:268-443 | checks 4 and 5 record their result in the counters and return whether they passed |
| Concordance.GlobalResults.CheckImports | scripts/check-concordance.js:448-493 | check 6 records its result in the counters and returns whether it passed |
| Concordance.GlobalResults.SettleMissing | scripts/check-concordance.js:472-492 | the end of check 6: one message per missing import, then passed or failed |
| Concordance.GlobalResults.DisplaySummary | scripts/check-concordance.js:498-523 | the exit code is 0 iff no check failed, and 1 otherwise |
| Concordance.RunChecksOfMain | scripts/check-concordance.js:528-547 | the two file checks never throw, so only check 3 can end the run early, with exit code 1 |
| Concordance.RunErrSticks | scripts/check-concordance.js:531-546 | once a check has thrown, the checks after it change nothing |
| Concordance.RunAll | scripts/check-concordance.js:528-547 | `main` exits with the code of the six checks run in order |
| Extract.QuotedTokens | scripts/check-concordance.js:218-224 | every token read by `'([^']+)'` is non-empty and holds no quote |
| Extract.QuotedTokensSkip | scripts/check-concordance.js:218 | text without a quote contributes no token |
| Extract.QuotedTokensCons | scripts/check-concordance.js:218-224 | a quoted token at the front is read back, and scanning resumes right after its closing quote |
| Extract.QuotedTokensOfList | scripts/check-concordance.js:216-224 | round trip: the tokens of a list literal written out with a quote-free separator are the listed tokens, in order |
| Extract.JsKeys | scripts/check-concordance.js:310-315 | every key read by `'([^']+\.js)':` ends in ".js" and holds no quote |
| Extract.JsKeysSkip | scripts/check-concordance.js:310 | text without a quote contributes no key |
| Extract.JsKeysCons | scripts/check-concordance.js:310-315 | a key `'name.js':` at the front is read back, and scanning resumes after it |
| Extract.StripQuotesAndColons | scripts/check-concordance.js:313 | the result holds no quote or colon, keeps every other character of the input, and is no longer |
| Extract.StripQuotesAndColonsPlain | scripts/check-concordance.js:313 | a name without quotes or colons is left unchanged |
| Extract.ModuleEntries | scripts/validate-modules.js:94-99 | each match names a ".js" module without quotes and carries a non-empty body that ends before the first `}` |
| Extract.ModuleEntriesCons | scripts/validate-modules.js:94-99 | an entry written `'name.js': {body}` at the front is read back whole, and scanning resumes after it |
| Extract.ExportsCapture | scripts/validate-modules.js:102-103 | the captured exports text holds no `]` |
| Extract.DeclaredExports | scripts/validate-modules.js:102-114 | a body without an exports list declares none; every declared export is non-empty and holds no quote |
| Extract.CriticalFlag | scripts/validate-modules.js:117-119 | a body reads as critical only if it contains `critical:` |
| Extract.CriticalFlagAt | scripts/validate-modules.js:117-119 | the word written after the first `critical:` and its spaces decides the flag |
| Extract.CriticalFlagOfLayout | scripts/validate-modules.js:117-119 | a body whose first flag is written `critical: true` or `critical: false` reads as that flag |
| Extract.IdCallAt | utils/validator.js:307 | a call matched at the front yields a non-empty id without quotes and a match end inside the text |
| Extract.ElementIdArgs | utils/validator.js:307-311 | every id read from `getElementById` calls is non-empty and holds no quote |
| Extract.IdCallAtLayout | utils/validator.js:307 | a call `getElementById('id')` with either kind of quotes matches at the front and yields that id |
| Extract.ElementIdArgsCons | utils/validator.js:307-311 | each such call is read back in turn, and scanning resumes right after it |
| Extract.AssignedBlock | utils/validator.js:322 | a captured block is non-empty and holds no closing character |
| Extract.BlockAfterAt | utils/validator.js:322 | the block after `name = {` ends at the first closing character |
| Extract.AssignedBlockAt | utils/validator.js:322 | when the first occurrence of the name is followed by a block, that block is the capture |
| Extract.LayoutFacts | utils/validator.js:322 | in a text laid out as `prefix name = {block}rest` with the name not in the prefix, the name is found after the prefix and the block is read after it |
| Extract.FromClauseAt | scripts/check-concordance.js:461 | a matched `from './path'` clause yields a non-empty path without quotes |
| Extract.ImportAt | scripts/check-concordance.js:461 | an import matched at a position starts with `import` there and yields a non-empty path without quotes |
| Extract.ImportTargets | scripts/check-concordance.js:461-467 | every imported path collected by the global import regex is non-empty and holds no quote |
| Extract.FromClauseLayout | scripts/check-concordance.js:461 | a clause `from './path'` written out matches where it stands and yields the path |
| Extract.ImportAtLayout | scripts/check-concordance.js:461-467 | one statement `import NAMES from './path'` written at a position is matched there, yields the path and ends where the statement does |
| Extract.LazyFromSkips | scripts/check-concordance.js:461 | the lazy `.*?` passes over a stretch where the clause fails and no line ends |
| Severity.Classify | debug/debug.js:356-386 | a phase is all right iff nothing failed, critical iff something failed and something critical did, and a warning otherwise; exactly one of the three |
| Orchestrator.LoadedBy | debug/debug.js:102-202 | the logger handle is set iff the logger imports, and no handle is set whose import failed |
| Orchestrator.LateKeepsCoherent | debug/debug.js:264-290 | phases 4 and 5 leave the module, DOM and storage results as they were |
| Orchestrator.TestedPhases | debug/debug.js:220-290 | each of phases 1-5 stores what its tester returned exactly when that tester is loaded, and otherwise leaves the earlier result in place |
| Orchestrator.TestedCoherent | debug/debug.js:220-262 | what the probes return keeps the stored results coherent: critical failures are failures, critical missing ids are missing ids, storage errors are failed keys |
| Orchestrator.PlanOf | debug/debug.js:292-323 | defined by its body; meaning in Orchestrator.PlanMatchesReport and Orchestrator.PlanOnErrors |
| Orchestrator.PlanMatchesReport | debug/debug.js:292-323 | on coherent results phase 6 never fails; it repairs storage iff the report flags storage, creates elements iff critical ids are missing, installs the Chart.js stub iff Chart.js was not found or not tested, and says "No repairs needed" iff none of these holds |
| Orchestrator.PlanOnErrors | debug/debug.js:300-328 | a stored storage error ends phase 6 before any repair; a stored DOM error ends it after the storage decision; phase 6 fails iff one of the two slots holds an error |
| Orchestrator.DisplaySummary | debug/debug.js:347-407 | defined by its body; meaning in Orchestrator.SummaryMatchesReport |
| Orchestrator.SummaryMatchesReport | debug/debug.js:347-407 | on coherent results the console summary does not throw, flags as critical exactly what the report counts as critical, reports Chart.js missing exactly when the report does, and always reports the number of captured errors |
| Orchestrator.SourceTestersSound | debug/debug.js:220-262 | the repository's testers keep the orchestrator's assumptions: critical module failures are failures, critical missing ids are missing ids counted as failed, storage errors are failed keys |
| Orchestrator.Debug.constructor | debug/debug.js:30-48 | `debugState` starts uninitialised, inactive, with no module handle, no status, empty results and no captured error |
| Orchestrator.Debug.LoadDebugModules | debug/debug.js:102-202 | returns false exactly when the logger fails to import, recording only that failure; otherwise every import is attempted, each handle set iff it imported and each status recorded |
| Orchestrator.Debug.RunTests | debug/debug.js:220-290 | phases 1-5 store what the loaded testers return on the current store, document and window, and keep the results coherent |
| Orchestrator.Debug.RunAllTests | debug/debug.js:207-342 | without the logger nothing happens; otherwise phases 1-5 run, phase 6 runs with the fallbacks loaded and otherwise nothing is repaired, and the summary follows without throwing |
| Orchestrator.Debug.RunFallbacks | debug/debug.js:292-328 | phase 6 records its decisions; the storage repair leaves the store as the repair specification says, the placeholders for the critical missing ids are appended when there is a body, and the stub is installed only where Chart.js is absent; each part untouched when not decided |
| Orchestrator.Debug.ActivateDebug | debug/debug.js:412-432 | an active debugger is left alone; otherwise it becomes active, `SA_DEBUG` holds 'true', the overlay is shown when the UI is loaded, and the tests run on the store as just written |
| Orchestrator.Debug.DeactivateDebug | debug/debug.js:437-453 | an inactive debugger is left alone; otherwise it becomes inactive, `SA_DEBUG` holds 'false' and the overlay is hidden when the UI is loaded |
| Orchestrator.Debug.ToggleDebug | debug/debug.js:458-464 | the active flag flips; turning off stores 'false' |
| Orchestrator.Debug.Init | debug/debug.js:469-503 | runs once; initialised iff the logger loads; then every loaded handle is set, and the debugger is active afterwards iff it was already or `SA_DEBUG` held 'true' |
| Orchestrator.SavedStartupAsWritten | debug/debug.js:412-503 | as written, a start-up with `SA_DEBUG` = 'true' runs `initUI` twice and leaves two tap handlers on the header |

## Left out

- Console output, coloured logging, toasts, the clipboard, the export buttons and the
  rendering of the log lines in the overlay. These are I/O. For the summary and the
  recommendations, the model keeps only what they report.
- The percentage in the executive summary, and the timings measured with
  `performance.now()`. Both are floating point and clock values.
- The bodies of the modules, storage, events and Chart.js sections of the text report
  (`utils/reporter.js:168-314`). Only whether each appears is modelled. For instance, the
  modules section prints "undefined" as the error of a module that did not load and has
  an empty `errors` list, and the model does not capture that.
- The file paths in the concordance script's "Load error" and "Read error" messages. The
  script prints the absolute path built by `path.join` from its config or debug directory,
  followed by Node's own error text. The model prints the relative path, and its "no such file"
  text names that relative path too. Import targets are looked up as `"debug/" + name` without
  `path.join`'s normalisation of `.` and `..` segments.
- `generateJSONReport`, the header and footer text of the text report, and
  `formatHistoryAsText`. These are presentation only.
- UTF-16 lengths and the `localStorage` quota. The `SA_DEBUG` write done by
  `activateDebug` is assumed to fit the store. The repair's own writes model the quota
  as an oracle. The check for the `QuotaExceededError` name is not modelled.
- Error capture (`setupErrorCapture`, the `error` and `unhandledrejection` listeners).
  The captured errors are a field the report reads. The model does not let the testers
  throw, so the outer `catch` blocks of the testers and of `runAllTests` are not
  exercised; only the slot a thrown exception would leave is modelled.
- A stored log history that parses to something other than an array. For `{}` the logger
  becomes initialized with that object as its history, and every later `log` then fails
  inside its own `try`; for `null` the history stays `null`. The model's history codec
  yields either a list of entries or a parse failure, so neither case can arise.
- `initLogger` throwing, and the logger's `info`, `success`, `warning`, `error` and
  `debug` wrappers. The wrappers only fix the level passed to `log`. `loadHistory` and
  `onNewLog` are left out as well.
- The events tester and the detailed Chart.js tester (`debug/debug-events.js` and
  `debug/debug-chart.js`). These two files are not part of this model. Phases 4 and 5
  record only that they ran.
- `getStorageSize`, `listAllKeys`, `testStateModule`, `testES6Support`,
  `getModulesSummary` and `getElementInfo`. They only report sizes or lists for display.
- `exporter.js` and `MainActivity.java` are not part of this model.
- Config ids are compared by value. JavaScript compares object and array values held in
  a `Set` by reference, so the two can differ.
- The DOM tester's header comment counts 89 ids, but the `IDS_TO_TEST` literal as
  written holds 103. The model follows the literal.
- DebugUi.Ui.ClickHeader: the browser's dispatch of a click to the header's handlers is
  modelled as a loop over the registered handlers, one call each.
- Orchestrator.Debug.ActivateDebug: it promises the overlay is visible only when the
  overlay element exists. `initUI` does not create the overlay when the body is missing.
- Orchestrator.Debug: the testers are reached through function values. The constructor
  installs `SourceTesters`, and `SourceTestersSound` proves the facts the orchestrator
  relies on. The imperative testers (`DomProbe.TestDom` and the others) are proved to
  compute those functions.
- Orchestrator.Debug.Init and Orchestrator.Debug.ActivateDebug use the corrected
  `DebugUi.Ui.InitUi` (see Findings).
- Validator.ValidateModules uses the corrected module extraction (see Findings).
- ValidateIds.DisplayExit states only that the code is 0 or 1. When it is 0 is stated by
  ValidateIds.OutcomeZeroIff.

## Findings

| source | as written | input that shows it | evidently intended | confidence | as-written member | corrected member |
|---|---|---|---|---|---|---|
| utils/validator.js:322 | `MODULES_TO_TEST\s*=\s*\{([^}]+)\}` ends its capture at the first `}`. That is the closing brace of the first module entry, so only that module's key is read. | `MODULES_TO_TEST = { 'state.js': { ... }, 'app.js': { ... } };`: the set of test modules is `{'state.js'}`, and every other config module is reported as not tested | read the literal up to its closing `};`, so that every entry's key is a test module | not executed | Validator.ModulesAsWrittenSeesFirstOnly | Validator.TestModulesOfLiteral |
| debug/debug.js:412-503 | `init` calls `initUI` (line 491). When `SA_DEBUG` was 'true', `activateDebug` calls it a second time (line 424). `initUI` adds a new tap listener to the header each time. | `SA_DEBUG` = 'true' at start-up, then quick taps on the header: the third tap toggles the overlay, and five taps toggle it twice | one tap listener, so that every fifth quick tap toggles once | not executed | DebugUi.Ui.InitUiAsWritten, Orchestrator.SavedStartupAsWritten, DebugUi.DoubleListenerTaps | DebugUi.Ui.InitUi, DebugUi.SingleListenerTaps |
