/**
 * `debug/debug-storage.js`: the content validators of the five keys the application
 * keeps in `localStorage`, `testKey`, and the `testLocalStorage` probe that tallies
 * them. A TypeError thrown inside a validator is an Err value carrying its message;
 * `JSON.parse` is the codec's oracle.
 */
module Storage {
  import opened Wrappers
  import opened Json
  import opened Text
  import opened Browser

  const DailyKey: string := "sa_daily_v1"
  const SettingsKey: string := "sa_settings_v1"
  const LimitsKey: string := "sa_limits_v1"
  const EconomyKey: string := "sa_economy_v1"
  const WarnKey: string := "sa_warn_v1"

  /** An entry of `EXPECTED_KEYS`: whether a failure is critical, and the expected type. */
  datatype ExpectedKey = ExpectedKey(name: string, critical: bool, typ: string)

  const ExpectedKeys: seq<ExpectedKey> := [
    ExpectedKey(DailyKey, true, "object"),
    ExpectedKey(SettingsKey, true, "object"),
    ExpectedKey(LimitsKey, false, "object"),
    ExpectedKey(EconomyKey, false, "object"),
    ExpectedKey(WarnKey, true, "object")]

  /** A validator's verdict: valid (with the day count, for the daily data) or the reason. */
  datatype Validation = Valid(daysCount: Option<nat>) | Invalid(error: string)

  /** The message of the TypeError that `Object.keys(null)` and `Object.entries(null)` throw. */
  const NullToObject: string := "Cannot convert undefined or null to object"

  /** The message of the TypeError that `k in v` throws when v is a primitive. */
  function InOperatorError(k: string, v: Json): string {
    "Cannot use 'in' operator to search for '" + k + "' in " + Shown(v)
  }

  /** `String(v)` for the primitives that can reach the `in` operator. */
  function Shown(v: Json): string {
    match v
    case JNull => "null"
    case JBool(b) => if b then "true" else "false"
    case JStr(s) => s
    case _ => "number"
  }

  /** `typeof v === 'object'`, which holds for null and for arrays. */
  predicate IsTypeofObject(v: Json) {
    v.JNull? || v.JObj? || v.JArr?
  }

  /** `k in v` evaluated to true (v an object or an array). */
  predicate Holds(v: Json, k: string) {
    HasProperty(v, k) == Some(true)
  }

  /**
   * The early return of a `for ... of` loop: the first message `check` yields over `xs`.
   */
  function FirstFailure<T>(xs: seq<T>, check: T -> Option<string>): (r: Option<string>)
    ensures r.None? <==> forall i :: 0 <= i < |xs| ==> check(xs[i]).None?
    ensures r.Some? ==> exists i :: 0 <= i < |xs| && check(xs[i]) == r && forall j :: 0 <= j < i ==> check(xs[j]).None?
  {
    if |xs| == 0 then None
    else if check(xs[0]).Some? then check(xs[0])
    else
      var r := FirstFailure(xs[1..], check);
      assert forall i :: 0 <= i < |xs| - 1 ==> xs[1..][i] == xs[i + 1];
      r
  }

  // ------------------------------------------------------------------ sa_daily_v1

  /** `/^\d{4}-\d{2}-\d{2}$/`: the shape of a date, with no calendar check. */
  predicate IsDateKey(k: string) {
    && |k| == 10 && k[4] == '-' && k[7] == '-'
    && forall i :: 0 <= i < 10 && i != 4 && i != 7 ==> IsDigit(k[i])
  }

  /** A day's record: a truthy value of type "object" holding the three counters. */
  predicate IsDayRecord(d: Option<Json>) {
    && d.Some? && Truthy(d.value) && IsTypeofObject(d.value)
    && Holds(d.value, "cigs") && Holds(d.value, "weed") && Holds(d.value, "alcohol")
  }

  /** The checks of one key of the daily data, in the order the loop body makes them. */
  function DayCheck(data: Json, key: string): (m: Option<string>)
    ensures m.None? <==> IsDateKey(key) && IsDayRecord(Get(data, key))
  {
    if !IsDateKey(key) then Some("Invalid date key: " + key)
    else
      var d := Get(data, key);
      if d.None? || !Truthy(d.value) || !IsTypeofObject(d.value) then Some("Invalid day data for " + key)
      else if !(Holds(d.value, "cigs") && Holds(d.value, "weed") && Holds(d.value, "alcohol")) then
        Some("Missing fields in " + key)
      else None
  }

  /**
   * `validateDailyData`. `null` passes the type test (its `typeof` is "object") and then
   * `Object.keys` throws.
   */
  function ValidateDailyData(data: Json): (r: Result<Validation>)
    ensures r.Err? <==> data.JNull?
    ensures r.Ok? && r.value.Valid? <==>
      data.JObj? && forall i :: 0 <= i < |data.members| ==>
        IsDateKey(data.members[i].0) && IsDayRecord(Get(data, data.members[i].0))
    ensures r.Ok? && r.value.Valid? ==> r.value.daysCount == Some(|data.members|)
    ensures r.Ok? && !data.JObj? ==> r.value == Invalid("Must be an object")
  {
    if data.JNull? then Err(NullToObject)
    else if !data.JObj? then Ok(Invalid("Must be an object"))
    else
      var keys := Keys(data);
      match FirstFailure(keys, k => DayCheck(data, k))
      case Some(m) => Ok(Invalid(m))
      case None => Ok(Valid(Some(|keys|)))
  }

  // ------------------------------------------------------------------ sa_settings_v1

  /** `!v || typeof v !== 'object'` is false: a truthy object or array. */
  predicate IsObjectValue(v: Option<Json>) {
    v.Some? && Truthy(v.value) && IsTypeofObject(v.value)
  }

  const NoModules: string := "Missing or invalid \"modules\""
  const NoPrices: string := "Missing or invalid \"prices\""

  /** `validateSettings`: reading a property of `null` throws. */
  function ValidateSettings(data: Json): (r: Result<Validation>)
    ensures r.Err? <==> data.JNull?
    ensures r == Ok(Valid(None)) <==>
      data.JObj? && IsObjectValue(Get(data, "modules")) && IsObjectValue(Get(data, "prices"))
    ensures r.Ok? && !IsObjectValue(Get(data, "modules")) ==> r.value == Invalid(NoModules)
    ensures r.Ok? && IsObjectValue(Get(data, "modules")) && !IsObjectValue(Get(data, "prices")) ==>
      r.value == Invalid(NoPrices)
  {
    if data.JNull? then Err(NullRead("modules"))
    else if !IsObjectValue(Get(data, "modules")) then Ok(Invalid(NoModules))
    else if !IsObjectValue(Get(data, "prices")) then Ok(Invalid(NoPrices))
    else Ok(Valid(None))
  }

  // ------------------------------------------------------------------ sa_limits_v1

  /** The check of one entry of the limits object. */
  function NumberCheck(e: (string, Json)): (m: Option<string>)
    ensures m.None? <==> e.1.JNum?
  {
    if e.1.JNum? then None else Some(e.0 + " must be a number")
  }

  /** `validateLimits`: every value must be a number. */
  function ValidateLimits(data: Json): (r: Result<Validation>)
    ensures r.Err? <==> data.JNull?
    ensures r == Ok(Valid(None)) <==> data.JObj? && forall i :: 0 <= i < |data.members| ==> data.members[i].1.JNum?
    ensures r.Ok? && !data.JObj? ==> r.value == Invalid("Must be an object")
    ensures r.Ok? && r.value.Invalid? && data.JObj? ==>
      exists i :: 0 <= i < |data.members| && r.value.error == data.members[i].0 + " must be a number"
  {
    if data.JNull? then Err(NullToObject)
    else if !data.JObj? then Ok(Invalid("Must be an object"))
    else
      assert Entries(data) == data.members;
      match FirstFailure(Entries(data), NumberCheck)
      case Some(m) => Ok(Invalid(m))
      case None => Ok(Valid(None))
  }

  // ------------------------------------------------------------------ sa_economy_v1

  const NoEnabled: string := "Missing \"enabled\" field"
  const EnabledNotBool: string := "\"enabled\" must be boolean"

  /** `validateEconomy`: `enabled` must be present and boolean; `in` throws on primitives. */
  function ValidateEconomy(data: Json): (r: Result<Validation>)
    ensures r.Err? <==> !(data.JObj? || data.JArr?)
    ensures r == Ok(Valid(None)) <==> Get(data, "enabled").Some? && Get(data, "enabled").value.JBool?
    ensures r.Ok? && Get(data, "enabled").None? ==> r.value == Invalid(NoEnabled)
  {
    match HasProperty(data, "enabled")
    case None => Err(InOperatorError("enabled", data))
    case Some(present) =>
      if !present then Ok(Invalid(NoEnabled))
      else if Get(data, "enabled").value.JBool? then Ok(Valid(None))
      else Ok(Invalid(EnabledNotBool))
  }

  // ------------------------------------------------------------------ sa_warn_v1

  const WarnFields: seq<string> := ["accepted", "hide", "timestamp"]
  const WarnNotBool: string := "accepted/hide must be booleans"

  function FieldCheck(data: Json, f: string): (m: Option<string>)
    ensures m.None? <==> Holds(data, f)
  {
    if Holds(data, f) then None else Some("Missing field: " + f)
  }

  predicate IsBoolAt(data: Json, f: string) {
    Get(data, f).Some? && Get(data, f).value.JBool?
  }

  /**
   * `validateWarn`: the three fields must be present and `accepted` and `hide` boolean;
   * the type of `timestamp` is not looked at.
   */
  function ValidateWarn(data: Json): (r: Result<Validation>)
    ensures r.Err? <==> !(data.JObj? || data.JArr?)
    ensures r == Ok(Valid(None)) <==>
      && (forall i :: 0 <= i < |WarnFields| ==> Holds(data, WarnFields[i]))
      && IsBoolAt(data, "accepted") && IsBoolAt(data, "hide")
    ensures r.Ok? && r.value.Invalid? && (forall i :: 0 <= i < |WarnFields| ==> Holds(data, WarnFields[i])) ==>
      r.value.error == WarnNotBool
  {
    if HasProperty(data, "accepted").None? then Err(InOperatorError("accepted", data))
    else match FirstFailure(WarnFields, f => FieldCheck(data, f))
      case Some(m) => Ok(Invalid(m))
      case None =>
        if IsBoolAt(data, "accepted") && IsBoolAt(data, "hide") then Ok(Valid(None))
        else Ok(Invalid(WarnNotBool))
  }

  // ------------------------------------------------------------------ per key

  /** `validateKeyContent`: the validator of a known key; any other key is valid. */
  function ValidateKeyContent(key: string, data: Json): (r: Result<Validation>)
    ensures key !in {DailyKey, SettingsKey, LimitsKey, EconomyKey, WarnKey} ==> r == Ok(Valid(None))
  {
    if key == DailyKey then ValidateDailyData(data)
    else if key == SettingsKey then ValidateSettings(data)
    else if key == LimitsKey then ValidateLimits(data)
    else if key == EconomyKey then ValidateEconomy(data)
    else if key == WarnKey then ValidateWarn(data)
    else Ok(Valid(None))
  }

  /** What `testKey` reports; `present` is the source's `exists`. */
  datatype KeyTest = KeyTest(present: bool, valid: bool, value: Option<Json>, error: Option<string>, size: nat)

  const NotFound: string := "Key not found"

  /**
   * `testKey`. An array is "array" to the type test, so it fails an "object" key before
   * its content is looked at; an exception inside a validator is caught by the handler
   * of the parse and reported as invalid JSON.
   */
  function TestKey(stored: Option<string>, parse: string -> Result<Json>, ek: ExpectedKey): (t: KeyTest)
    ensures t.present <==> stored.Some?
    ensures !t.present ==> t == KeyTest(false, false, None, Some(NotFound), 0)
    ensures t.present ==> t.size == |stored.value|
    ensures t.valid <==> t.error.None?
    ensures t.present && parse(stored.value).Err? ==>
      !t.valid && t.value.None? && t.error == Some("Invalid JSON: " + parse(stored.value).error)
    ensures t.present && parse(stored.value).Ok? ==> t.value == Some(parse(stored.value).value)
  {
    match stored
    case None => KeyTest(false, false, None, Some(NotFound), 0)
    case Some(raw) =>
      match parse(raw)
      case Err(m) => KeyTest(true, false, None, Some("Invalid JSON: " + m), |raw|)
      case Ok(parsed) =>
        var actual := TypeName(parsed);
        if ek.typ != "" && actual != ek.typ then
          KeyTest(true, false, Some(parsed), Some("Wrong type (expected " + ek.typ + ", got " + actual + ")"), |raw|)
        else
          match ValidateKeyContent(ek.name, parsed)
          case Err(m) => KeyTest(true, false, Some(parsed), Some("Invalid JSON: " + m), |raw|)
          case Ok(Invalid(m)) => KeyTest(true, false, Some(parsed), Some(m), |raw|)
          case Ok(Valid(_)) => KeyTest(true, true, Some(parsed), None, |raw|)
  }

  /** A key passes iff it is stored, parses, has the expected type and passes its validator. */
  lemma TestKeyValidIff(stored: Option<string>, parse: string -> Result<Json>, ek: ExpectedKey)
    ensures TestKey(stored, parse, ek).valid <==>
      && stored.Some? && parse(stored.value).Ok?
      && (ek.typ == "" || TypeName(parse(stored.value).value) == ek.typ)
      && ValidateKeyContent(ek.name, parse(stored.value).value).Ok?
      && ValidateKeyContent(ek.name, parse(stored.value).value).value.Valid?
  {
  }

  /** A stored array never passes an object key: it fails the type test. */
  lemma ArrayFailsTypeTest(raw: string, parse: string -> Result<Json>, ek: ExpectedKey)
    requires ek in ExpectedKeys && parse(raw).Ok? && parse(raw).value.JArr?
    ensures TestKey(Some(raw), parse, ek).error == Some("Wrong type (expected object, got array)")
  {
    assert ek.typ == "object";
    assert "Wrong type (expected " + "object" + ", got " + "array" + ")" == "Wrong type (expected object, got array)";
  }

  /**
   * A stored `null` passes the type test and makes the validator throw, so it is reported
   * as invalid JSON although it parsed.
   */
  lemma NullReportedAsInvalidJson(raw: string, parse: string -> Result<Json>, ek: ExpectedKey)
    requires ek in ExpectedKeys && parse(raw) == Ok(JNull)
    ensures !TestKey(Some(raw), parse, ek).valid
    ensures |TestKey(Some(raw), parse, ek).error.value| >= 14
    ensures TestKey(Some(raw), parse, ek).error.value[..14] == "Invalid JSON: "
  {
  }

  // ------------------------------------------------------------------ testLocalStorage

  /** `{ key, ...testResult }`. */
  datatype KeyRecord = KeyRecord(key: string, test: KeyTest)

  datatype StorageResults = StorageResults(
    available: bool, keys: seq<KeyRecord>, errors: seq<string>, warnings: seq<string>,
    tested: nat, passed: nat, failed: nat)

  const NoResults: StorageResults := StorageResults(false, [], [], [], 0, 0, 0)

  /** `localStorage.getItem(key)` on the store's contents. */
  function StoredIn(items: map<string, string>, key: string): Option<string> {
    if key in items then Some(items[key]) else None
  }

  /** The message a failing key contributes. */
  function FailureMessage(ek: ExpectedKey, t: KeyTest): string {
    if t.present then ek.name + ": " + t.error.GetOr("null")
    else if ek.critical then ek.name + ": Missing (CRITICAL)"
    else ek.name + ": Missing (optional)"
  }

  /** One iteration of the loop over `EXPECTED_KEYS`. */
  function Record(r: StorageResults, ek: ExpectedKey, t: KeyTest): StorageResults {
    var keys := if t.present then r.keys + [KeyRecord(ek.name, t)] else r.keys;
    if t.valid then r.(keys := keys, tested := r.tested + 1, passed := r.passed + 1)
    else if ek.critical then
      r.(keys := keys, tested := r.tested + 1, failed := r.failed + 1, errors := r.errors + [FailureMessage(ek, t)])
    else
      r.(keys := keys, tested := r.tested + 1, failed := r.failed + 1, warnings := r.warnings + [FailureMessage(ek, t)])
  }

  /** The results after the loop has visited `ks`. */
  function Tally(items: map<string, string>, parse: string -> Result<Json>, ks: seq<ExpectedKey>): StorageResults {
    if |ks| == 0 then NoResults.(available := true)
    else
      var ek := ks[|ks| - 1];
      Record(Tally(items, parse, ks[..|ks| - 1]), ek, TestKey(StoredIn(items, ek.name), parse, ek))
  }

  /** The keys of `ks` whose test fails, critical or not as asked, in order. */
  function Failing(items: map<string, string>, parse: string -> Result<Json>, ks: seq<ExpectedKey>, critical: bool): (fs: seq<ExpectedKey>)
    ensures forall k :: 0 <= k < |fs| ==> fs[k] in ks && fs[k].critical == critical
  {
    if |ks| == 0 then []
    else
      var ek := ks[0];
      var rest := Failing(items, parse, ks[1..], critical);
      if ek.critical == critical && !TestKey(StoredIn(items, ek.name), parse, ek).valid then [ek] + rest else rest
  }

  /** Their messages. */
  function Messages(items: map<string, string>, parse: string -> Result<Json>, fs: seq<ExpectedKey>): (ms: seq<string>)
    ensures |ms| == |fs|
  {
    if |fs| == 0 then []
    else [FailureMessage(fs[0], TestKey(StoredIn(items, fs[0].name), parse, fs[0]))] + Messages(items, parse, fs[1..])
  }

  /** How many keys of `ks` pass. */
  function PassCount(items: map<string, string>, parse: string -> Result<Json>, ks: seq<ExpectedKey>): nat {
    if |ks| == 0 then 0
    else PassCount(items, parse, ks[..|ks| - 1]) + if TestKey(StoredIn(items, ks[|ks| - 1].name), parse, ks[|ks| - 1]).valid then 1 else 0
  }

  lemma FailingSnoc(items: map<string, string>, parse: string -> Result<Json>, ks: seq<ExpectedKey>, ek: ExpectedKey, critical: bool)
    ensures Failing(items, parse, ks + [ek], critical) ==
      Failing(items, parse, ks, critical) +
        if ek.critical == critical && !TestKey(StoredIn(items, ek.name), parse, ek).valid then [ek] else []
  {
    if |ks| > 0 {
      assert (ks + [ek])[1..] == ks[1..] + [ek];
      FailingSnoc(items, parse, ks[1..], ek, critical);
    }
  }

  lemma MessagesAppend(items: map<string, string>, parse: string -> Result<Json>, fs: seq<ExpectedKey>, gs: seq<ExpectedKey>)
    ensures Messages(items, parse, fs + gs) == Messages(items, parse, fs) + Messages(items, parse, gs)
  {
    if |fs| > 0 {
      assert (fs + gs)[0] == fs[0];
      assert (fs + gs)[1..] == fs[1..] + gs;
      MessagesAppend(items, parse, fs[1..], gs);
    } else {
      assert fs + gs == gs;
    }
  }

  /** What one iteration adds, for any results so far and any key outcome. */
  lemma RecordStep(r: StorageResults, ek: ExpectedKey, t: KeyTest)
    ensures var s := Record(r, ek, t);
      && s.available == r.available
      && s.tested == r.tested + 1
      && s.passed == r.passed + (if t.valid then 1 else 0)
      && s.failed == r.failed + (if t.valid then 0 else 1)
      && (t.valid || !ek.critical ==> s.errors == r.errors)
      && (!t.valid && ek.critical ==> s.errors == r.errors + [FailureMessage(ek, t)])
      && (t.valid || ek.critical ==> s.warnings == r.warnings)
      && (!t.valid && !ek.critical ==> s.warnings == r.warnings + [FailureMessage(ek, t)])
  {
  }

  /** The failing list grows by the new key exactly when it fails in that class. */
  lemma FailingStep(items: map<string, string>, parse: string -> Result<Json>, p: seq<ExpectedKey>, ek: ExpectedKey, critical: bool)
    ensures var t := TestKey(StoredIn(items, ek.name), parse, ek);
      && (t.valid || ek.critical != critical ==>
            Messages(items, parse, Failing(items, parse, p + [ek], critical)) == Messages(items, parse, Failing(items, parse, p, critical)))
      && (!t.valid && ek.critical == critical ==>
            Messages(items, parse, Failing(items, parse, p + [ek], critical)) ==
              Messages(items, parse, Failing(items, parse, p, critical)) + [FailureMessage(ek, t)])
  {
    FailingSnoc(items, parse, p, ek, critical);
    var t := TestKey(StoredIn(items, ek.name), parse, ek);
    if !t.valid && ek.critical == critical {
      MessagesAppend(items, parse, Failing(items, parse, p, critical), [ek]);
    } else {
      assert Failing(items, parse, p + [ek], critical) == Failing(items, parse, p, critical);
    }
  }

  /**
   * Every key visited is counted once, as passed or as failed; a failing key adds exactly
   * one message, to `errors` when it is critical and to `warnings` otherwise.
   */
  lemma {:induction false} TallyAccounts(items: map<string, string>, parse: string -> Result<Json>, ks: seq<ExpectedKey>)
    ensures var r := Tally(items, parse, ks);
      && r.available
      && r.tested == |ks| && r.passed + r.failed == r.tested
      && r.passed == PassCount(items, parse, ks)
      && r.errors == Messages(items, parse, Failing(items, parse, ks, true))
      && r.warnings == Messages(items, parse, Failing(items, parse, ks, false))
      && |r.errors| + |r.warnings| == r.failed
  {
    if |ks| == 0 {
      assert Failing(items, parse, ks, true) == [] && Failing(items, parse, ks, false) == [];
    } else {
      var p, ek := ks[..|ks| - 1], ks[|ks| - 1];
      assert ks == p + [ek];
      TallyAccounts(items, parse, p);
      var t := TestKey(StoredIn(items, ek.name), parse, ek);
      RecordStep(Tally(items, parse, p), ek, t);
      FailingStep(items, parse, p, ek, true);
      FailingStep(items, parse, p, ek, false);
    }
  }

  /** `testLocalStorage`'s result: nothing when the store is absent, else the tally of the five keys. */
  function StorageReport(available: bool, items: map<string, string>, parse: string -> Result<Json>): StorageResults {
    if available then Tally(items, parse, ExpectedKeys) else NoResults
  }

  /** With a store, five keys are tested and each ends up passed or failed. */
  lemma StorageReportCounts(available: bool, items: map<string, string>, parse: string -> Result<Json>)
    ensures var r := StorageReport(available, items, parse);
      && r.available == available
      && r.tested == (if available then 5 else 0)
      && r.passed + r.failed == r.tested
      && |r.errors| + |r.warnings| == r.failed
  {
    TallyAccounts(items, parse, ExpectedKeys);
  }

  /** A missing critical key puts its "Missing (CRITICAL)" line into `errors`. */
  lemma MissingCriticalReported(items: map<string, string>, parse: string -> Result<Json>, ek: ExpectedKey)
    requires ek in ExpectedKeys && ek.critical && ek.name !in items
    ensures ek.name + ": Missing (CRITICAL)" in StorageReport(true, items, parse).errors
  {
    TallyAccounts(items, parse, ExpectedKeys);
    MissingInFailing(items, parse, ExpectedKeys, ek);
  }

  lemma {:induction false} MissingInFailing(items: map<string, string>, parse: string -> Result<Json>, ks: seq<ExpectedKey>, ek: ExpectedKey)
    requires ek in ks && ek.critical && ek.name !in items
    ensures ek.name + ": Missing (CRITICAL)" in Messages(items, parse, Failing(items, parse, ks, true))
  {
    if ks[0] == ek {
    } else {
      MissingInFailing(items, parse, ks[1..], ek);
      var rest := Failing(items, parse, ks[1..], true);
      if ks[0].critical && !TestKey(StoredIn(items, ks[0].name), parse, ks[0]).valid {
        MessagesAppend(items, parse, [ks[0]], rest);
      }
    }
  }

  lemma TallyPrefix(items: map<string, string>, parse: string -> Result<Json>, ks: seq<ExpectedKey>, i: nat)
    requires i < |ks|
    ensures Tally(items, parse, ks[..i + 1]) ==
      Record(Tally(items, parse, ks[..i]), ks[i], TestKey(StoredIn(items, ks[i].name), parse, ks[i]))
  {
    assert ks[..i + 1][..i] == ks[..i];
  }

  /** `testLocalStorage`, with `typeof localStorage === 'undefined'` as `available` false. */
  method TestLocalStorage(available: bool, ls: LocalStorage, parse: string -> Result<Json>) returns (r: StorageResults)
    ensures r == StorageReport(available, ls.items, parse)
  {
    if !available {
      return NoResults;
    }
    r := TestKeys(ls, parse, ExpectedKeys);
  }

  /** The `forEach` over the expected keys. */
  method TestKeys(ls: LocalStorage, parse: string -> Result<Json>, ks: seq<ExpectedKey>) returns (r: StorageResults)
    ensures r == Tally(ls.items, parse, ks)
  {
    r := NoResults.(available := true);
    var i := 0;
    while i < |ks|
      invariant 0 <= i <= |ks|
      invariant r == Tally(ls.items, parse, ks[..i])
    {
      var ek := ks[i];
      var raw := ls.GetItem(ek.name);
      var t := TestKey(raw, parse, ek);
      TallyPrefix(ls.items, parse, ks, i);
      ghost var r0 := r;
      r := r.(tested := r.tested + 1);
      if t.present {
        r := r.(keys := r.keys + [KeyRecord(ek.name, t)]);
        if t.valid {
          r := r.(passed := r.passed + 1);
        } else {
          r := r.(failed := r.failed + 1);
          if ek.critical {
            r := r.(errors := r.errors + [ek.name + ": " + t.error.GetOr("null")]);
          } else {
            r := r.(warnings := r.warnings + [ek.name + ": " + t.error.GetOr("null")]);
          }
        }
      } else {
        r := r.(failed := r.failed + 1);
        if ek.critical {
          r := r.(errors := r.errors + [ek.name + ": Missing (CRITICAL)"]);
        } else {
          r := r.(warnings := r.warnings + [ek.name + ": Missing (optional)"]);
        }
      }
      assert r == Record(r0, ek, t);
      i := i + 1;
    }
    assert ks[..i] == ks;
  }
}
