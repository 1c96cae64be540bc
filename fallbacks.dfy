/**
 * `debug/debug-fallbacks.js`: the repairs the diagnostic tool can make -- rewriting
 * missing or unparsable storage keys with defaults, adding hidden placeholder elements
 * for missing ids and removing them again, assigning stub functions onto a module
 * object, and installing a stub `window.Chart`.
 */
module Fallbacks {
  import opened Wrappers
  import opened Json
  import opened OrderedSet
  import opened Browser
  import opened Storage

  /** `keysToCheck`. */
  const RepairKeys: seq<string> := [DailyKey, SettingsKey, LimitsKey, EconomyKey, WarnKey]

  // ------------------------------------------------------------------ defaults

  const SettingsDefault: Json := JObj([
    ("modules", JObj([("cigs", JBool(true)), ("weed", JBool(true)), ("alcohol", JBool(true))])),
    ("prices", JObj([("cigs", JNum(10.0)), ("weed", JNum(5.0)), ("beer", JNum(2.5)), ("fort", JNum(15.0)), ("liqueur", JNum(20.0))]))])

  const LimitsDefault: Json := JObj([
    ("cigs", JNum(20.0)), ("weed", JNum(3.0)), ("alcohol_biere", JNum(2.0)),
    ("alcohol_fort", JNum(1.0)), ("alcohol_liqueur", JNum(1.0))])

  const EconomyDefault: Json := JObj([("enabled", JBool(false)), ("baseline", JObj([]))])

  /** The warning state's default; `now` is `new Date().toISOString()`. */
  function WarnDefault(now: string): Json {
    JObj([("accepted", JBool(false)), ("hide", JBool(false)), ("timestamp", JStr(now))])
  }

  /**
   * `getDefaultValue`: the default of a known key, `{}` for any other key the callers
   * pass. A key naming an inherited object member (such as "constructor") would yield
   * that member instead; no caller passes one.
   */
  function DefaultValue(key: string, now: string): (v: Json)
    ensures key !in RepairKeys ==> v == JObj([])
    ensures v.JObj?
  {
    if key == DailyKey then JObj([])
    else if key == SettingsKey then SettingsDefault
    else if key == LimitsKey then LimitsDefault
    else if key == EconomyKey then EconomyDefault
    else if key == WarnKey then WarnDefault(now)
    else JObj([])
  }

  lemma SettingsDefaultValid()
    ensures ValidateSettings(SettingsDefault) == Ok(Valid(None))
  {
    assert Get(SettingsDefault, "modules").Some? && Get(SettingsDefault, "prices").Some?;
  }

  lemma LimitsDefaultValid()
    ensures ValidateLimits(LimitsDefault) == Ok(Valid(None))
  {
  }

  lemma EconomyDefaultValid()
    ensures ValidateEconomy(EconomyDefault) == Ok(Valid(None))
  {
    assert Get(EconomyDefault, "enabled") == Some(JBool(false));
  }

  lemma WarnDefaultValid(now: string)
    ensures ValidateWarn(WarnDefault(now)) == Ok(Valid(None))
  {
    var w := WarnDefault(now);
    var ms := w.members;
    var tail, last := ms[1..], ms[2..];
    assert tail == [("hide", JBool(false)), ("timestamp", JStr(now))] && tail[1..] == last;
    assert last == [("timestamp", JStr(now))];
    assert Lookup(last, "timestamp") == Some(JStr(now));
    assert "hide" != "timestamp" && Lookup(tail, "timestamp") == Some(JStr(now));
    assert Lookup(tail, "hide") == Some(JBool(false));
    assert "accepted" != "hide" && "accepted" != "timestamp";
    assert Get(w, "accepted") == Some(JBool(false));
    assert Get(w, "hide") == Some(JBool(false));
    assert Get(w, "timestamp") == Some(JStr(now));
    assert forall i :: 0 <= i < |WarnFields| ==> Holds(w, WarnFields[i]);
  }

  /** Every default has the expected type and passes its key's validator. */
  lemma DefaultsPass(ek: ExpectedKey, now: string)
    requires ek in ExpectedKeys
    ensures TypeName(DefaultValue(ek.name, now)) == ek.typ
    ensures ValidateKeyContent(ek.name, DefaultValue(ek.name, now)).Ok?
    ensures ValidateKeyContent(ek.name, DefaultValue(ek.name, now)).value.Valid?
  {
    assert ek.typ == "object";
    var v := DefaultValue(ek.name, now);
    if ek.name == SettingsKey {
      assert v == SettingsDefault;
      SettingsDefaultValid();
    } else if ek.name == LimitsKey {
      assert v == LimitsDefault;
      LimitsDefaultValid();
    } else if ek.name == EconomyKey {
      assert v == EconomyDefault;
      EconomyDefaultValid();
    } else if ek.name == WarnKey {
      assert v == WarnDefault(now);
      WarnDefaultValid(now);
    } else {
      assert ek.name == DailyKey && v == JObj([]);
    }
  }

  /** A codec whose `parse` reads back what `stringify` wrote. */
  predicate RoundTrips(codec: JsonCodec, v: Json) {
    codec.parse(codec.stringify(v)) == Ok(v)
  }

  /** A key rewritten with its default passes `testKey`, when the codec reads the default back. */
  lemma DefaultPassesTest(ek: ExpectedKey, codec: JsonCodec, now: string)
    requires ek in ExpectedKeys && RoundTrips(codec, DefaultValue(ek.name, now))
    ensures TestKey(Some(codec.stringify(DefaultValue(ek.name, now))), codec.parse, ek).valid
  {
    DefaultsPass(ek, now);
    TestKeyValidIff(Some(codec.stringify(DefaultValue(ek.name, now))), codec.parse, ek);
  }

  // ------------------------------------------------------------------ repairLocalStorage

  datatype RepairResult = RepairResult(available: bool, repaired: seq<string>, failed: seq<string>, errors: seq<string>)

  /** The store's contents together with the result so far. */
  datatype Repair = Repair(items: map<string, string>, result: RepairResult)

  const NoStorage: string := "localStorage not available"

  /** The message of the `QuotaExceededError` a rejected `setItem` throws. */
  function QuotaError(key: string): string {
    QuotaHead + key + QuotaTail
  }

  const QuotaHead: string := "Failed to execute 'setItem' on 'Storage': Setting the value of '"
  const QuotaTail: string := "' exceeded the quota."

  /** A key is rewritten when it is missing or does not parse. */
  predicate NeedsRepair(items: map<string, string>, parse: string -> Result<Json>, key: string) {
    key !in items || parse(items[key]).Err?
  }

  /** One iteration of the loop over `keysToCheck`. */
  function RepairStep(st: Repair, key: string, codec: JsonCodec, fits: map<string, string> -> bool, now: string): Repair {
    if !NeedsRepair(st.items, codec.parse, key) then st
    else Rewrite(st, key, codec.stringify(DefaultValue(key, now)), fits)
  }

  /** The `setItem` of a repair: the new text is stored if it fits, else the key is reported. */
  function Rewrite(st: Repair, key: string, text: string, fits: map<string, string> -> bool): Repair {
    var next := st.items[key := text];
    if fits(next) then Repair(next, st.result.(repaired := st.result.repaired + [key]))
    else Repair(st.items, st.result.(failed := st.result.failed + [key],
                                     errors := st.result.errors + [key + ": " + QuotaError(key)]))
  }

  lemma RewriteFrame(st: Repair, e: string, text: string, fits: map<string, string> -> bool)
    ensures var nx := Rewrite(st, e, text, fits);
      && nx.result.available == st.result.available
      && (forall k :: k != e ==> SameAt(nx.items, st.items, k))
      && (forall k :: k in nx.result.repaired ==> k in st.result.repaired || k == e)
      && (forall k :: k in nx.result.failed ==> k in st.result.failed || k == e)
      && |nx.result.errors| - |nx.result.failed| == |st.result.errors| - |st.result.failed|
  {
  }

  const Started: RepairResult := RepairResult(true, [], [], [])

  /** The state after the loop has visited `ks`. */
  function RepairRun(items: map<string, string>, codec: JsonCodec, fits: map<string, string> -> bool, now: string, ks: seq<string>): Repair {
    if |ks| == 0 then Repair(items, Started)
    else RepairStep(RepairRun(items, codec, fits, now, ks[..|ks| - 1]), ks[|ks| - 1], codec, fits, now)
  }

  /** `repairLocalStorage`, with `typeof localStorage === 'undefined'` as `available` false. */
  function RepairSpec(available: bool, items: map<string, string>, codec: JsonCodec, fits: map<string, string> -> bool, now: string): Repair {
    if available then RepairRun(items, codec, fits, now, RepairKeys)
    else Repair(items, RepairResult(false, [], [], [NoStorage]))
  }

  /** The two maps agree at k. */
  predicate SameAt(a: map<string, string>, b: map<string, string>, k: string) {
    (k in a <==> k in b) && (k in a ==> a[k] == b[k])
  }

  /** One step writes at most its own key and reports at most its own key. */
  lemma StepFrame(st: Repair, e: string, codec: JsonCodec, fits: map<string, string> -> bool, now: string)
    ensures var nx := RepairStep(st, e, codec, fits, now);
      && nx.result.available == st.result.available
      && (forall k :: k != e ==> SameAt(nx.items, st.items, k))
      && (forall k :: k in nx.result.repaired ==> k in st.result.repaired || k == e)
      && (forall k :: k in nx.result.failed ==> k in st.result.failed || k == e)
      && |nx.result.errors| - |nx.result.failed| == |st.result.errors| - |st.result.failed|
  {
    if NeedsRepair(st.items, codec.parse, e) {
      RewriteFrame(st, e, codec.stringify(DefaultValue(e, now)), fits);
    }
  }

  /** Only the visited keys are written, and only visited keys are reported. */
  lemma {:induction false} RunFrame(items: map<string, string>, codec: JsonCodec, fits: map<string, string> -> bool, now: string, ks: seq<string>)
    ensures var st := RepairRun(items, codec, fits, now, ks);
      && st.result.available
      && (forall k :: k !in ks ==> SameAt(st.items, items, k))
      && (forall k :: k in st.result.repaired ==> k in ks)
      && (forall k :: k in st.result.failed ==> k in ks)
      && |st.result.errors| == |st.result.failed|
  {
    if |ks| > 0 {
      var p := ks[..|ks| - 1];
      assert ks == p + [ks[|ks| - 1]];
      RunFrame(items, codec, fits, now, p);
      StepFrame(RepairRun(items, codec, fits, now, p), ks[|ks| - 1], codec, fits, now);
    }
  }

  /**
   * What happened to one visited key: one that parsed is left as it was, even if its
   * content is invalid; one that was missing or did not parse is either rewritten with its
   * default and listed in `repaired`, or, when the write did not fit, left as it was and
   * listed in `failed`.
   */
  predicate KeyOutcome(before: map<string, string>, st: Repair, parse: string -> Result<Json>, stringify: Json -> string, now: string, k: string) {
    if !NeedsRepair(before, parse, k) then
      SameAt(st.items, before, k) && k !in st.result.repaired && k !in st.result.failed
    else
      && (k in st.result.repaired <==> k !in st.result.failed)
      && (k in st.result.repaired ==> k in st.items && st.items[k] == stringify(DefaultValue(k, now)))
      && (k in st.result.failed ==> SameAt(st.items, before, k))
  }

  /** The step on k itself settles k's outcome. */
  lemma StepOnKey(items: map<string, string>, st: Repair, codec: JsonCodec, fits: map<string, string> -> bool, now: string, k: string)
    requires SameAt(st.items, items, k) && k !in st.result.repaired && k !in st.result.failed
    ensures KeyOutcome(items, RepairStep(st, k, codec, fits, now), codec.parse, codec.stringify, now, k)
  {
    if NeedsRepair(items, codec.parse, k) {
      var text := codec.stringify(DefaultValue(k, now));
      var nx := Rewrite(st, k, text, fits);
      if fits(st.items[k := text]) {
        assert nx.items == st.items[k := text] && k in nx.result.repaired;
      } else {
        assert nx.items == st.items && k in nx.result.failed;
      }
    }
  }

  /** A step on another key keeps k's outcome. */
  lemma StepOffKey(items: map<string, string>, st: Repair, codec: JsonCodec, fits: map<string, string> -> bool, now: string, k: string, e: string)
    requires k != e && KeyOutcome(items, st, codec.parse, codec.stringify, now, k)
    ensures KeyOutcome(items, RepairStep(st, e, codec, fits, now), codec.parse, codec.stringify, now, k)
  {
    StepFrame(st, e, codec, fits, now);
  }

  lemma {:induction false} RunKey(items: map<string, string>, codec: JsonCodec, fits: map<string, string> -> bool, now: string, ks: seq<string>, k: string)
    requires NoDup(ks) && k in ks
    ensures KeyOutcome(items, RepairRun(items, codec, fits, now, ks), codec.parse, codec.stringify, now, k)
  {
    var p, e := ks[..|ks| - 1], ks[|ks| - 1];
    assert ks == p + [e];
    var st := RepairRun(items, codec, fits, now, p);
    if k == e {
      assert k !in p by {
        assert forall i :: 0 <= i < |p| ==> p[i] == ks[i];
      }
      RunFrame(items, codec, fits, now, p);
      StepOnKey(items, st, codec, fits, now, k);
    } else {
      assert NoDup(p) by {
        assert forall i :: 0 <= i < |p| ==> p[i] == ks[i];
      }
      RunKey(items, codec, fits, now, p, k);
      StepOffKey(items, st, codec, fits, now, k, e);
    }
  }

  /** The five keys are distinct. */
  lemma RepairKeysDistinct()
    ensures NoDup(RepairKeys)
  {
  }

  /** Per key, what the repair pass does to the store. */
  lemma RepairPerKey(items: map<string, string>, codec: JsonCodec, fits: map<string, string> -> bool, now: string, k: string)
    requires k in RepairKeys
    ensures KeyOutcome(items, RepairSpec(true, items, codec, fits, now), codec.parse, codec.stringify, now, k)
  {
    RepairKeysDistinct();
    RunKey(items, codec, fits, now, RepairKeys, k);
  }

  /** No other key of the store is touched. */
  lemma RepairFrame(available: bool, items: map<string, string>, codec: JsonCodec, fits: map<string, string> -> bool, now: string, k: string)
    requires k !in RepairKeys
    ensures SameAt(RepairSpec(available, items, codec, fits, now).items, items, k)
  {
    RunFrame(items, codec, fits, now, RepairKeys);
  }

  /** A pass over keys that all parse changes nothing and reports nothing. */
  lemma {:induction false} RunNothingToDo(items: map<string, string>, codec: JsonCodec, fits: map<string, string> -> bool, now: string, ks: seq<string>)
    requires forall k :: k in ks ==> !NeedsRepair(items, codec.parse, k)
    ensures RepairRun(items, codec, fits, now, ks) == Repair(items, Started)
  {
    if |ks| > 0 {
      RunNothingToDo(items, codec, fits, now, ks[..|ks| - 1]);
    }
  }

  /**
   * Repair is idempotent: after a pass in which no write failed, with a codec that reads
   * the defaults back, a second pass repairs nothing and leaves the store as it is.
   */
  lemma RepairIdempotent(items: map<string, string>, codec: JsonCodec, fits: map<string, string> -> bool, now: string)
    requires forall k :: k in RepairKeys ==> RoundTrips(codec, DefaultValue(k, now))
    requires RepairSpec(true, items, codec, fits, now).result.failed == []
    ensures var once := RepairSpec(true, items, codec, fits, now);
      RepairSpec(true, once.items, codec, fits, now) == Repair(once.items, Started)
  {
    var once := RepairSpec(true, items, codec, fits, now);
    forall k | k in RepairKeys
      ensures !NeedsRepair(once.items, codec.parse, k)
    {
      RepairPerKey(items, codec, fits, now, k);
    }
    RunNothingToDo(once.items, codec, fits, now, RepairKeys);
  }

  lemma RunPrefix(items: map<string, string>, codec: JsonCodec, fits: map<string, string> -> bool, now: string, ks: seq<string>, i: nat)
    requires i < |ks|
    ensures RepairRun(items, codec, fits, now, ks[..i + 1]) == RepairStep(RepairRun(items, codec, fits, now, ks[..i]), ks[i], codec, fits, now)
  {
    assert ks[..i + 1][..i] == ks[..i];
  }

  /** `repairLocalStorage` as it runs: read, parse, and on failure write the default. */
  method RepairLocalStorage(available: bool, ls: LocalStorage, codec: JsonCodec, now: string) returns (r: RepairResult)
    modifies ls
    ensures Repair(ls.items, r) == RepairSpec(available, old(ls.items), codec, ls.fits, now)
  {
    if !available {
      return RepairResult(false, [], [], [NoStorage]);
    }
    r := RepairAll(ls, codec, now, RepairKeys);
  }

  /** The `forEach` over the keys to check. */
  method RepairAll(ls: LocalStorage, codec: JsonCodec, now: string, ks: seq<string>) returns (r: RepairResult)
    modifies ls
    ensures Repair(ls.items, r) == RepairRun(old(ls.items), codec, ls.fits, now, ks)
  {
    r := Started;
    var i := 0;
    while i < |ks|
      invariant 0 <= i <= |ks|
      invariant Repair(ls.items, r) == RepairRun(old(ls.items), codec, ls.fits, now, ks[..i])
    {
      var key := ks[i];
      RunPrefix(old(ls.items), codec, ls.fits, now, ks, i);
      ghost var st0 := Repair(ls.items, r);
      var value := ls.GetItem(key);
      if value.None? || codec.parse(value.value).Err? {
        var ok := ls.SetItem(key, codec.stringify(DefaultValue(key, now)));
        if ok {
          r := r.(repaired := r.repaired + [key]);
        } else {
          r := r.(failed := r.failed + [key], errors := r.errors + [key + ": " + QuotaError(key)]);
        }
      }
      assert Repair(ls.items, r) == RepairStep(st0, key, codec, ls.fits, now);
      i := i + 1;
    }
    assert ks[..i] == ks;
  }

  // ------------------------------------------------------------------ missing elements

  datatype CreateResult = CreateResult(created: seq<string>, failed: seq<string>, errors: seq<string>)

  const NothingCreated: CreateResult := CreateResult([], [], [])

  /** The hidden, tagged `div` created for a missing id. */
  function Placeholder(id: string): (e: Element)
    ensures e.id == id && e.fallbackMark && !IsVisible(e)
  {
    Element(id, "DIV", "debug-fallback", "none", "visible", "1", true)
  }

  function Placeholders(ids: seq<string>): (es: seq<Element>)
    ensures |es| == |ids|
    ensures forall i :: 0 <= i < |ids| ==> es[i] == Placeholder(ids[i])
  {
    seq(|ids|, i requires 0 <= i < |ids| => Placeholder(ids[i]))
  }

  /** The message when `document.body` is null. */
  function NoBodyErrors(ids: seq<string>): (ms: seq<string>)
    ensures |ms| == |ids|
    ensures forall i :: 0 <= i < |ids| ==> ms[i] == ids[i] + ": " + NullRead("appendChild")
  {
    seq(|ids|, i requires 0 <= i < |ids| => ids[i] + ": " + NullRead("appendChild"))
  }

  /**
   * `createMissingElements`; a value that is not an array is None. Nothing happens for
   * it or for an empty list; otherwise each id gets its placeholder at the end of the
   * body, in order, or, with no body, every id fails.
   */
  method CreateMissingElements(doc: Document, missingIds: Option<seq<string>>) returns (r: CreateResult)
    modifies doc
    ensures missingIds.None? || missingIds.value == [] ==> r == NothingCreated && doc.elements == old(doc.elements)
    ensures missingIds.Some? && doc.hasBody ==>
      doc.elements == old(doc.elements) + Placeholders(missingIds.value) && r == CreateResult(missingIds.value, [], [])
    ensures missingIds.Some? && !doc.hasBody ==>
      doc.elements == old(doc.elements) && r == CreateResult([], missingIds.value, NoBodyErrors(missingIds.value))
  {
    if missingIds.None? || |missingIds.value| == 0 {
      return NothingCreated;
    }
    var ids := missingIds.value;
    r := NothingCreated;
    var i := 0;
    while i < |ids|
      invariant 0 <= i <= |ids|
      invariant doc.hasBody ==> doc.elements == old(doc.elements) + Placeholders(ids[..i]) && r == CreateResult(ids[..i], [], [])
      invariant !doc.hasBody ==> doc.elements == old(doc.elements) && r == CreateResult([], ids[..i], NoBodyErrors(ids[..i]))
    {
      var ok := doc.AppendChild(Placeholder(ids[i]));
      assert ids[..i + 1] == ids[..i] + [ids[i]];
      if ok {
        assert Placeholders(ids[..i + 1]) == Placeholders(ids[..i]) + [Placeholder(ids[i])];
        r := r.(created := r.created + [ids[i]]);
      } else {
        assert NoBodyErrors(ids[..i + 1]) == NoBodyErrors(ids[..i]) + [ids[i] + ": " + NullRead("appendChild")];
        r := r.(failed := r.failed + [ids[i]], errors := r.errors + [ids[i] + ": " + NullRead("appendChild")]);
      }
      i := i + 1;
    }
    assert ids[..i] == ids;
  }

  /** After the placeholders are added, `getElementById` finds every non-empty id they carry. */
  lemma PlaceholdersFound(els: seq<Element>, ids: seq<string>, id: string)
    requires id in ids && id != ""
    ensures FirstWithId(els + Placeholders(ids), id).Some?
  {
    var i :| 0 <= i < |ids| && ids[i] == id;
    assert (els + Placeholders(ids))[|els| + i].id == id;
  }

  // ------------------------------------------------------------------ cleanup

  /** The elements without the `data-debug-fallback="true"` mark, in document order. */
  function Unmarked(els: seq<Element>): (r: seq<Element>)
    ensures |r| <= |els|
    ensures forall i :: 0 <= i < |r| ==> !r[i].fallbackMark
  {
    if |els| == 0 then []
    else Unmarked(els[..|els| - 1]) + if els[|els| - 1].fallbackMark then [] else [els[|els| - 1]]
  }

  /** Cleanup only removes: every element left was in the document. */
  lemma {:induction false} UnmarkedWithin(els: seq<Element>)
    ensures forall e :: e in Unmarked(els) ==> e in els
  {
    if |els| > 0 {
      UnmarkedWithin(els[..|els| - 1]);
      assert els == els[..|els| - 1] + [els[|els| - 1]];
    }
  }

  function MarkedCount(els: seq<Element>): (n: nat)
    ensures n + |Unmarked(els)| == |els|
  {
    if |els| == 0 then 0
    else MarkedCount(els[..|els| - 1]) + if els[|els| - 1].fallbackMark then 1 else 0
  }

  lemma {:induction false} UnmarkedAppend(a: seq<Element>, b: seq<Element>)
    ensures Unmarked(a + b) == Unmarked(a) + Unmarked(b)
  {
    if |b| == 0 {
      assert a + b == a;
    } else {
      var c := b[..|b| - 1];
      assert (a + b)[..|a + b| - 1] == a + c;
      UnmarkedAppend(a, c);
    }
  }

  lemma {:induction false} UnmarkedOfMarked(es: seq<Element>)
    requires forall i :: 0 <= i < |es| ==> es[i].fallbackMark
    ensures Unmarked(es) == []
  {
    if |es| > 0 {
      UnmarkedOfMarked(es[..|es| - 1]);
    }
  }

  lemma {:induction false} UnmarkedOfUnmarked(es: seq<Element>)
    requires forall i :: 0 <= i < |es| ==> !es[i].fallbackMark
    ensures Unmarked(es) == es
  {
    if |es| > 0 {
      UnmarkedOfUnmarked(es[..|es| - 1]);
      assert es == es[..|es| - 1] + [es[|es| - 1]];
    }
  }

  /**
   * Cleanup undoes element creation: in a document that had no placeholders, removing the
   * marked elements after the placeholders were added gives back the document as it was.
   */
  lemma CleanupUndoesCreate(els: seq<Element>, ids: seq<string>)
    requires forall i :: 0 <= i < |els| ==> !els[i].fallbackMark
    ensures Unmarked(els + Placeholders(ids)) == els
  {
    UnmarkedAppend(els, Placeholders(ids));
    UnmarkedOfMarked(Placeholders(ids));
    UnmarkedOfUnmarked(els);
  }

  lemma UnmarkedPrefix(s: seq<Element>, i: nat)
    requires i < |s|
    ensures Unmarked(s[..i + 1]) == Unmarked(s[..i]) + if s[i].fallbackMark then [] else [s[i]]
    ensures MarkedCount(s[..i + 1]) == MarkedCount(s[..i]) + if s[i].fallbackMark then 1 else 0
  {
    assert s[..i + 1][..i] == s[..i];
  }

  /** The document while the loop runs: the kept prefix, then the elements not yet visited. */
  lemma SplitAt(u: seq<Element>, s: seq<Element>, i: nat)
    requires i < |s|
    ensures (u + s[i..])[..|u|] == u && (u + s[i..])[|u| + 1..] == s[i + 1..] && (u + s[i..])[|u|] == s[i]
    ensures u + s[i..] == (u + [s[i]]) + s[i + 1..]
  {
  }

  /** The document after the cleanup loop has visited the first i elements of s. */
  function Cleaned(s: seq<Element>, i: nat): seq<Element>
    requires i <= |s|
  {
    Unmarked(s[..i]) + s[i..]
  }

  lemma CleanedNone(s: seq<Element>)
    ensures Cleaned(s, 0) == s && MarkedCount(s[..0]) == 0 && |Unmarked(s[..0])| == 0
  {
    assert s[..0] == [] && s[0..] == s;
  }

  lemma CleanedAll(s: seq<Element>)
    ensures Cleaned(s, |s|) == Unmarked(s) && MarkedCount(s[..|s|]) == MarkedCount(s)
  {
    assert s[..|s|] == s && s[|s|..] == [];
  }

  /**
   * One visit of the cleanup loop: the visited element sits just after the kept ones, and
   * removing it (when marked) or skipping it gives the document one step further.
   */
  lemma CleanupStep(s: seq<Element>, i: nat)
    requires i < |s|
    ensures var d, u := Cleaned(s, i), Unmarked(s[..i]);
      && |u| < |d| && d[|u|] == s[i]
      && (s[i].fallbackMark ==> d[..|u|] + d[|u| + 1..] == Cleaned(s, i + 1) && |Unmarked(s[..i + 1])| == |u|)
      && (!s[i].fallbackMark ==> d == Cleaned(s, i + 1) && |Unmarked(s[..i + 1])| == |u| + 1)
      && MarkedCount(s[..i + 1]) == MarkedCount(s[..i]) + (if s[i].fallbackMark then 1 else 0)
  {
    var u := Unmarked(s[..i]);
    UnmarkedPrefix(s, i);
    SplitAt(u, s, i);
    if s[i].fallbackMark {
      assert Unmarked(s[..i + 1]) == u;
    } else {
      assert Unmarked(s[..i + 1]) == u + [s[i]];
    }
  }

  datatype CleanupResult = CleanupResult(cleaned: nat, errors: seq<string>)

  /** `cleanupFallbacks`: removes exactly the marked elements and counts them. */
  method CleanupFallbacks(doc: Document) returns (r: CleanupResult)
    modifies doc
    ensures doc.elements == Unmarked(old(doc.elements))
    ensures r == CleanupResult(MarkedCount(old(doc.elements)), [])
  {
    var snapshot := doc.elements;
    var i, j, cleaned := 0, 0, 0;
    CleanedNone(snapshot);
    while i < |snapshot|
      invariant 0 <= i <= |snapshot|
      invariant j == |Unmarked(snapshot[..i])| && cleaned == MarkedCount(snapshot[..i])
      invariant doc.elements == Cleaned(snapshot, i)
    {
      CleanupStep(snapshot, i);
      if snapshot[i].fallbackMark {
        doc.Remove(j);
        cleaned := cleaned + 1;
      } else {
        j := j + 1;
      }
      i := i + 1;
    }
    CleanedAll(snapshot);
    r := CleanupResult(cleaned, []);
  }

  // ------------------------------------------------------------------ function stubs

  datatype StubResult = StubResult(created: seq<string>, failed: seq<string>, errors: seq<string>)

  const NoStubs: StubResult := StubResult([], [], [])

  /** The TypeError message of an assignment to a module namespace. */
  function ReadOnlyError(name: string): string {
    name + ": Cannot assign to read only property '" + name + "' of object '[object Module]'"
  }

  function ReadOnlyErrors(names: seq<string>): (ms: seq<string>)
    ensures |ms| == |names|
    ensures forall i :: 0 <= i < |names| ==> ms[i] == ReadOnlyError(names[i])
  {
    seq(|names|, i requires 0 <= i < |names| => ReadOnlyError(names[i]))
  }

  /** The properties after a stub was assigned for each name in turn. */
  function Stubbed(props: map<string, Member>, names: seq<string>): map<string, Member> {
    if |names| == 0 then props
    else Stubbed(props, names[..|names| - 1])[names[|names| - 1] := StubFn(names[|names| - 1])]
  }

  /** Every named property now holds its stub, overwriting what was there; the rest are kept. */
  lemma {:induction false} StubbedMeaning(props: map<string, Member>, names: seq<string>, k: string)
    ensures k in Stubbed(props, names) <==> k in props || k in names
    ensures k in names ==> Stubbed(props, names)[k] == StubFn(k)
    ensures k !in names && k in props ==> Stubbed(props, names)[k] == props[k]
  {
    if |names| > 0 {
      var p := names[..|names| - 1];
      assert names == p + [names[|names| - 1]];
      StubbedMeaning(props, p, k);
    }
  }

  /**
   * `createFunctionStubs`; a falsy module and a value that is not an array are None. An ES
   * module namespace is not writable, so every assignment onto it throws.
   */
  method CreateFunctionStubs(target: Option<ModuleObject>, names: Option<seq<string>>) returns (r: StubResult)
    modifies if target.Some? then {target.value} else {}
    ensures target.None? || names.None? || names.value == [] ==> r == NoStubs
    ensures target.Some? && (names.None? || names.value == []) ==> target.value.props == old(target.value.props)
    ensures target.Some? && names.Some? && target.value.writable ==>
      target.value.props == Stubbed(old(target.value.props), names.value) && r == StubResult(names.value, [], [])
    ensures target.Some? && names.Some? && !target.value.writable ==>
      target.value.props == old(target.value.props) && r == StubResult([], names.value, ReadOnlyErrors(names.value))
  {
    if target.None? || names.None? || |names.value| == 0 {
      return NoStubs;
    }
    var m, ns := target.value, names.value;
    r := NoStubs;
    var i := 0;
    while i < |ns|
      invariant 0 <= i <= |ns|
      invariant m.writable ==> m.props == Stubbed(old(m.props), ns[..i]) && r == StubResult(ns[..i], [], [])
      invariant !m.writable ==> m.props == old(m.props) && r == StubResult([], ns[..i], ReadOnlyErrors(ns[..i]))
    {
      var ok := m.Assign(ns[i], StubFn(ns[i]));
      assert ns[..i + 1][..i] == ns[..i];
      if ok {
        r := r.(created := r.created + [ns[i]]);
      } else {
        assert ReadOnlyErrors(ns[..i + 1]) == ReadOnlyErrors(ns[..i]) + [ReadOnlyError(ns[i])];
        r := r.(failed := r.failed + [ns[i]], errors := r.errors + [ReadOnlyError(ns[i])]);
      }
      i := i + 1;
    }
    assert ns[..i] == ns;
  }

  // ------------------------------------------------------------------ Chart.js

  datatype ChartFallbackResult = ChartFallbackResult(created: bool, error: Option<string>)

  /** The stub constructor, whose `version` is "stub". */
  const ChartStub: ChartGlobal := ChartGlobal(Some("stub"), true)

  /** `createChartFallback`: a defined `window.Chart` is left alone. */
  method CreateChartFallback(w: Window) returns (r: ChartFallbackResult)
    modifies w
    ensures old(w.chart).Some? ==> w.chart == old(w.chart) && r == ChartFallbackResult(false, None)
    ensures old(w.chart).None? ==> w.chart == Some(ChartStub) && r == ChartFallbackResult(true, None)
  {
    if w.chart.Some? {
      return ChartFallbackResult(false, None);
    }
    w.chart := Some(ChartStub);
    r := ChartFallbackResult(true, None);
  }
}
