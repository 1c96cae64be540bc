/**
 * The debug logger: a history of timestamped entries capped at 50 (the oldest entry is
 * evicted), persisted under `SA_DEBUG_HISTORY` with a fall-back to the last 10
 * entries when the storage quota is exceeded, a list of subscribed listeners that
 * are notified of every entry, and per-level statistics.
 *
 * The clock is a parameter (`Moment`), JSON (de)serialisation of the history is an
 * oracle (`HistoryCodec`), and calling a listener is recorded in `calls`.
 */
module Logger {
  import opened Wrappers
  import opened Json
  import opened Text
  import OrderedSet
  import opened Browser

  const MaxHistorySize: nat := 50
  const StorageKey: string := "SA_DEBUG_HISTORY"
  /** How many entries survive a `QuotaExceededError`. */
  const QuotaKeep: nat := 10

  const DefaultIcon: string := "📝"
  const DefaultColor: string := "#6b7280"

  datatype LevelStyle = LevelStyle(icon: string, color: string)

  /** The five known levels and their presentation. */
  function Style(level: string): (st: Option<LevelStyle>)
    ensures st.Some? <==> level in KnownLevels
  {
    if level == "INFO" then Some(LevelStyle("ℹ️", "#3b82f6"))
    else if level == "SUCCESS" then Some(LevelStyle("✅", "#22c55e"))
    else if level == "WARNING" then Some(LevelStyle("⚠️", "#f59e0b"))
    else if level == "ERROR" then Some(LevelStyle("❌", "#ef4444"))
    else if level == "DEBUG" then Some(LevelStyle("🔍", "#8b5cf6"))
    else None
  }

  const KnownLevels: set<string> := {"INFO", "SUCCESS", "WARNING", "ERROR", "DEBUG"}

  /** A reading of the clock: its ISO rendering and its local hours, minutes and seconds. */
  datatype Moment = Moment(iso: string, hours: nat, minutes: nat, seconds: nat)

  datatype Entry = Entry(
    timestamp: string, time: string, level: string, message: string, data: Json,
    icon: string, color: string)

  /** A value passed to `addListener`: a function (identified by `id`, possibly throwing) or not. */
  datatype Callback = Fn(id: nat, throws: bool) | NotFunction

  /** One call of a listener with an entry. */
  datatype Delivery = Delivery(listener: Callback, entry: Entry)

  datatype Stats = Stats(total: nat, info: nat, success: nat, warning: nat, error: nat, debug: nat)

  /** `JSON.stringify` of a history, and `JSON.parse` of a stored one (None when it throws). */
  datatype HistoryCodec = HistoryCodec(encode: seq<Entry> -> string, decode: string -> Option<seq<Entry>>)

  /** `String(n).padStart(2, '0')`. */
  function Pad2(n: nat): (r: string)
    ensures forall i :: 0 <= i < |r| ==> IsDigit(r[i])
    ensures n < 100 ==> |r| == 2 && DigitsValue(r) == n
  {
    var d := NatToString(n);
    NatToStringValue(n);
    assert 10 <= n < 100 ==> |d| == 2 by {
      if 10 <= n < 100 {
        assert NatToString(n / 10) == [DigitChar(n / 10)];
      }
    }
    if |d| < 2 then
      var r := "0" + d;
      assert r[..1] == "0";
      r
    else d
  }

  /** `formatTime`: "HH:MM:SS", each field zero-padded to two digits. */
  function FormatTime(h: nat, m: nat, s: nat): (r: string)
    ensures h < 100 && m < 100 && s < 100 ==>
      |r| == 8 && r[2] == ':' && r[5] == ':'
      && r[0..2] == Pad2(h) && r[3..5] == Pad2(m) && r[6..8] == Pad2(s)
  {
    Pad2(h) + ":" + Pad2(m) + ":" + Pad2(s)
  }

  /** Reading the fields of a formatted time back gives the clock's fields. */
  lemma FormatTimeFields(h: nat, m: nat, s: nat)
    requires h < 24 && m < 60 && s < 60
    ensures var r := FormatTime(h, m, s);
      |r| == 8 && r[2] == ':' && r[5] == ':'
      && DigitsValue(r[0..2]) == h && DigitsValue(r[3..5]) == m && DigitsValue(r[6..8]) == s
  {
  }

  /** The entry `log` builds. */
  function NewEntry(message: string, level: string, data: Json, now: Moment): (e: Entry)
    ensures e.level == level && e.message == message && e.data == data
    ensures e.timestamp == now.iso && e.time == FormatTime(now.hours, now.minutes, now.seconds)
    ensures Style(level).None? ==> e.icon == DefaultIcon && e.color == DefaultColor
    ensures Style(level).Some? ==> e.icon == Style(level).value.icon && e.color == Style(level).value.color
  {
    var st := Style(level).GetOr(LevelStyle(DefaultIcon, DefaultColor));
    Entry(now.iso, FormatTime(now.hours, now.minutes, now.seconds), level, message, data, st.icon, st.color)
  }

  /** `formatLog`: "[time] icon message". */
  function FormatLog(e: Entry): string {
    "[" + e.time + "] " + e.icon + " " + e.message
  }

  /** A formatted line opens with the bracketed time and closes with the message. */
  lemma FormatLogShape(e: Entry)
    ensures var line := FormatLog(e);
      |line| == |e.time| + |e.icon| + |e.message| + 4
      && line[0] == '[' && line[1..|e.time| + 1] == e.time && line[|e.time| + 1] == ']'
      && line[|line| - |e.message|..] == e.message
  {
  }

  /** `slice(-n)`: the last n elements, or all of them when there are fewer. */
  function LastN<T>(s: seq<T>, n: nat): (r: seq<T>)
    ensures |r| == if |s| <= n then |s| else n
    ensures r == s[|s| - |r|..]
  {
    if |s| <= n then s else s[|s| - n..]
  }

  /** `push` then, if the length passed the cap, one `shift`. */
  function Appended(h: seq<Entry>, e: Entry): seq<Entry> {
    var p := h + [e];
    if |p| > MaxHistorySize then p[1..] else p
  }

  /**
   * The new entry is last and the earlier ones keep their order; from a history within
   * the cap, the result is the most recent 50 entries, so it stays within the cap.
   */
  lemma AppendedKeepsNewest(h: seq<Entry>, e: Entry)
    requires |h| <= MaxHistorySize
    ensures var r := Appended(h, e);
      |r| <= MaxHistorySize && r[|r| - 1] == e
      && r == LastN(h + [e], MaxHistorySize)
      && (|h| < MaxHistorySize ==> r == h + [e])
      && (|h| == MaxHistorySize ==> r[..|r| - 1] == h[1..])
  {
  }

  /** The calls `notifyListeners` makes, in registration order, thrower or not. */
  function Deliveries(ls: seq<Callback>, e: Entry): (ds: seq<Delivery>)
    ensures |ds| == |ls|
    ensures forall i :: 0 <= i < |ls| ==> ds[i] == Delivery(ls[i], e)
  {
    if |ls| == 0 then [] else Deliveries(ls[..|ls| - 1], e) + [Delivery(ls[|ls| - 1], e)]
  }

  /** Number of entries of the given level. */
  function CountLevel(h: seq<Entry>, level: string): (n: nat)
    ensures n <= |h|
  {
    if |h| == 0 then 0
    else CountLevel(h[..|h| - 1], level) + (if h[|h| - 1].level == level then 1 else 0)
  }

  function KnownCount(h: seq<Entry>): nat {
    CountLevel(h, "INFO") + CountLevel(h, "SUCCESS") + CountLevel(h, "WARNING")
    + CountLevel(h, "ERROR") + CountLevel(h, "DEBUG")
  }

  /**
   * Only the five known levels are counted: the per-level counts add up to at most the
   * total, and to exactly the total iff every entry has a known level.
   */
  lemma {:induction false} KnownCountBound(h: seq<Entry>)
    ensures KnownCount(h) <= |h|
    ensures KnownCount(h) == |h| <==> forall i :: 0 <= i < |h| ==> h[i].level in KnownLevels
  {
    if |h| > 0 {
      var p := h[..|h| - 1];
      KnownCountBound(p);
      assert forall i :: 0 <= i < |p| ==> p[i] == h[i];
    }
  }

  class Logger {
    var history: seq<Entry>
    var listeners: seq<Callback>
    var initialized: bool
    /** Every listener call made so far, in order. */
    var calls: seq<Delivery>
    const store: LocalStorage
    const codec: HistoryCodec

    constructor (store: LocalStorage, codec: HistoryCodec)
      ensures history == [] && listeners == [] && !initialized && calls == []
      ensures this.store == store && this.codec == codec
    {
      history := [];
      listeners := [];
      initialized := false;
      calls := [];
      this.store := store;
      this.codec := codec;
    }

    /**
     * The history after `saveHistory` from store contents `items`: unchanged when it
     * fits, otherwise cut to its last 10 entries (whether or not the retry fits).
     */
    function SavedHistory(items: map<string, string>, h: seq<Entry>): (r: seq<Entry>)
      ensures r == h || r == LastN(h, QuotaKeep)
      ensures !store.fits(items[StorageKey := codec.encode(h)]) ==> |r| <= QuotaKeep
    {
      if store.fits(items[StorageKey := codec.encode(h)]) then h else LastN(h, QuotaKeep)
    }

    /** The store contents after `saveHistory`. */
    function SavedItems(items: map<string, string>, h: seq<Entry>): (r: map<string, string>)
      ensures r == items || r == items[StorageKey := codec.encode(SavedHistory(items, h))]
      ensures r != items ==> r[StorageKey] == codec.encode(SavedHistory(items, h))
    {
      var first := items[StorageKey := codec.encode(h)];
      if store.fits(first) then first
      else
        var retry := items[StorageKey := codec.encode(LastN(h, QuotaKeep))];
        if store.fits(retry) then retry else items
    }

    /** `getHistory`: a copy of the history. */
    method GetHistory() returns (h: seq<Entry>)
      ensures h == history
    {
      h := history;
    }

    method SaveHistory()
      modifies this`history, store
      ensures history == SavedHistory(old(store.items), old(history))
      ensures store.items == SavedItems(old(store.items), old(history))
    {
      var ok := store.SetItem(StorageKey, codec.encode(history));
      if !ok {
        history := LastN(history, QuotaKeep);
        ok := store.SetItem(StorageKey, codec.encode(history));
      }
    }

    /** Calling one listener; an exception it throws is caught and the call still happened. */
    method Invoke(cb: Callback, e: Entry)
      modifies this`calls
      ensures calls == old(calls) + [Delivery(cb, e)]
    {
      calls := calls + [Delivery(cb, e)];
    }

    method NotifyListeners(e: Entry)
      modifies this`calls
      ensures calls == old(calls) + Deliveries(listeners, e)
    {
      var i := 0;
      while i < |listeners|
        invariant 0 <= i <= |listeners|
        invariant calls == old(calls) + Deliveries(listeners[..i], e)
      {
        assert listeners[..i + 1][..i] == listeners[..i];
        Invoke(listeners[i], e);
        i := i + 1;
      }
      assert listeners[..i] == listeners;
    }

    /** `log(message, level, data)`. */
    method Log(message: string, level: string, data: Json, now: Moment) returns (e: Entry)
      modifies this, store
      ensures e == NewEntry(message, level, data, now)
      ensures history == SavedHistory(old(store.items), Appended(old(history), e))
      ensures store.items == SavedItems(old(store.items), Appended(old(history), e))
      ensures calls == old(calls) + Deliveries(listeners, e)
      ensures listeners == old(listeners) && initialized == old(initialized)
    {
      e := NewEntry(message, level, data, now);
      history := history + [e];
      if |history| > MaxHistorySize {
        history := history[1..];
      }
      SaveHistory();
      NotifyListeners(e);
    }

    /** `clearHistory`: empties the history, forgets the stored copy, then logs that it did. */
    method ClearHistory(now: Moment) returns (ok: bool)
      modifies this, store
      ensures ok
      ensures history == [NewEntry("History cleared", "INFO", JNull, now)]
      ensures store.items ==
        SavedItems(old(store.items) - {StorageKey}, [NewEntry("History cleared", "INFO", JNull, now)])
      ensures calls == old(calls) + Deliveries(listeners, NewEntry("History cleared", "INFO", JNull, now))
      ensures listeners == old(listeners) && initialized == old(initialized)
    {
      history := [];
      store.RemoveItem(StorageKey);
      var e := Log("History cleared", "INFO", JNull, now);
      ok := true;
    }

    /**
     * The history `initLogger` starts from: the stored one when a non-empty stored
     * string parses, the current one when nothing (or "") is stored, None when parsing
     * throws.
     */
    function LoadedHistory(items: map<string, string>, current: seq<Entry>): Option<seq<Entry>> {
      if StorageKey in items && items[StorageKey] != "" then codec.decode(items[StorageKey])
      else Some(current)
    }

    /**
     * `initLogger`: a no-op once initialized; a stored history that fails to parse
     * leaves the logger uninitialized; otherwise it adopts the stored history, becomes
     * initialized and logs "Logger initialized".
     */
    method InitLogger(now: Moment)
      modifies this, store
      ensures old(initialized) ==>
        (initialized && history == old(history) && store.items == old(store.items) && calls == old(calls))
      ensures !old(initialized) && LoadedHistory(old(store.items), old(history)).None? ==>
        (!initialized && history == old(history) && store.items == old(store.items) && calls == old(calls))
      ensures !old(initialized) && LoadedHistory(old(store.items), old(history)).Some? ==>
        var e := NewEntry("Logger initialized", "INFO", JNull, now);
        var h := Appended(LoadedHistory(old(store.items), old(history)).value, e);
        initialized && history == SavedHistory(old(store.items), h)
        && store.items == SavedItems(old(store.items), h)
        && calls == old(calls) + Deliveries(listeners, e)
      ensures listeners == old(listeners)
    {
      if initialized {
        return;
      }
      var saved := store.GetItem(StorageKey);
      if saved.Some? && saved.value != "" {
        var parsed := codec.decode(saved.value);
        if parsed.None? {
          return;
        }
        history := parsed.value;
      }
      initialized := true;
      var e := Log("Logger initialized", "INFO", JNull, now);
    }

    /** `addListener`: only functions are registered; the handle unsubscribes the callback. */
    method AddListener(cb: Callback) returns (unsubscribe: Option<Callback>)
      modifies this`listeners
      ensures cb.Fn? ==> listeners == old(listeners) + [cb] && unsubscribe == Some(cb)
      ensures cb.NotFunction? ==> listeners == old(listeners) && unsubscribe == None
    {
      if cb.Fn? {
        listeners := listeners + [cb];
        unsubscribe := Some(cb);
      } else {
        unsubscribe := None;
      }
    }

    /** `removeListener`: drops every occurrence of the callback, keeping the rest in order. */
    method RemoveListener(cb: Callback)
      modifies this`listeners
      ensures listeners == OrderedSet.Without(old(listeners), [cb])
      ensures cb !in listeners
      ensures forall c :: c in old(listeners) && c != cb ==> c in listeners
    {
      listeners := OrderedSet.Without(listeners, [cb]);
    }

    /** `getStats`: the total and one counter per known level. */
    method GetStats() returns (st: Stats)
      ensures st.total == |history|
      ensures st.info == CountLevel(history, "INFO") && st.success == CountLevel(history, "SUCCESS")
      ensures st.warning == CountLevel(history, "WARNING") && st.error == CountLevel(history, "ERROR")
      ensures st.debug == CountLevel(history, "DEBUG")
      ensures st.info + st.success + st.warning + st.error + st.debug <= st.total
    {
      var info, success, warning, error, debug := 0, 0, 0, 0, 0;
      var i := 0;
      while i < |history|
        invariant 0 <= i <= |history|
        invariant info == CountLevel(history[..i], "INFO") && success == CountLevel(history[..i], "SUCCESS")
        invariant warning == CountLevel(history[..i], "WARNING") && error == CountLevel(history[..i], "ERROR")
        invariant debug == CountLevel(history[..i], "DEBUG")
      {
        assert history[..i + 1][..i] == history[..i];
        var lv := history[i].level;
        if lv == "INFO" { info := info + 1; }
        else if lv == "SUCCESS" { success := success + 1; }
        else if lv == "WARNING" { warning := warning + 1; }
        else if lv == "ERROR" { error := error + 1; }
        else if lv == "DEBUG" { debug := debug + 1; }
        i := i + 1;
      }
      assert history[..i] == history;
      KnownCountBound(history);
      st := Stats(|history|, info, success, warning, error, debug);
    }
  }

  /** Even when the quota forces the cut to 10 entries, the entry just logged survives, last. */
  lemma SavedKeepsNewest(lg: Logger, items: map<string, string>, h: seq<Entry>, e: Entry)
    requires |h| <= MaxHistorySize
    ensures var r := lg.SavedHistory(items, Appended(h, e));
      |r| >= 1 && r[|r| - 1] == e && |r| <= MaxHistorySize
  {
    var a := Appended(h, e);
    AppendedKeepsNewest(h, e);
    var r := lg.SavedHistory(items, a);
    if r != a {
      assert r == LastN(a, QuotaKeep);
      assert r[|r| - 1] == a[|a| - 1];
    }
  }
}
