/**
 * `debug/debug-dom.js`: the probe that looks up every id the application's page should
 * hold, splits them into found and missing, flags the missing critical ones, and the two
 * smaller probes over the counter buttons and the input fields.
 */
module DomIds {

  // The groups of `IDS_TO_TEST`, as its comments divide it.
  const Screens: seq<string> := [
    "ecran-principal", "ecran-stats", "ecran-calendrier", "ecran-habitudes",
    "ecran-params"]
  const Navigation: seq<string> := ["nav-principal", "nav-stats", "nav-calendrier", "nav-habitudes", "nav-params"]
  const Header: seq<string> := ["date-actuelle", "heure-actuelle"]
  const DebugConsole: seq<string> := ["debug-console"]
  const QuickStats: seq<string> := ["bar-clopes", "bar-joints", "bar-alcool", "stat-cout-jr"]
  const Kpis: seq<string> := [
    "stats-header", "todayTotal", "weekTotal", "monthTotal", "todayCost",
    "economies-amount"]
  const Cards: seq<string> := ["card-cigs", "card-weed", "card-alcool"]
  const Toggles: seq<string> := ["toggle-cigs", "toggle-weed", "toggle-alcool"]
  const Values: seq<string> := ["note-cigs", "note-weed", "note-alcool"]
  const CounterButtons: seq<string> := ["cl-plus", "cl-moins", "j-plus", "j-moins", "a-plus", "a-moins"]
  const Segments: seq<string> := ["seg-clopes", "seg-alcool"]
  const Advice: seq<string> := ["conseil-card", "conseil-texte", "adv-prev", "adv-pause"]
  const StatsScreen: seq<string> := [
    "chartRange", "kpi-cigarettes", "kpi-cigarettes-value", "kpi-joints",
    "kpi-joints-value", "kpi-alcohol", "kpi-alcohol-value", "summary-card-period-label",
    "summary-card-period-value"]
  const StatsBanner: seq<string> := ["stats-titre", "stats-clopes", "stats-joints", "stats-alcool", "stats-alcool-line"]
  const Charts: seq<string> := ["chart-consommations", "chart-cout-eco"]
  const Export: seq<string> := ["btn-export-csv", "btn-export-stats", "btn-import", "input-import"]
  const Calendar: seq<string> := ["cal-titre", "cal-grid", "cal-prev", "cal-next"]
  const CalendarModal: seq<string> := [
    "cal-jour", "cal-jour-titre", "cal-jour-cl", "cal-jour-seg-cl", "cal-cl-plus",
    "cal-cl-moins", "cal-jour-j", "cal-j-plus", "cal-j-moins", "cal-jour-a",
    "cal-jour-seg-a", "cal-a-plus", "cal-a-moins", "cal-jour-raz", "cal-jour-fermer"]
  const Habits: seq<string> := [
    "limite-clopes", "limite-joints", "limite-biere", "limite-fort", "limite-liqueur",
    "btn-save-hab"]
  const WarnModal: seq<string> := [
    "modal-warn", "warn-title", "chk-warn-18", "chk-warn-hide", "btn-warn-accept",
    "btn-warn-cancel", "btn-warn-quit", "open-ressources-from-warn"]
  const PageModal: seq<string> := ["modal-page", "page-title", "page-content", "btn-page-close"]
  const Snackbar: seq<string> := ["snackbar", "undo-link"]

  /** `IDS_TO_TEST`, in the order of the literal. */
  const IdsToTest: seq<string> :=
    Screens + Navigation + Header + DebugConsole + QuickStats + Kpis + Cards + Toggles + Values
    + CounterButtons + Segments + Advice + StatsScreen + StatsBanner + Charts + Export + Calendar
    + CalendarModal + Habits + WarnModal + PageModal + Snackbar

  /** `CRITICAL_IDS`. */
  const CriticalIds: seq<string> := [
    "ecran-principal", "nav-principal", "date-actuelle", "heure-actuelle",
    "bar-clopes", "bar-joints", "bar-alcool",
    "cl-plus", "cl-moins", "j-plus", "j-moins", "a-plus", "a-moins",
    "card-cigs", "card-weed", "card-alcool",
    "modal-warn", "btn-warn-accept", "chart-consommations", "cal-grid"]

  /** The counter buttons `testButtons` looks at. */
  const Buttons: seq<string> := ["cl-plus", "cl-moins", "j-plus", "j-moins", "a-plus", "a-moins"]

  /** The input fields `testInputs` looks at. */
  const Inputs: seq<string> := [
    "toggle-cigs", "toggle-weed", "toggle-alcool", "limite-clopes", "limite-joints", "limite-biere"]

  /**
   * The id table as written holds 103 ids (the heading comment of the file says 89), 20 of
   * them critical, and each critical id is also in the table.
   */
  lemma CriticalListed()
    ensures |IdsToTest| == 103 && |CriticalIds| == 20
    ensures forall i :: 0 <= i < |CriticalIds| ==> CriticalIds[i] in IdsToTest
  {
    assert "ecran-principal" in Screens;
    assert "nav-principal" in Navigation;
    assert "date-actuelle" in Header;
    assert "heure-actuelle" in Header;
    assert "bar-clopes" in QuickStats;
    assert "bar-joints" in QuickStats;
    assert "bar-alcool" in QuickStats;
    assert "cl-plus" in CounterButtons;
    assert "cl-moins" in CounterButtons;
    assert "j-plus" in CounterButtons;
    assert "j-moins" in CounterButtons;
    assert "a-plus" in CounterButtons;
    assert "a-moins" in CounterButtons;
    assert "card-cigs" in Cards;
    assert "card-weed" in Cards;
    assert "card-alcool" in Cards;
    assert "modal-warn" in WarnModal;
    assert "btn-warn-accept" in WarnModal;
    assert "chart-consommations" in Charts;
    assert "cal-grid" in Calendar;
  }

  /** The buttons are critical ids and the inputs are listed ids. */
  lemma ProbeListsListed()
    ensures forall i :: 0 <= i < |Buttons| ==> Buttons[i] in CriticalIds
    ensures forall i :: 0 <= i < |Inputs| ==> Inputs[i] in IdsToTest
  {
    assert "toggle-cigs" in Toggles;
    assert "toggle-weed" in Toggles;
    assert "toggle-alcool" in Toggles;
    assert "limite-clopes" in Habits;
    assert "limite-joints" in Habits;
    assert "limite-biere" in Habits;
  }
}

/** The probes of `debug/debug-dom.js` over the document. */
module DomProbe {
  import opened Wrappers
  import opened OrderedSet
  import opened Browser
  import opened Severity
  import opened DomIds

  // ------------------------------------------------------------------ testDOM

  /** The record pushed into `found` for a present element. */
  datatype FoundRecord = FoundRecord(id: string, tag: string, classes: string, visible: bool)

  function Record(e: Element): FoundRecord {
    FoundRecord(e.id, e.tag, e.className, IsVisible(e))
  }

  /** The object `testDOM` returns, without the log lines it prints. */
  datatype DomResults = DomResults(
    total: nat, found: seq<FoundRecord>, missing: seq<string>, criticalMissing: seq<string>,
    tested: nat, passed: nat, failed: nat)

  /** The ids of ids that `getElementById` does not find, in list order. */
  function Absent(els: seq<Element>, ids: seq<string>): (r: seq<string>)
    ensures |r| <= |ids|
  {
    if |ids| == 0 then []
    else Absent(els, ids[..|ids| - 1]) + if HasElement(els, ids[|ids| - 1]) then [] else [ids[|ids| - 1]]
  }

  /** One record per id found, in list order. */
  function Records(els: seq<Element>, ids: seq<string>): (r: seq<FoundRecord>)
  {
    if |ids| == 0 then []
    else
      var id := ids[|ids| - 1];
      Records(els, ids[..|ids| - 1]) + if HasElement(els, id) then [Record(ElementById(els, id).value)] else []
  }

  /** The elements of xs that are critical ids, in order. */
  function OnlyCritical(xs: seq<string>): (r: seq<string>)
    ensures |r| <= |xs|
  {
    if |xs| == 0 then []
    else OnlyCritical(xs[..|xs| - 1]) + if xs[|xs| - 1] in CriticalIds then [xs[|xs| - 1]] else []
  }

  /** One iteration of the `forEach` of `testDOM`. */
  function Visit(els: seq<Element>, r: DomResults, id: string): DomResults
  {
    var r1 := r.(tested := r.tested + 1);
    match ElementById(els, id)
    case Some(e) => r1.(passed := r1.passed + 1, found := r1.found + [Record(e)])
    case None =>
      var r2 := r1.(failed := r1.failed + 1, missing := r1.missing + [id]);
      if id in CriticalIds then r2.(criticalMissing := r2.criticalMissing + [id]) else r2
  }

  /** The results after the loop has visited ids, for a list of `total` ids. */
  function Scan(total: nat, els: seq<Element>, ids: seq<string>): DomResults
  {
    if |ids| == 0 then DomResults(total, [], [], [], 0, 0, 0)
    else Visit(els, Scan(total, els, ids[..|ids| - 1]), ids[|ids| - 1])
  }

  lemma ScanPrefix(total: nat, els: seq<Element>, ids: seq<string>, i: nat)
    requires i < |ids|
    ensures Scan(total, els, ids[..i + 1]) == Visit(els, Scan(total, els, ids[..i]), ids[i])
  {
    assert ids[..i + 1][..i] == ids[..i];
  }

  lemma CriticalStep(xs: seq<string>, x: string)
    ensures OnlyCritical(xs + [x]) == OnlyCritical(xs) + if x in CriticalIds then [x] else []
  {
    assert (xs + [x])[..|xs|] == xs;
  }

  /** What a visit adds: the id goes to `found` or to `missing`, never both. */
  lemma VisitMeaning(els: seq<Element>, r: DomResults, id: string, ids: seq<string>)
    requires r.tested == |ids| && r.passed + r.failed == r.tested
    requires r.missing == Absent(els, ids) && r.failed == |r.missing|
    requires r.found == Records(els, ids) && r.passed == |r.found|
    requires r.criticalMissing == OnlyCritical(r.missing)
    ensures var nx, more := Visit(els, r, id), ids + [id];
      && nx.total == r.total
      && nx.tested == |more| && nx.passed + nx.failed == nx.tested
      && nx.missing == Absent(els, more) && nx.failed == |nx.missing|
      && nx.found == Records(els, more) && nx.passed == |nx.found|
      && nx.criticalMissing == OnlyCritical(nx.missing)
  {
    var more := ids + [id];
    assert more[..|ids|] == ids;
    CriticalStep(r.missing, id);
  }

  /**
   * After the loop: every id is tested, passed + failed = tested, `missing` lists the absent
   * ids in order, `found` has one record per present id, and `criticalMissing` is the
   * critical part of `missing`.
   */
  lemma {:induction false} ScanMeaning(total: nat, els: seq<Element>, ids: seq<string>)
    ensures var r := Scan(total, els, ids);
      && r.total == total
      && r.tested == |ids| && r.passed + r.failed == r.tested
      && r.missing == Absent(els, ids) && r.failed == |r.missing|
      && r.found == Records(els, ids) && r.passed == |r.found|
      && r.criticalMissing == OnlyCritical(r.missing)
  {
    if |ids| > 0 {
      var p, id := ids[..|ids| - 1], ids[|ids| - 1];
      assert ids == p + [id];
      var r := Scan(total, els, p);
      ScanMeaning(total, els, p);
      assert Scan(total, els, ids) == Visit(els, r, id);
      VisitMeaning(els, r, id, p);
    }
  }

  /** The loop of `testDOM` over any id list; `testDOM` runs it over `IDS_TO_TEST`. */
  method ProbeIds(doc: Document, ids: seq<string>) returns (r: DomResults)
    ensures r == Scan(|ids|, doc.elements, ids)
  {
    r := DomResults(|ids|, [], [], [], 0, 0, 0);
    var i := 0;
    while i < |ids|
      invariant 0 <= i <= |ids|
      invariant r == Scan(|ids|, doc.elements, ids[..i])
    {
      var id := ids[i];
      ScanPrefix(|ids|, doc.elements, ids, i);
      ghost var r0 := r;
      r := r.(tested := r.tested + 1);
      var element := doc.GetElementById(id);
      if element.Some? {
        r := r.(passed := r.passed + 1, found := r.found + [Record(element.value)]);
      } else {
        r := r.(failed := r.failed + 1, missing := r.missing + [id]);
        if id in CriticalIds {
          r := r.(criticalMissing := r.criticalMissing + [id]);
        }
      }
      assert r == Visit(doc.elements, r0, id);
      i := i + 1;
    }
    assert ids[..i] == ids;
  }

  /** What `testDOM` returns on a document holding `els`. */
  function DomOf(els: seq<Element>): DomResults
  {
    Scan(|IdsToTest|, els, IdsToTest)
  }

  /** `testDOM`. */
  method TestDom(doc: Document) returns (r: DomResults)
    ensures r == DomOf(doc.elements)
    ensures r.total == r.tested == |IdsToTest| && r.passed + r.failed == r.tested
    ensures r.missing == Absent(doc.elements, IdsToTest) && r.failed == |r.missing|
    ensures r.found == Records(doc.elements, IdsToTest) && r.passed == |r.found|
    ensures r.criticalMissing == OnlyCritical(r.missing)
  {
    r := ProbeIds(doc, IdsToTest);
    ScanMeaning(|IdsToTest|, doc.elements, IdsToTest);
  }

  /** An id is reported missing iff it is in the list and the document does not hold it. */
  lemma {:induction false} AbsentIff(els: seq<Element>, ids: seq<string>, x: string)
    ensures x in Absent(els, ids) <==> x in ids && !HasElement(els, x)
  {
    if |ids| > 0 {
      AbsentIff(els, ids[..|ids| - 1], x);
      assert ids == ids[..|ids| - 1] + [ids[|ids| - 1]];
    }
  }

  /**
   * There is one record per id found, and every record describes the element found for
   * its id, an id of the list.
   */
  lemma {:induction false} RecordsFound(els: seq<Element>, ids: seq<string>)
    ensures |Records(els, ids)| + |Absent(els, ids)| == |ids|
    ensures forall k :: 0 <= k < |Records(els, ids)| ==>
      var rec := Records(els, ids)[k];
      rec.id in ids && ElementById(els, rec.id).Some? && rec == Record(ElementById(els, rec.id).value)
  {
    if |ids| > 0 {
      var p, id := ids[..|ids| - 1], ids[|ids| - 1];
      RecordsFound(els, p);
      assert ids == p + [id];
      assert forall x :: x in p ==> x in ids;
    }
  }

  /** `criticalMissing` is exactly the critical ids among the missing ones. */
  lemma {:induction false} OnlyCriticalIff(xs: seq<string>, x: string)
    ensures x in OnlyCritical(xs) <==> x in xs && x in CriticalIds
  {
    if |xs| > 0 {
      OnlyCriticalIff(xs[..|xs| - 1], x);
      assert xs == xs[..|xs| - 1] + [xs[|xs| - 1]];
    }
  }

  /** A critical id is reported as missing iff the document lacks it. */
  lemma CriticalMissingIff(els: seq<Element>, x: string)
    ensures x in OnlyCritical(Absent(els, IdsToTest)) <==> x in CriticalIds && !HasElement(els, x)
  {
    OnlyCriticalIff(Absent(els, IdsToTest), x);
    AbsentIff(els, IdsToTest, x);
    CriticalListed();
  }

  /** The line `testDOM` ends with. */
  function DomVerdict(r: DomResults): Verdict {
    Classify(r.failed, |r.criticalMissing|)
  }

  /**
   * On the results of a scan, the verdict is success iff every listed id is present, and
   * an error iff some critical id is absent.
   */
  lemma DomVerdictIff(els: seq<Element>, r: DomResults)
    requires r.failed == |r.missing| && r.missing == Absent(els, IdsToTest)
    requires r.criticalMissing == OnlyCritical(r.missing)
    ensures DomVerdict(r) == AllOk <==> forall i :: 0 <= i < |IdsToTest| ==> HasElement(els, IdsToTest[i])
    ensures DomVerdict(r) == Critical <==> exists i :: 0 <= i < |CriticalIds| && !HasElement(els, CriticalIds[i])
  {
    if r.missing != [] {
      AbsentIff(els, IdsToTest, r.missing[0]);
    } else {
      forall i | 0 <= i < |IdsToTest| ensures HasElement(els, IdsToTest[i]) {
        AbsentIff(els, IdsToTest, IdsToTest[i]);
      }
    }
    if r.criticalMissing != [] {
      CriticalMissingIff(els, r.criticalMissing[0]);
    } else {
      forall i | 0 <= i < |CriticalIds| ensures HasElement(els, CriticalIds[i]) {
        CriticalMissingIff(els, CriticalIds[i]);
      }
    }
  }

  // ------------------------------------------------------------------ testButtons

  /**
   * `hasEventListeners`: an `onclick` handler or a `data-*` attribute answers true, and so
   * does the final fallback, so every path answers true.
   */
  predicate HasEventListeners(e: Element) {
    true
  }

  datatype Broken = Broken(id: string, reason: string)

  datatype ButtonResults = ButtonResults(total: nat, working: seq<string>, broken: seq<Broken>)

  const NotFound: string := "Not found"
  const NoListeners: string := "No event listeners"

  /** The ids of ids that `getElementById` finds, in list order. */
  function PresentIds(els: seq<Element>, ids: seq<string>): (r: seq<string>)
    ensures |r| + |Absent(els, ids)| == |ids|
  {
    if |ids| == 0 then []
    else PresentIds(els, ids[..|ids| - 1]) + if HasElement(els, ids[|ids| - 1]) then [ids[|ids| - 1]] else []
  }

  lemma {:induction false} PresentIff(els: seq<Element>, ids: seq<string>, x: string)
    ensures x in PresentIds(els, ids) <==> x in ids && HasElement(els, x)
  {
    if |ids| > 0 {
      PresentIff(els, ids[..|ids| - 1], x);
      assert ids == ids[..|ids| - 1] + [ids[|ids| - 1]];
    }
  }

  /** The broken-button records for ids that were not found. */
  function NotFoundAll(xs: seq<string>): (bs: seq<Broken>)
    ensures |bs| == |xs|
    ensures forall k :: 0 <= k < |xs| ==> bs[k] == Broken(xs[k], NotFound)
  {
    if |xs| == 0 then [] else NotFoundAll(xs[..|xs| - 1]) + [Broken(xs[|xs| - 1], NotFound)]
  }

  /** One iteration of the `forEach` of `testButtons`. */
  function VisitButton(els: seq<Element>, r: ButtonResults, id: string): ButtonResults
  {
    match ElementById(els, id)
    case None => r.(broken := r.broken + [Broken(id, NotFound)])
    case Some(btn) =>
      if HasEventListeners(btn) then r.(working := r.working + [id])
      else r.(broken := r.broken + [Broken(id, NoListeners)])
  }

  function ScanButtons(total: nat, els: seq<Element>, ids: seq<string>): ButtonResults
  {
    if |ids| == 0 then ButtonResults(total, [], [])
    else VisitButton(els, ScanButtons(total, els, ids[..|ids| - 1]), ids[|ids| - 1])
  }

  /**
   * The buttons found are the working ones, in order; the others are broken, each with the
   * reason "Not found".
   */
  lemma {:induction false} ScanButtonsMeaning(total: nat, els: seq<Element>, ids: seq<string>)
    ensures var r := ScanButtons(total, els, ids);
      && r.total == total
      && r.working == PresentIds(els, ids)
      && r.broken == NotFoundAll(Absent(els, ids))
  {
    if |ids| > 0 {
      var p, id := ids[..|ids| - 1], ids[|ids| - 1];
      ScanButtonsMeaning(total, els, p);
      var a := Absent(els, p);
      assert (a + [id])[..|a|] == a;
    }
  }

  /** `testButtons` over a list of button ids. */
  method ProbeButtons(doc: Document, ids: seq<string>) returns (r: ButtonResults)
    ensures r == ScanButtons(|ids|, doc.elements, ids)
  {
    r := ButtonResults(|ids|, [], []);
    var i := 0;
    while i < |ids|
      invariant 0 <= i <= |ids|
      invariant r == ScanButtons(|ids|, doc.elements, ids[..i])
    {
      var id := ids[i];
      assert ids[..i + 1][..i] == ids[..i];
      var btn := doc.GetElementById(id);
      if btn.None? {
        r := r.(broken := r.broken + [Broken(id, NotFound)]);
      } else if HasEventListeners(btn.value) {
        r := r.(working := r.working + [id]);
      } else {
        r := r.(broken := r.broken + [Broken(id, NoListeners)]);
      }
      i := i + 1;
    }
    assert ids[..i] == ids;
  }

  /** What `testButtons` returns on a document holding `els`. */
  function ButtonsOf(els: seq<Element>): ButtonResults
  {
    ScanButtons(|Buttons|, els, Buttons)
  }

  /** `testButtons`. */
  method TestButtons(doc: Document) returns (r: ButtonResults)
    ensures r == ButtonsOf(doc.elements)
    ensures r.total == |Buttons|
    ensures r.working == PresentIds(doc.elements, Buttons)
    ensures r.broken == NotFoundAll(Absent(doc.elements, Buttons))
  {
    r := ProbeButtons(doc, Buttons);
    ScanButtonsMeaning(|Buttons|, doc.elements, Buttons);
  }

  /**
   * A button is reported broken iff it is not found, always with the reason "Not found",
   * and working iff it is found; each of the six buttons is reported exactly once.
   */
  lemma ButtonsIff(els: seq<Element>, x: string)
    ensures var broken := NotFoundAll(Absent(els, Buttons));
      && (x in PresentIds(els, Buttons) <==> x in Buttons && HasElement(els, x))
      && ((exists k :: 0 <= k < |broken| && broken[k].id == x) <==> x in Buttons && !HasElement(els, x))
      && (forall k :: 0 <= k < |broken| ==> broken[k].reason == NotFound)
      && |PresentIds(els, Buttons)| + |broken| == |Buttons|
  {
    PresentIff(els, Buttons, x);
    AbsentIff(els, Buttons, x);
    var a := Absent(els, Buttons);
    if x in a {
      var k :| 0 <= k < |a| && a[k] == x;
      assert NotFoundAll(a)[k].id == x;
    }
  }

  // ------------------------------------------------------------------ testInputs

  datatype InputResults = InputResults(total: nat, found: nat, missing: nat)

  /** The counts `testInputs` arrives at: the inputs found and those missing. */
  function InputsOf(els: seq<Element>): (r: InputResults)
    ensures r.total == |Inputs| && r.found + r.missing == r.total
    ensures r.missing == |Absent(els, Inputs)|
  {
    var m := |Absent(els, Inputs)|;
    InputResults(|Inputs|, |Inputs| - m, m)
  }

  /** `testInputs`: counts only. */
  method TestInputs(doc: Document) returns (r: InputResults)
    ensures r == InputsOf(doc.elements)
    ensures r.total == 6 && r.found + r.missing == r.total
    ensures r.missing == |Absent(doc.elements, Inputs)|
  {
    r := InputResults(|Inputs|, 0, 0);
    var i := 0;
    while i < |Inputs|
      invariant 0 <= i <= |Inputs|
      invariant r.total == |Inputs| && r.found + r.missing == i
      invariant r.missing == |Absent(doc.elements, Inputs[..i])|
    {
      assert Inputs[..i + 1][..i] == Inputs[..i];
      var input := doc.GetElementById(Inputs[i]);
      if input.Some? {
        r := r.(found := r.found + 1);
      } else {
        r := r.(missing := r.missing + 1);
      }
      i := i + 1;
    }
    assert Inputs[..i] == Inputs;
  }
}
