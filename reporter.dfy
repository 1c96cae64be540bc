/**
 * `utils/reporter.js`: the text report built from `debugState`. The executive summary sums
 * the counts of the modules, DOM and storage phases into a three-level banner; the DOM
 * section always lists the critical missing ids and lists every missing id only when there
 * are at most twenty; the errors section details at most ten captured errors; the
 * recommendations come from five ordered rules. A section is the sequence of its lines
 * (each written followed by a newline), each line a value whose text a function renders.
 */
module Reporter {
  import opened Wrappers
  import opened Text
  import opened DebugResults
  import ModuleProbe
  import DomProbe
  import Storage

  // ------------------------------------------------------------------ executive summary

  /** The four counters of `generateExecutiveSummary`. */
  datatype Tally = Tally(total: nat, passed: nat, failed: nat, critical: nat)

  const Nothing: Tally := Tally(0, 0, 0, 0)

  /** `total`, `passed`, `failed`, `criticalFailed` of the modules phase, 0 when missing. */
  function ModulesTally(s: Option<Slot<ModuleProbe.ModulesResults>>): Tally {
    if s.Some? && s.value.Done? then
      var m := s.value.value;
      Tally(m.total, m.passed, m.failed, m.criticalFailed)
    else Nothing
  }

  /** `total`, `passed`, `failed` and the critical missing ids of the DOM phase. */
  function DomTally(s: Option<Slot<DomProbe.DomResults>>): Tally {
    if s.Some? && s.value.Done? then
      var d := s.value.value;
      Tally(d.total, d.passed, d.failed, |d.criticalMissing|)
    else Nothing
  }

  /** `tested`, `passed`, `failed` and the errors of the storage phase. */
  function StorageTally(s: Option<Slot<Storage.StorageResults>>): Tally {
    if s.Some? && s.value.Done? then
      var st := s.value.value;
      Tally(st.tested, st.passed, st.failed, |st.errors|)
    else Nothing
  }

  /** `generateExecutiveSummary` without its rendering. */
  function ExecutiveSummary(res: Results): Tally {
    var m, d, s := ModulesTally(res.modules), DomTally(res.dom), StorageTally(res.storage);
    Tally(m.total + d.total + s.total, m.passed + d.passed + s.passed,
          m.failed + d.failed + s.failed, m.critical + d.critical + s.critical)
  }

  /**
   * With the three phases done, the totals are the modules total, the DOM total and the
   * number of storage keys tested, and the critical failures are the failed critical
   * modules, the critical missing ids and the storage errors.
   */
  lemma SummaryOfAllPhases(res: Results)
    requires res.modules.Some? && res.modules.value.Done?
    requires res.dom.Some? && res.dom.value.Done?
    requires res.storage.Some? && res.storage.value.Done?
    ensures var t, m, d, s := ExecutiveSummary(res), res.modules.value.value, res.dom.value.value, res.storage.value.value;
      && t.total == m.total + d.total + s.tested
      && t.passed == m.passed + d.passed + s.passed
      && t.failed == m.failed + d.failed + s.failed
      && t.critical == m.criticalFailed + |d.criticalMissing| + |s.errors|
  {
  }

  /** A phase that did not run, or that threw, adds nothing to the summary. */
  lemma SummaryIgnoresMissingPhases(res: Results)
    requires res.modules.None? || res.modules.value.Threw?
    requires res.dom.None? || res.dom.value.Threw?
    requires res.storage.None? || res.storage.value.Threw?
    ensures var t := ExecutiveSummary(res);
      t.total == 0 && t.passed == 0 && t.failed == 0 && t.critical == 0
  {
  }

  /** Each phase whose counters account for every test it ran. */
  predicate Accounted(res: Results) {
    && (res.modules.Some? && res.modules.value.Done? ==>
          res.modules.value.value.passed + res.modules.value.value.failed == res.modules.value.value.total)
    && (res.dom.Some? && res.dom.value.Done? ==>
          res.dom.value.value.passed + res.dom.value.value.failed == res.dom.value.value.total)
    && (res.storage.Some? && res.storage.value.Done? ==>
          res.storage.value.value.passed + res.storage.value.value.failed == res.storage.value.value.tested)
  }

  /** When every phase accounts for its tests, so does the summary. */
  lemma SummaryAccounts(res: Results)
    requires Accounted(res)
    ensures ExecutiveSummary(res).passed + ExecutiveSummary(res).failed == ExecutiveSummary(res).total
  {
    var m, d, s := ModulesTally(res.modules), DomTally(res.dom), StorageTally(res.storage);
    assert m.passed + m.failed == m.total;
    assert d.passed + d.failed == d.total;
    assert s.passed + s.failed == s.total;
  }

  /** The three-level status line. */
  datatype Status = NoCritical | SomeProblems | Urgent

  function StatusText(st: Status): string {
    match st
    case NoCritical => "✅ STATUS : AUCUNE ERREUR CRITIQUE"
    case SomeProblems => "⚠️  STATUS : QUELQUES PROBLÈMES À CORRIGER"
    case Urgent => "❌ STATUS : CORRECTIONS URGENTES NÉCESSAIRES"
  }

  /** The status line: none, one to three, or four and more critical failures. */
  function Banner(critical: nat): (st: Status)
    ensures st == NoCritical <==> critical == 0
    ensures st == SomeProblems <==> 1 <= critical <= 3
    ensures st == Urgent <==> critical >= 4
  {
    if critical == 0 then NoCritical
    else if critical <= 3 then SomeProblems
    else Urgent
  }

  /** `results.modules.criticalFailed > 0`; false for a phase that threw. */
  predicate ModulesCritical(res: Results) {
    res.modules.Some? && res.modules.value.Done? && res.modules.value.value.criticalFailed > 0
  }

  predicate DomCritical(res: Results) {
    res.dom.Some? && res.dom.value.Done? && |res.dom.value.value.criticalMissing| > 0
  }

  predicate StorageBroken(res: Results) {
    res.storage.Some? && res.storage.value.Done? && |res.storage.value.value.errors| > 0
  }

  /**
   * The banner reports no critical failure exactly when no module failed critically, no
   * critical id is missing and storage has no error -- the three urgent-or-repair rules of
   * the recommendations.
   */
  lemma BannerMatchesRules(res: Results)
    ensures Banner(ExecutiveSummary(res).critical) == NoCritical <==>
      !ModulesCritical(res) && !DomCritical(res) && !StorageBroken(res)
  {
  }

  // ------------------------------------------------------------------ recommendations

  /** The five recommendations, in the order their rules are checked. */
  datatype Advice = FixModules | AddIds | RepairStorage | CheckChart | FixErrors

  function AdviceText(a: Advice): string {
    match a
    case FixModules => "🔴 URGENT : Corriger les modules critiques défaillants"
    case AddIds => "🔴 URGENT : Ajouter les IDs critiques manquants dans index.html"
    case RepairStorage => "🟡 Réparer les données localStorage corrompues"
    case CheckChart => "🟡 Vérifier le chargement de Chart.js dans index.html"
    case FixErrors => "🟡 Corriger les erreurs JavaScript capturées"
  }

  /** The position of a rule in `generateRecommendations`. */
  function Rank(a: Advice): nat {
    match a
    case FixModules => 0
    case AddIds => 1
    case RepairStorage => 2
    case CheckChart => 3
    case FixErrors => 4
  }

  /** `results.chartJS && !results.chartJS.available`: an absent result recommends nothing. */
  predicate ChartMissing(res: Results) {
    res.chartJS.Some? && !res.chartJS.value.available
  }

  /** Whether the rule of a recommendation fires. */
  predicate Fires(res: Results, errors: seq<CapturedError>, a: Advice) {
    match a
    case FixModules => ModulesCritical(res)
    case AddIds => DomCritical(res)
    case RepairStorage => StorageBroken(res)
    case CheckChart => ChartMissing(res)
    case FixErrors => |errors| > 0
  }

  /** `if (fires) recommendations.push(a)`. */
  function AddIf(recs: seq<Advice>, fires: bool, a: Advice): seq<Advice> {
    if fires then recs + [a] else recs
  }

  /**
   * The five rules of `generateRecommendations` in order, given whether each holds: a
   * failed critical module, a critical missing id, a storage error, Chart.js unavailable,
   * a captured error.
   */
  function AdviceFor(m: bool, d: bool, st: bool, c: bool, e: bool): seq<Advice> {
    var r1 := AddIf([], m, FixModules);
    var r2 := AddIf(r1, d, AddIds);
    var r3 := AddIf(r2, st, RepairStorage);
    var r4 := AddIf(r3, c, CheckChart);
    AddIf(r4, e, FixErrors)
  }

  /** `generateRecommendations` before the numbering. */
  function Recommendations(res: Results, errors: seq<CapturedError>): seq<Advice> {
    AdviceFor(ModulesCritical(res), DomCritical(res), StorageBroken(res), ChartMissing(res), |errors| > 0)
  }

  /** The recommendations are in the order of their rules, each at most once. */
  predicate RankSorted(recs: seq<Advice>) {
    forall i, j :: 0 <= i < j < |recs| ==> Rank(recs[i]) < Rank(recs[j])
  }

  /** Every recommendation of recs comes from a rule checked before k. */
  predicate RanksBelow(recs: seq<Advice>, k: nat) {
    forall i :: 0 <= i < |recs| ==> Rank(recs[i]) < k
  }

  /** Adding a after recommendations of lower rank keeps them in rank order. */
  lemma AddIfKeepsOrder(recs: seq<Advice>, fires: bool, a: Advice)
    requires RankSorted(recs) && RanksBelow(recs, Rank(a))
    ensures RankSorted(AddIf(recs, fires, a)) && RanksBelow(AddIf(recs, fires, a), Rank(a) + 1)
    ensures |AddIf(recs, fires, a)| == |recs| + (if fires then 1 else 0)
  {
  }

  /** a is then recommended exactly when its rule fired, as it was not before. */
  lemma AddIfMember(recs: seq<Advice>, fires: bool, a: Advice, x: Advice)
    requires RanksBelow(recs, Rank(a))
    ensures x in AddIf(recs, fires, a) <==> x in recs || (fires && x == a)
    ensures a in AddIf(recs, fires, a) <==> fires
  {
    assert forall i :: 0 <= i < |recs| ==> recs[i] != a;
  }

  /** Each rule's advice is given exactly when the rule holds. */
  lemma AdviceForMember(m: bool, d: bool, st: bool, c: bool, e: bool, a: Advice)
    ensures a in AdviceFor(m, d, st, c, e) <==>
      || (a == FixModules && m) || (a == AddIds && d) || (a == RepairStorage && st)
      || (a == CheckChart && c) || (a == FixErrors && e)
  {
    var r1 := AddIf([], m, FixModules);
    AddIfKeepsOrder([], m, FixModules);
    AddIfMember([], m, FixModules, a);
    var r2 := AddIf(r1, d, AddIds);
    AddIfKeepsOrder(r1, d, AddIds);
    AddIfMember(r1, d, AddIds, a);
    var r3 := AddIf(r2, st, RepairStorage);
    AddIfKeepsOrder(r2, st, RepairStorage);
    AddIfMember(r2, st, RepairStorage, a);
    var r4 := AddIf(r3, c, CheckChart);
    AddIfKeepsOrder(r3, c, CheckChart);
    AddIfMember(r3, c, CheckChart, a);
    AddIfMember(r4, e, FixErrors, a);
  }

  /** The advice comes in rule order, at most one line per rule. */
  lemma AdviceForSorted(m: bool, d: bool, st: bool, c: bool, e: bool)
    ensures RankSorted(AdviceFor(m, d, st, c, e)) && |AdviceFor(m, d, st, c, e)| <= 5
  {
    var r1 := AddIf([], m, FixModules);
    AddIfKeepsOrder([], m, FixModules);
    var r2 := AddIf(r1, d, AddIds);
    AddIfKeepsOrder(r1, d, AddIds);
    var r3 := AddIf(r2, st, RepairStorage);
    AddIfKeepsOrder(r2, st, RepairStorage);
    var r4 := AddIf(r3, c, CheckChart);
    AddIfKeepsOrder(r3, c, CheckChart);
    AddIfKeepsOrder(r4, e, FixErrors);
  }

  /**
   * A recommendation is made exactly when its rule fires, and the recommendations come in
   * the order of the rules, each at most once.
   */
  lemma RecommendationsMeaning(res: Results, errors: seq<CapturedError>, a: Advice)
    ensures a in Recommendations(res, errors) <==> Fires(res, errors, a)
    ensures RankSorted(Recommendations(res, errors)) && |Recommendations(res, errors)| <= 5
  {
    AdviceForMember(ModulesCritical(res), DomCritical(res), StorageBroken(res), ChartMissing(res), |errors| > 0, a);
    AdviceForSorted(ModulesCritical(res), DomCritical(res), StorageBroken(res), ChartMissing(res), |errors| > 0);
  }

  /** Nothing is recommended exactly when no rule fires. */
  lemma NoRecommendationIff(res: Results, errors: seq<CapturedError>)
    ensures Recommendations(res, errors) == [] <==> forall a :: !Fires(res, errors, a)
  {
    var r := Recommendations(res, errors);
    if r == [] {
      forall a
        ensures !Fires(res, errors, a)
      {
        RecommendationsMeaning(res, errors, a);
      }
    } else {
      RecommendationsMeaning(res, errors, r[0]);
    }
  }

  /** A line of the recommendations section. */
  datatype AdviceLine =
    | Numbered(k: nat, advice: Advice)  // k. advice
    | NoAdvice                          // ✅ Aucune recommandation - ...

  function AdviceLineText(l: AdviceLine): string {
    match l
    case Numbered(k, a) => NatToString(k) + ". " + AdviceText(a)
    case NoAdvice => "✅ Aucune recommandation - Tout fonctionne correctement !"
  }

  function NumberedAll(recs: seq<Advice>): (ls: seq<AdviceLine>) {
    if |recs| == 0 then []
    else NumberedAll(recs[..|recs| - 1]) + [Numbered(|recs|, recs[|recs| - 1])]
  }

  /** The k-th line carries the k-th recommendation under the number k + 1. */
  lemma {:induction false} NumberedAllAt(recs: seq<Advice>)
    ensures |NumberedAll(recs)| == |recs|
    ensures forall i :: 0 <= i < |recs| ==> NumberedAll(recs)[i] == Numbered(i + 1, recs[i])
  {
    if |recs| > 0 {
      NumberedAllAt(recs[..|recs| - 1]);
    }
  }

  /** The lines of the recommendations section. */
  function RecommendationLines(recs: seq<Advice>): seq<AdviceLine> {
    if |recs| == 0 then [NoAdvice] else NumberedAll(recs)
  }

  /** The `forEach` numbering the recommendations from 1. */
  method NumberRecommendations(recs: seq<Advice>) returns (lines: seq<AdviceLine>)
    ensures lines == NumberedAll(recs)
  {
    lines := [];
    var i := 0;
    while i < |recs|
      invariant 0 <= i <= |recs|
      invariant lines == NumberedAll(recs[..i])
    {
      assert recs[..i + 1][..i] == recs[..i];
      lines := lines + [Numbered(i + 1, recs[i])];
      i := i + 1;
    }
    assert recs[..i] == recs;
  }

  /** `generateRecommendations`: the rules in order, then one numbered line per rule that fired. */
  method GenerateRecommendations(res: Results, errors: seq<CapturedError>) returns (lines: seq<AdviceLine>)
    ensures var recs := Recommendations(res, errors);
      && lines == RecommendationLines(recs)
      && (|recs| == 0 ==> lines == [NoAdvice])
      && (|recs| > 0 ==> |lines| == |recs| && forall i :: 0 <= i < |recs| ==> lines[i] == Numbered(i + 1, recs[i]))
  {
    var recs: seq<Advice> := [];
    if ModulesCritical(res) {
      recs := recs + [FixModules];
    }
    ghost var r1 := recs;
    if DomCritical(res) {
      recs := recs + [AddIds];
    }
    ghost var r2 := recs;
    assert r2 == AddIf(r1, DomCritical(res), AddIds);
    if StorageBroken(res) {
      recs := recs + [RepairStorage];
    }
    ghost var r3 := recs;
    assert r3 == AddIf(r2, StorageBroken(res), RepairStorage);
    if ChartMissing(res) {
      recs := recs + [CheckChart];
    }
    ghost var r4 := recs;
    assert r4 == AddIf(r3, ChartMissing(res), CheckChart);
    if |errors| > 0 {
      recs := recs + [FixErrors];
    }
    assert recs == AddIf(r4, |errors| > 0, FixErrors);
    if |recs| == 0 {
      lines := [NoAdvice];
    } else {
      lines := NumberRecommendations(recs);
    }
    NumberedAllAt(recs);
  }

  // ------------------------------------------------------------------ DOM section

  /** A line of the DOM section. */
  datatype DomLine =
    | TotalIds(n: nat)            // Total IDs testés : n
    | FoundIds(n: nat)            // IDs trouvés : n
    | MissingIds(n: nat)          // IDs manquants : n
    | CriticalHeader              // ❌ IDs CRITIQUES MANQUANTS :
    | AllMissingHeader            // ⚠️  Tous les IDs manquants :
    | Bullet(id: string)          //    - #id
    | TooLong(n: nat)             // ⚠️  n IDs manquants (liste trop longue)
    | Blank

  function DomLineText(l: DomLine): string {
    match l
    case TotalIds(n) => "Total IDs testés : " + NatToString(n)
    case FoundIds(n) => "IDs trouvés : " + NatToString(n)
    case MissingIds(n) => "IDs manquants : " + NatToString(n)
    case CriticalHeader => "❌ IDs CRITIQUES MANQUANTS :"
    case AllMissingHeader => "⚠️  Tous les IDs manquants :"
    case Bullet(id) => "   - #" + id
    case TooLong(n) => "⚠️  " + NatToString(n) + " IDs manquants (liste trop longue)"
    case Blank => ""
  }

  function Bullets(ids: seq<string>): (ls: seq<DomLine>)
    ensures |ls| == |ids|
  {
    if |ids| == 0 then [] else Bullets(ids[..|ids| - 1]) + [Bullet(ids[|ids| - 1])]
  }

  /** The bullets are those of the ids, one each, in order. */
  lemma {:induction false} BulletsShape(ids: seq<string>)
    ensures forall i :: 0 <= i < |ids| ==> Bullets(ids)[i] == Bullet(ids[i])
    ensures forall l :: l in Bullets(ids) ==> l.Bullet?
  {
    if |ids| > 0 {
      BulletsShape(ids[..|ids| - 1]);
    }
  }

  /** `lines` followed by one bullet per id, as the `forEach` loops of the section write them. */
  method AppendBullets(lines: seq<DomLine>, ids: seq<string>) returns (out: seq<DomLine>)
    ensures out == lines + Bullets(ids)
  {
    out := lines;
    var i := 0;
    while i < |ids|
      invariant 0 <= i <= |ids|
      invariant out == lines + Bullets(ids[..i])
    {
      assert ids[..i + 1][..i] == ids[..i];
      out := out + [Bullet(ids[i])];
      i := i + 1;
    }
    assert ids[..i] == ids;
  }

  /** The three counters of the section and the blank line after them. */
  function DomCountLines(total: nat, passed: nat, failed: nat): seq<DomLine> {
    [TotalIds(total), FoundIds(passed), MissingIds(failed), Blank]
  }

  function CriticalBlock(crit: seq<string>): seq<DomLine> {
    if |crit| > 0 then [CriticalHeader] + Bullets(crit) + [Blank] else []
  }

  function MissingBlock(missing: seq<string>): seq<DomLine> {
    if 0 < |missing| <= 20 then [AllMissingHeader] + Bullets(missing) + [Blank]
    else if |missing| > 20 then [TooLong(|missing|), Blank]
    else []
  }

  /** `generateDOMSection`; a phase that threw has no counters, which read as 0. */
  function DomSectionOf(slot: Slot<DomProbe.DomResults>): seq<DomLine> {
    match slot
    case Threw(_) => DomCountLines(0, 0, 0)
    case Done(d) => DomCountLines(d.total, d.passed, d.failed) + CriticalBlock(d.criticalMissing) + MissingBlock(d.missing)
  }

  /** `generateDOMSection` as it runs. */
  method GenerateDomSection(slot: Slot<DomProbe.DomResults>) returns (lines: seq<DomLine>)
    ensures lines == DomSectionOf(slot)
  {
    if slot.Threw? {
      return DomCountLines(0, 0, 0);
    }
    var d := slot.value;
    var counts := DomCountLines(d.total, d.passed, d.failed);
    lines := counts;
    if |d.criticalMissing| > 0 {
      lines := AppendBullets(lines + [CriticalHeader], d.criticalMissing);
      lines := lines + [Blank];
    }
    ghost var head := lines;
    assert head == counts + CriticalBlock(d.criticalMissing);
    if |d.missing| > 0 && |d.missing| <= 20 {
      lines := AppendBullets(lines + [AllMissingHeader], d.missing);
      lines := lines + [Blank];
    } else if |d.missing| > 20 {
      lines := lines + [TooLong(|d.missing|), Blank];
    }
    assert lines == head + MissingBlock(d.missing);
  }

  /** The critical missing ids are always listed, under their header. */
  lemma DomSectionCritical(d: DomProbe.DomResults)
    ensures CriticalHeader in DomSectionOf(Done(d)) <==> |d.criticalMissing| > 0
    ensures forall id :: id in d.criticalMissing ==> Bullet(id) in DomSectionOf(Done(d))
  {
    var counts, cb, mb := DomCountLines(d.total, d.passed, d.failed), CriticalBlock(d.criticalMissing), MissingBlock(d.missing);
    assert DomSectionOf(Done(d)) == (counts + cb) + mb;
    BulletsShape(d.criticalMissing);
    BulletsShape(d.missing);
    forall id | id in d.criticalMissing
      ensures Bullet(id) in DomSectionOf(Done(d))
    {
      var i :| 0 <= i < |d.criticalMissing| && d.criticalMissing[i] == id;
      assert cb[1 + i] == Bullet(id);
      InRight(counts, cb, Bullet(id));
      InLeft(counts + cb, mb, Bullet(id));
    }
    if |d.criticalMissing| > 0 {
      assert cb[0] == CriticalHeader;
      InRight(counts, cb, CriticalHeader);
      InLeft(counts + cb, mb, CriticalHeader);
    }
  }

  /**
   * Every missing id is listed, under its header, exactly when one to twenty are missing;
   * above twenty only their number is.
   */
  lemma DomSectionMissing(d: DomProbe.DomResults)
    ensures AllMissingHeader in DomSectionOf(Done(d)) <==> 1 <= |d.missing| <= 20
    ensures 1 <= |d.missing| <= 20 ==> forall id :: id in d.missing ==> Bullet(id) in DomSectionOf(Done(d))
    ensures TooLong(|d.missing|) in DomSectionOf(Done(d)) <==> |d.missing| > 20
  {
    var counts, cb, mb := DomCountLines(d.total, d.passed, d.failed), CriticalBlock(d.criticalMissing), MissingBlock(d.missing);
    assert DomSectionOf(Done(d)) == (counts + cb) + mb;
    BulletsShape(d.criticalMissing);
    BulletsShape(d.missing);
    if 1 <= |d.missing| <= 20 {
      forall id | id in d.missing
        ensures Bullet(id) in DomSectionOf(Done(d))
      {
        var i :| 0 <= i < |d.missing| && d.missing[i] == id;
        assert mb[1 + i] == Bullet(id);
        InRight(counts + cb, mb, Bullet(id));
      }
      assert mb[0] == AllMissingHeader;
      InRight(counts + cb, mb, AllMissingHeader);
    }
    if |d.missing| > 20 {
      assert mb[0] == TooLong(|d.missing|);
      InRight(counts + cb, mb, TooLong(|d.missing|));
    }
  }

  // ------------------------------------------------------------------ errors section

  /** A line of the errors section. */
  datatype ErrorLine =
    | TotalErrors(n: nat)         // Total erreurs capturées : n
    | Heading(k: nat)             // Erreur #k :
    | KindLine(kind: string)      //    Type : kind
    | MessageLine(message: string) //    Message : message
    | FileLine(file: string, line: nat) //    Fichier : file:line
    | StampLine(stamp: string)    //    Timestamp : stamp
    | MoreErrors(n: nat)          // ... et n autres erreurs
    | Gap

  function ErrorLineText(l: ErrorLine): string {
    match l
    case TotalErrors(n) => "Total erreurs capturées : " + NatToString(n)
    case Heading(k) => "Erreur #" + NatToString(k) + " :"
    case KindLine(kind) => "   Type : " + kind
    case MessageLine(m) => "   Message : " + m
    case FileLine(f, n) => "   Fichier : " + f + ":" + NatToString(n)
    case StampLine(t) => "   Timestamp : " + t
    case MoreErrors(n) => "... et " + NatToString(n) + " autres erreurs"
    case Gap => ""
  }

  /** The lines detailing one error; the file line only when the error names a file. */
  function ErrorBlock(k: nat, e: CapturedError): seq<ErrorLine> {
    [Heading(k), KindLine(e.kind), MessageLine(e.message)]
    + (if e.filename != "" then [FileLine(e.filename, e.lineno)] else [])
    + [StampLine(e.timestamp), Gap]
  }

  /** The blocks of es, numbered from 1. */
  function ErrorBlocks(es: seq<CapturedError>): seq<ErrorLine> {
    if |es| == 0 then []
    else ErrorBlocks(es[..|es| - 1]) + ErrorBlock(|es|, es[|es| - 1])
  }

  /** `errors.slice(0, 10)`. */
  function Detailed(errors: seq<CapturedError>): (ds: seq<CapturedError>)
    ensures |ds| == if |errors| < 10 then |errors| else 10
    ensures forall i :: 0 <= i < |ds| ==> ds[i] == errors[i]
  {
    if |errors| < 10 then errors else errors[..10]
  }

  function ErrorsSectionOf(errors: seq<CapturedError>): seq<ErrorLine> {
    [TotalErrors(|errors|), Gap]
    + ErrorBlocks(Detailed(errors))
    + (if |errors| > 10 then [MoreErrors(|errors| - 10), Gap] else [])
  }

  /** The `forEach` over the detailed errors: one block each, numbered from 1. */
  method DetailErrors(es: seq<CapturedError>) returns (lines: seq<ErrorLine>)
    ensures lines == ErrorBlocks(es)
  {
    lines := [];
    var i := 0;
    while i < |es|
      invariant 0 <= i <= |es|
      invariant lines == ErrorBlocks(es[..i])
    {
      assert es[..i + 1][..i] == es[..i];
      lines := lines + ErrorBlock(i + 1, es[i]);
      i := i + 1;
    }
    assert es[..i] == es;
  }

  /** `generateErrorsSection` as it runs. */
  method GenerateErrorsSection(errors: seq<CapturedError>) returns (lines: seq<ErrorLine>)
    ensures lines == ErrorsSectionOf(errors)
  {
    lines := [TotalErrors(|errors|), Gap];
    var shown := if |errors| < 10 then errors else errors[..10];
    var details := DetailErrors(shown);
    lines := lines + details;
    if |errors| > 10 {
      lines := lines + [MoreErrors(|errors| - 10), Gap];
    }
  }

  /** How many error headings ls holds. */
  function CountHeadings(ls: seq<ErrorLine>): nat {
    if |ls| == 0 then 0
    else CountHeadings(ls[..|ls| - 1]) + if ls[|ls| - 1].Heading? then 1 else 0
  }

  lemma {:induction false} CountHeadingsAppend(a: seq<ErrorLine>, b: seq<ErrorLine>)
    ensures CountHeadings(a + b) == CountHeadings(a) + CountHeadings(b)
  {
    if |b| == 0 {
      assert a + b == a;
    } else {
      CountHeadingsAppend(a, b[..|b| - 1]);
      assert (a + b)[..|a + b| - 1] == a + b[..|b| - 1];
    }
  }

  /** A run of lines without a heading counts none. */
  lemma {:induction false} CountHeadingsNone(ls: seq<ErrorLine>)
    requires forall i :: 0 <= i < |ls| ==> !ls[i].Heading?
    ensures CountHeadings(ls) == 0
  {
    if |ls| > 0 {
      CountHeadingsNone(ls[..|ls| - 1]);
    }
  }

  /** Each block opens with its own heading and holds no other. */
  lemma ErrorBlockHeadings(k: nat, e: CapturedError)
    ensures CountHeadings(ErrorBlock(k, e)) == 1
  {
    var rest := ErrorBlock(k, e)[1..];
    assert ErrorBlock(k, e) == [Heading(k)] + rest;
    CountHeadingsNone(rest);
    CountHeadingsAppend([Heading(k)], rest);
    assert [Heading(k)][..0] == [];
  }

  /** The blocks of es hold one heading per error. */
  lemma {:induction false} ErrorBlocksHeadings(es: seq<CapturedError>)
    ensures CountHeadings(ErrorBlocks(es)) == |es|
  {
    if |es| > 0 {
      var p := es[..|es| - 1];
      ErrorBlocksHeadings(p);
      ErrorBlockHeadings(|es|, es[|es| - 1]);
      CountHeadingsAppend(ErrorBlocks(p), ErrorBlock(|es|, es[|es| - 1]));
    }
  }

  /** A line of a is a line of a + b. */
  lemma InLeft<T>(a: seq<T>, b: seq<T>, x: T)
    requires x in a
    ensures x in a + b
  {
    var j :| 0 <= j < |a| && a[j] == x;
    assert (a + b)[j] == x;
  }

  /** A line of b is a line of a + b. */
  lemma InRight<T>(a: seq<T>, b: seq<T>, x: T)
    requires x in b
    ensures x in a + b
  {
    var j :| 0 <= j < |b| && b[j] == x;
    assert (a + b)[|a| + j] == x;
  }

  /** The k-th error is detailed under `Erreur #k+1`, with its own message. */
  lemma {:induction false} ErrorBlocksDetail(es: seq<CapturedError>, i: nat)
    requires i < |es|
    ensures Heading(i + 1) in ErrorBlocks(es) && MessageLine(es[i].message) in ErrorBlocks(es)
  {
    var p, e := es[..|es| - 1], es[|es| - 1];
    var b := ErrorBlock(|es|, e);
    assert ErrorBlocks(es) == ErrorBlocks(p) + b;
    if i < |p| {
      ErrorBlocksDetail(p, i);
      assert es[i] == p[i];
      InLeft(ErrorBlocks(p), b, Heading(i + 1));
      InLeft(ErrorBlocks(p), b, MessageLine(p[i].message));
    } else {
      assert b[0] == Heading(|es|) && b[2] == MessageLine(e.message);
      InRight(ErrorBlocks(p), b, Heading(i + 1));
      InRight(ErrorBlocks(p), b, MessageLine(e.message));
    }
  }

  /** No block line counts left-out errors. */
  lemma {:induction false} ErrorBlocksNoMore(es: seq<CapturedError>)
    ensures forall l :: l in ErrorBlocks(es) ==> !l.MoreErrors?
  {
    if |es| > 0 {
      ErrorBlocksNoMore(es[..|es| - 1]);
    }
  }

  /** The section holds one heading per detailed error: at most ten. */
  lemma ErrorsSectionHeadings(errors: seq<CapturedError>)
    ensures CountHeadings(ErrorsSectionOf(errors)) == if |errors| < 10 then |errors| else 10
  {
    var ds := Detailed(errors);
    var head := [TotalErrors(|errors|), Gap];
    var tail: seq<ErrorLine> := if |errors| > 10 then [MoreErrors(|errors| - 10), Gap] else [];
    assert ErrorsSectionOf(errors) == head + ErrorBlocks(ds) + tail;
    ErrorBlocksHeadings(ds);
    CountHeadingsNone(head);
    CountHeadingsNone(tail);
    CountHeadingsAppend(head, ErrorBlocks(ds));
    CountHeadingsAppend(head + ErrorBlocks(ds), tail);
  }

  /** The first ten errors are detailed, in order, each under its number. */
  lemma ErrorsSectionDetails(errors: seq<CapturedError>, i: nat)
    requires i < |errors| && i < 10
    ensures Heading(i + 1) in ErrorsSectionOf(errors)
    ensures MessageLine(errors[i].message) in ErrorsSectionOf(errors)
  {
    var ds := Detailed(errors);
    var head := [TotalErrors(|errors|), Gap];
    var tail: seq<ErrorLine> := if |errors| > 10 then [MoreErrors(|errors| - 10), Gap] else [];
    assert ErrorsSectionOf(errors) == (head + ErrorBlocks(ds)) + tail;
    ErrorBlocksDetail(ds, i);
    assert ds[i] == errors[i];
    InRight(head, ErrorBlocks(ds), Heading(i + 1));
    InRight(head, ErrorBlocks(ds), MessageLine(ds[i].message));
    InLeft(head + ErrorBlocks(ds), tail, Heading(i + 1));
    InLeft(head + ErrorBlocks(ds), tail, MessageLine(ds[i].message));
  }

  /** The count of left-out errors follows exactly when there are more than ten. */
  lemma ErrorsSectionMore(errors: seq<CapturedError>)
    ensures (exists l :: l in ErrorsSectionOf(errors) && l.MoreErrors?) <==> |errors| > 10
    ensures |errors| > 10 ==> MoreErrors(|errors| - 10) in ErrorsSectionOf(errors)
  {
    var ds := Detailed(errors);
    var head := [TotalErrors(|errors|), Gap];
    var tail: seq<ErrorLine> := if |errors| > 10 then [MoreErrors(|errors| - 10), Gap] else [];
    assert ErrorsSectionOf(errors) == (head + ErrorBlocks(ds)) + tail;
    ErrorBlocksNoMore(ds);
    if |errors| > 10 {
      InRight(head + ErrorBlocks(ds), tail, MoreErrors(|errors| - 10));
    }
  }

  // ------------------------------------------------------------------ text report

  /**
   * The parts of the text report, in order. The bodies of the modules, storage, events and
   * Chart.js sections are not modelled, only whether they appear.
   */
  datatype Part =
    | SummaryPart(tally: Tally, status: Status)
    | ModulesPart
    | DomPart(domLines: seq<DomLine>)
    | StoragePart
    | EventsPart
    | ChartPart
    | ErrorsPart(errorLines: seq<ErrorLine>)
    | RecommendationsPart(adviceLines: seq<AdviceLine>)

  /** The number of a part in the report's headings; 0 for the executive summary. */
  function Number(p: Part): nat {
    match p
    case SummaryPart(_, _) => 0
    case ModulesPart => 1
    case DomPart(_) => 2
    case StoragePart => 3
    case EventsPart => 4
    case ChartPart => 5
    case ErrorsPart(_) => 6
    case RecommendationsPart(_) => 7
  }

  /**
   * The sections 1 to 7 of `generateTextReport`, None where one is skipped: each of the
   * first six when its result exists, the recommendations always.
   */
  function Sections(res: Results, errors: seq<CapturedError>): (os: seq<Option<Part>>)
    ensures |os| == 7
    ensures os[6].Some?
  {
    [ if res.modules.Some? then Some(ModulesPart) else None,
      if res.dom.Some? then Some(DomPart(DomSectionOf(res.dom.value))) else None,
      if res.storage.Some? then Some(StoragePart) else None,
      if res.events then Some(EventsPart) else None,
      if res.chartJS.Some? || res.chartDetailed then Some(ChartPart) else None,
      if |errors| > 0 then Some(ErrorsPart(ErrorsSectionOf(errors))) else None,
      Some(RecommendationsPart(RecommendationLines(Recommendations(res, errors)))) ]
  }

  /** Each present section of os carries number base + its position. */
  predicate NumberedFrom(os: seq<Option<Part>>, base: nat) {
    forall i :: 0 <= i < |os| && os[i].Some? ==> Number(os[i].value) == base + i
  }

  /** Report sections are numbered 1 to 7 by position. */
  lemma SectionsNumbered(res: Results, errors: seq<CapturedError>)
    ensures NumberedFrom(Sections(res, errors), 1)
  {
    var os := Sections(res, errors);
    forall i | 0 <= i < |os| && os[i].Some?
      ensures Number(os[i].value) == 1 + i
    {
      if i == 0 {
      } else if i == 1 {
      } else if i == 2 {
      } else if i == 3 {
      } else if i == 4 {
      } else if i == 5 {
      } else {
      }
    }
  }

  /** The sections that are present, in order. */
  function Present(os: seq<Option<Part>>): seq<Part> {
    if |os| == 0 then []
    else (if os[0].Some? then [os[0].value] else []) + Present(os[1..])
  }

  /** `generateTextReport` without its header, footer and rendering. */
  function TextReport(res: Results, errors: seq<CapturedError>): seq<Part> {
    var t := ExecutiveSummary(res);
    [SummaryPart(t, Banner(t.critical))] + Present(Sections(res, errors))
  }

  /** Whether the report has a part numbered k. */
  predicate HasSection(parts: seq<Part>, k: nat) {
    exists i :: 0 <= i < |parts| && Number(parts[i]) == k
  }

  /** Dropping the first section shifts the numbering by one. */
  lemma NumberedFromTail(os: seq<Option<Part>>, base: nat)
    requires |os| > 0 && NumberedFrom(os, base)
    ensures NumberedFrom(os[1..], base + 1)
  {
    forall i | 0 <= i < |os[1..]| && os[1..][i].Some?
      ensures Number(os[1..][i].value) == base + 1 + i
    {
      assert os[1..][i] == os[i + 1];
    }
  }

  /** A part numbered k is in a + b exactly when it is in a or in b. */
  lemma HasSectionConcat(a: seq<Part>, b: seq<Part>, k: nat)
    ensures HasSection(a + b, k) <==> HasSection(a, k) || HasSection(b, k)
  {
    if HasSection(a + b, k) {
      var i :| 0 <= i < |a + b| && Number((a + b)[i]) == k;
      if i >= |a| {
        assert b[i - |a|] == (a + b)[i];
      }
    }
    if HasSection(b, k) {
      var i :| 0 <= i < |b| && Number(b[i]) == k;
      assert (a + b)[|a| + i] == b[i];
    }
    if HasSection(a, k) {
      var i :| 0 <= i < |a| && Number(a[i]) == k;
      assert (a + b)[i] == a[i];
    }
  }

  /** The parts are numbered from lo to below hi. */
  predicate NumbersWithin(ps: seq<Part>, lo: nat, hi: nat) {
    forall i :: 0 <= i < |ps| ==> lo <= Number(ps[i]) < hi
  }

  /** The parts come in strictly increasing number. */
  predicate Increasing(ps: seq<Part>) {
    forall i, j :: 0 <= i < j < |ps| ==> Number(ps[i]) < Number(ps[j])
  }

  /** Numbered from base on, the present sections keep numbers base to base + |os| - 1. */
  lemma {:induction false} PresentBounds(os: seq<Option<Part>>, base: nat)
    requires NumberedFrom(os, base)
    ensures NumbersWithin(Present(os), base, base + |os|)
  {
    if |os| > 0 {
      var head: seq<Part> := if os[0].Some? then [os[0].value] else [];
      var rest := Present(os[1..]);
      var ps := Present(os);
      assert ps == head + rest;
      NumberedFromTail(os, base);
      PresentBounds(os[1..], base + 1);
      forall i | 0 <= i < |ps|
        ensures base <= Number(ps[i]) < base + |os|
      {
        if i >= |head| {
          assert ps[i] == rest[i - |head|];
        }
      }
    }
  }

  /** Numbered from base on, the present sections come in increasing order. */
  lemma {:induction false} PresentOrdered(os: seq<Option<Part>>, base: nat)
    requires NumberedFrom(os, base)
    ensures Increasing(Present(os))
  {
    if |os| > 0 {
      var head: seq<Part> := if os[0].Some? then [os[0].value] else [];
      var rest := Present(os[1..]);
      var ps := Present(os);
      assert ps == head + rest;
      NumberedFromTail(os, base);
      PresentOrdered(os[1..], base + 1);
      PresentBounds(os[1..], base + 1);
      forall i, j | 0 <= i < j < |ps|
        ensures Number(ps[i]) < Number(ps[j])
      {
        assert ps[j] == rest[j - |head|];
        if i >= |head| {
          assert ps[i] == rest[i - |head|];
        }
      }
    }
  }

  /** A last section that is present ends the list. */
  lemma {:induction false} PresentLast(os: seq<Option<Part>>)
    requires |os| > 0 && os[|os| - 1].Some?
    ensures |Present(os)| > 0 && Present(os)[|Present(os)| - 1] == os[|os| - 1].value
  {
    if |os| > 1 {
      PresentLast(os[1..]);
    } else {
      assert Present(os[1..]) == [];
    }
  }

  /** Section base + j is in the list exactly when it is present. */
  lemma {:induction false} PresentHas(os: seq<Option<Part>>, base: nat, j: nat)
    requires NumberedFrom(os, base)
    requires j < |os|
    ensures HasSection(Present(os), base + j) <==> os[j].Some?
  {
    var head: seq<Part> := if os[0].Some? then [os[0].value] else [];
    var rest := Present(os[1..]);
    assert Present(os) == head + rest;
    HasSectionConcat(head, rest, base + j);
    NumberedFromTail(os, base);
    if j == 0 {
      PresentBounds(os[1..], base + 1);
      forall i | 0 <= i < |rest|
        ensures Number(rest[i]) != base
      {
      }
    } else {
      PresentHas(os[1..], base + 1, j - 1);
      assert os[1..][j - 1] == os[j];
    }
  }

  /** A present section is in the list as given. */
  lemma {:induction false} PresentKeeps(os: seq<Option<Part>>, j: nat)
    requires j < |os| && os[j].Some?
    ensures os[j].value in Present(os)
  {
    var head: seq<Part> := if os[0].Some? then [os[0].value] else [];
    var rest := Present(os[1..]);
    assert Present(os) == head + rest;
    if j == 0 {
      InLeft(head, rest, os[0].value);
    } else {
      assert os[1..][j - 1] == os[j];
      PresentKeeps(os[1..], j - 1);
      InRight(head, rest, os[j].value);
    }
  }

  /**
   * The report opens with the summary and closes with the recommendations, and its
   * sections come in increasing order.
   */
  lemma TextReportOrder(res: Results, errors: seq<CapturedError>)
    ensures var ps := TextReport(res, errors);
      && ps[0] == SummaryPart(ExecutiveSummary(res), Banner(ExecutiveSummary(res).critical))
      && ps[|ps| - 1] == RecommendationsPart(RecommendationLines(Recommendations(res, errors)))
      && Increasing(ps)
  {
    var os := Sections(res, errors);
    var rest := Present(os);
    SectionsNumbered(res, errors);
    PresentOrdered(os, 1);
    PresentBounds(os, 1);
    PresentLast(os);
    var ps := TextReport(res, errors);
    assert ps[|ps| - 1] == rest[|rest| - 1];
    forall i, j | 0 <= i < j < |ps|
      ensures Number(ps[i]) < Number(ps[j])
    {
      assert ps[j] == rest[j - 1];
      if i > 0 {
        assert ps[i] == rest[i - 1];
      }
    }
  }

  /** The condition under which `generateTextReport` writes section k. */
  predicate Wanted(res: Results, errors: seq<CapturedError>, k: nat) {
    if k == 1 then res.modules.Some?
    else if k == 2 then res.dom.Some?
    else if k == 3 then res.storage.Some?
    else if k == 4 then res.events
    else if k == 5 then res.chartJS.Some? || res.chartDetailed
    else if k == 6 then |errors| > 0
    else k == 7
  }

  /** Section k is built exactly when it is wanted. */
  lemma SectionsWanted(res: Results, errors: seq<CapturedError>, k: nat)
    requires 1 <= k <= 7
    ensures Sections(res, errors)[k - 1].Some? <==> Wanted(res, errors, k)
  {
    var os := Sections(res, errors);
    if k == 1 {
    } else if k == 2 {
    } else if k == 3 {
    } else if k == 4 {
    } else if k == 5 {
    } else if k == 6 {
    } else {
    }
  }

  /** Section k of the report appears exactly when it is wanted, and then as given. */
  lemma TextReportHas(res: Results, errors: seq<CapturedError>, k: nat)
    requires 1 <= k <= 7
    ensures HasSection(TextReport(res, errors), k) <==> Wanted(res, errors, k)
    ensures Sections(res, errors)[k - 1].Some? ==> Sections(res, errors)[k - 1].value in TextReport(res, errors)
  {
    var os := Sections(res, errors);
    var rest := Present(os);
    var ps := TextReport(res, errors);
    var summary := ps[0];
    assert ps == [summary] + rest;
    SectionsNumbered(res, errors);
    SectionsWanted(res, errors, k);
    PresentHas(os, 1, k - 1);
    HasSectionConcat([summary], rest, k);
    if os[k - 1].Some? {
      PresentKeeps(os, k - 1);
      InRight([summary], rest, os[k - 1].value);
    }
  }

  /**
   * Sections 1-6 appear exactly when their result exists -- modules, DOM, storage, events,
   * Chart.js (either tester), captured errors -- and the recommendations always do.
   */
  lemma TextReportSections(res: Results, errors: seq<CapturedError>)
    ensures var ps := TextReport(res, errors);
      && (HasSection(ps, 1) <==> res.modules.Some?)
      && (HasSection(ps, 2) <==> res.dom.Some?)
      && (HasSection(ps, 3) <==> res.storage.Some?)
      && (HasSection(ps, 4) <==> res.events)
      && (HasSection(ps, 5) <==> res.chartJS.Some? || res.chartDetailed)
      && (HasSection(ps, 6) <==> |errors| > 0)
      && HasSection(ps, 7)
  {
    TextReportHas(res, errors, 1);
    TextReportHas(res, errors, 2);
    TextReportHas(res, errors, 3);
    TextReportHas(res, errors, 4);
    TextReportHas(res, errors, 5);
    TextReportHas(res, errors, 6);
    TextReportHas(res, errors, 7);
  }

  /** The DOM, errors and recommendations sections hold the lines generated for them. */
  lemma TextReportContents(res: Results, errors: seq<CapturedError>)
    ensures res.dom.Some? ==> DomPart(DomSectionOf(res.dom.value)) in TextReport(res, errors)
    ensures |errors| > 0 ==> ErrorsPart(ErrorsSectionOf(errors)) in TextReport(res, errors)
    ensures RecommendationsPart(RecommendationLines(Recommendations(res, errors))) in TextReport(res, errors)
  {
    var os := Sections(res, errors);
    TextReportHas(res, errors, 2);
    TextReportHas(res, errors, 6);
    TextReportHas(res, errors, 7);
  }
}
