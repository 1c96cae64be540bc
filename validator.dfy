/**
 * `utils/validator.js`: the in-browser concordance validators. Each one takes a parsed
 * config and a test file `{ content }`, collects name sets from both, reports the two
 * set differences and a `valid` flag, and turns an exception into a `Validation error`
 * entry; `validateAll` runs those whose inputs are present and takes the conjunction.
 */
module Validator {
  import opened Wrappers
  import opened Json
  import opened Text
  import opened Extract
  import opened OrderedSet
  import opened OrderedMap
  import Concordance
  import VM = ValidateModules

  /** A test file object; only its `content` is read. */
  datatype TestFile = TestFile(content: string)

  datatype IdsReport = IdsReport(
    valid: bool, totalConfigIds: nat, totalTestIds: nat,
    inConfigNotInTest: seq<Json>, inTestNotInConfig: seq<Json>,
    duplicatesInConfig: seq<Json>, duplicatesInTest: seq<string>, errors: seq<string>)

  datatype ModulesReport = ModulesReport(
    valid: bool, totalConfigModules: nat, totalTestModules: nat,
    inConfigNotInTest: seq<string>, inTestNotInConfig: seq<string>,
    exportsMismatch: seq<string>, errors: seq<string>)

  datatype EventsReport = EventsReport(
    valid: bool, totalConfigEvents: nat, totalTestEvents: nat,
    inConfigNotInTest: seq<string>, inTestNotInConfig: seq<string>, errors: seq<string>)

  /** The inputs of `validateAll`; an absent config is `null` here (both are falsy). */
  datatype Configs = Configs(ids: Json, modules: Json, events: Json)
  datatype TestFiles = TestFiles(dom: Option<TestFile>, modules: Option<TestFile>, events: Option<TestFile>)

  datatype FullReport = FullReport(
    ids: Option<IdsReport>, modules: Option<ModulesReport>, events: Option<EventsReport>, allValid: bool)

  function ValidationError(m: string): string { "Validation error: " + m }

  /** `testFile && testFile.content`: the text of the test file when there is some. */
  function ContentOf(tf: Option<TestFile>): Option<string> {
    if tf.Some? && tf.value.content != "" then Some(tf.value.content) else None
  }

  // ------------------------------------------------------------------ extraction

  /** `extractIDsFromTestFile`: the argument of every `getElementById('…')` call, as a set. */
  function TestIdsOf(tf: Option<TestFile>): seq<string> {
    match ContentOf(tf)
    case None => []
    case Some(c) => Dedup(ElementIdArgs(c))
  }

  /** The ids are those of the calls in the content, each once; there are none without content. */
  lemma TestIdsOfMeaning(tf: Option<TestFile>, x: string)
    ensures ContentOf(tf).None? ==> TestIdsOf(tf) == []
    ensures ContentOf(tf).Some? ==> (x in TestIdsOf(tf) <==> x in ElementIdArgs(ContentOf(tf).value))
    ensures NoDup(TestIdsOf(tf))
  {
  }

  /** A call with a literal id, with either kind of quotes, contributes that id. */
  lemma TestIdsOfCall(q1: char, id: string, q2: char, rest: string)
    requires q1 in Quotes && q2 in Quotes && |id| > 0 && NoQuotes(id)
    ensures id in TestIdsOf(Some(TestFile(IdCall + [q1] + id + [q2, ')'] + rest)))
  {
    ElementIdArgsCons(q1, id, q2, rest);
  }

  /**
   * `extractModulesFromTestFile` as written: the module keys inside the capture of
   * `MODULES_TO_TEST\s*=\s*\{([^}]+)\}`, which ends at the FIRST closing brace.
   */
  function ModulesAsWritten(tf: Option<TestFile>): seq<string> {
    match ContentOf(tf)
    case None => []
    case Some(c) =>
      match AssignedBlock(c, "MODULES_TO_TEST", '{', '}')
      case None => []
      case Some(b) => Dedup(JsKeys(b))
  }

  /**
   * The module keys of the whole `MODULES_TO_TEST` object literal, read up to its
   * closing `};` as `scripts/validate-modules.js` and `scripts/check-concordance.js` do.
   */
  function TestModulesOf(tf: Option<TestFile>): seq<string> {
    match ContentOf(tf)
    case None => []
    case Some(c) =>
      match Between(c, Concordance.ModulesAnchor, Concordance.ObjectClose)
      case None => []
      case Some(b) => Dedup(JsKeys(b))
  }

  /** `extractEventsFromTestFile`: the quoted names in the capture of `EVENTS_TO_TEST\s*=\s*\[([^\]]+)\]`. */
  function TestEventsOf(tf: Option<TestFile>): seq<string> {
    match ContentOf(tf)
    case None => []
    case Some(c) =>
      match AssignedBlock(c, "EVENTS_TO_TEST", '[', ']')
      case None => []
      case Some(b) => Dedup(QuotedTokens(b))
  }

  // ------------------------------------------------- the module literal and the first-brace bug

  /** A modules object literal, one `'name': {body}, ` per entry. */
  function ModuleLiteral(es: seq<ModuleEntry>): string {
    if |es| == 0 then []
    else [Quote] + es[0].name + [Quote, ':', ' ', '{'] + es[0].body + ['}', ',', ' '] + ModuleLiteral(es[1..])
  }

  /** Entry names usable as module keys, and bodies without quotes or braces. */
  predicate PlainEntries(es: seq<ModuleEntry>) {
    forall i :: 0 <= i < |es| ==>
      && |es[i].name| >= 4 && EndsWith(es[i].name, ".js") && QuoteFree(es[i].name) && Lacks(es[i].name, '}')
      && |es[i].body| > 0 && QuoteFree(es[i].body) && Lacks(es[i].body, '}')
  }

  function Names(es: seq<ModuleEntry>): (ns: seq<string>)
    ensures |ns| == |es| && forall i :: 0 <= i < |es| ==> ns[i] == es[i].name
  {
    seq(|es|, i requires 0 <= i < |es| => es[i].name)
  }

  /** Round trip: the module keys of a literal are its entry names, in order. */
  lemma {:induction false} JsKeysOfLiteral(es: seq<ModuleEntry>)
    requires PlainEntries(es)
    ensures JsKeys(ModuleLiteral(es)) == Names(es)
  {
    if |es| > 0 {
      assert JsKeys(ModuleLiteral(es)) == [es[0].name] + JsKeys(ModuleLiteral(es[1..])) by {
        JsKeysOfEntry(es[0], ModuleLiteral(es[1..]));
      }
      assert PlainEntries(es[1..]) by {
        assert forall i :: 0 <= i < |es| - 1 ==> es[1..][i] == es[i + 1];
      }
      JsKeysOfLiteral(es[1..]);
      assert Names(es) == [es[0].name] + Names(es[1..]);
    }
  }

  /** One entry in front of the rest of a literal adds its name in front of the rest's keys. */
  lemma JsKeysOfEntry(e: ModuleEntry, tail: string)
    requires |e.name| >= 4 && EndsWith(e.name, ".js") && QuoteFree(e.name) && QuoteFree(e.body)
    ensures JsKeys([Quote] + e.name + [Quote, ':', ' ', '{'] + e.body + ['}', ',', ' '] + tail) == [e.name] + JsKeys(tail)
  {
    var gap := [' ', '{'] + e.body + ['}', ',', ' '];
    assert [Quote] + e.name + [Quote, ':', ' ', '{'] + e.body + ['}', ',', ' '] + tail
      == [Quote] + e.name + [Quote, ':'] + (gap + tail);
    JsKeysCons(e.name, gap + tail);
    assert QuoteFree(gap) by {
      LacksConcat([' ', '{'], e.body, Quote);
      LacksConcat([' ', '{'] + e.body, ['}', ',', ' '], Quote);
    }
    JsKeysSkip(gap, tail);
  }

  /** The test file that declares the given entries. */
  function ModulesFile(es: seq<ModuleEntry>): Option<TestFile> {
    Some(TestFile(ModulesText(es)))
  }

  /** Its text: the declaration, the literal and the closing `};`. */
  function ModulesText(es: seq<ModuleEntry>): string {
    Concordance.ModulesAnchor + ModuleLiteral(es) + Concordance.ObjectClose
  }

  /** The text split where the first entry's closing brace stands. */
  lemma ModulesTextAtFirstBrace(es: seq<ModuleEntry>)
    requires |es| >= 1
    ensures ModulesText(es) == "const " + "MODULES_TO_TEST" + ([' ', '=', ' ', '{'] + FirstEntryText(es[0]) + ['}']
      + ([',', ' '] + ModuleLiteral(es[1..]) + Concordance.ObjectClose))
  {
    ModulesAnchorParts();
  }

  /** The first entry's text up to (not including) its closing brace. */
  function FirstEntryText(e: ModuleEntry): string {
    [Quote] + e.name + [Quote, ':', ' ', '{'] + e.body
  }

  /** With no brace in its name or body, the first entry's text holds no closing brace. */
  lemma FirstEntryLacks(e: ModuleEntry)
    requires Lacks(e.name, '}') && Lacks(e.body, '}')
    ensures Lacks(FirstEntryText(e), '}')
  {
    var x := FirstEntryText(e);
    forall k | 0 <= k < |x| ensures x[k] != '}' {
      if 1 <= k < 1 + |e.name| {
        assert x[k] == e.name[k - 1];
      } else if k >= 5 + |e.name| {
        assert x[k] == e.body[k - 5 - |e.name|];
      }
    }
  }

  /** The keys of the first entry's text: its name alone. */
  lemma FirstEntryKeys(e: ModuleEntry)
    requires |e.name| >= 4 && EndsWith(e.name, ".js") && QuoteFree(e.name) && QuoteFree(e.body)
    ensures JsKeys(FirstEntryText(e)) == [e.name]
  {
    var gap := [' ', '{'] + e.body;
    assert FirstEntryText(e) == [Quote] + e.name + [Quote, ':'] + gap;
    JsKeysCons(e.name, gap);
    JsKeysSkip(gap, []);
    assert gap + [] == gap;
  }

  /** The declaration the modules object opens with, in its three parts. */
  lemma ModulesAnchorParts()
    ensures Concordance.ModulesAnchor == "const " + "MODULES_TO_TEST" + [' ', '=', ' ', '{']
  {
  }

  /**
   * As written, the capture stops at the first entry's closing brace, so whatever the
   * later entries are, only the first module is ever seen.
   */
  lemma ModulesAsWrittenSeesFirstOnly(es: seq<ModuleEntry>)
    requires |es| >= 1 && PlainEntries(es)
    ensures ModulesAsWritten(ModulesFile(es)) == [es[0].name]
  {
    FirstBraceCapture(es);
    AsWrittenOfBlock(ModulesText(es), FirstEntryText(es[0]));
    FirstEntryKeys(es[0]);
    assert Dedup([es[0].name]) == [es[0].name] by {
      assert [es[0].name][..0] == [];
    }
  }

  /** The capture ends at the first entry's closing brace. */
  lemma FirstBraceCapture(es: seq<ModuleEntry>)
    requires |es| >= 1 && PlainEntries(es)
    ensures AssignedBlock(ModulesText(es), "MODULES_TO_TEST", '{', '}') == Some(FirstEntryText(es[0]))
  {
    var tail := [',', ' '] + ModuleLiteral(es[1..]) + Concordance.ObjectClose;
    ModulesTextAtFirstBrace(es);
    FirstEntryLacks(es[0]);
    LayoutFacts(ModulesText(es), "const ", "MODULES_TO_TEST", '{', '}', FirstEntryText(es[0]), tail);
    AssignedBlockAt(ModulesText(es), "MODULES_TO_TEST", '{', '}', 6, FirstEntryText(es[0]));
  }

  /** The keys read as written are those of the capture. */
  lemma AsWrittenOfBlock(s: string, x: string)
    requires AssignedBlock(s, "MODULES_TO_TEST", '{', '}') == Some(x)
    ensures ModulesAsWritten(Some(TestFile(s))) == Dedup(JsKeys(x))
  {
  }

  /** A text laid out as the declaration, then lit, then its `};`, yields the keys of lit. */
  lemma TestModulesOfAt(s: string, lit: string)
    requires s == Concordance.ModulesAnchor + lit + Concordance.ObjectClose
    requires forall k: nat :: |Concordance.ModulesAnchor| <= k < |Concordance.ModulesAnchor| + |lit|
               ==> !OccursAt(s, Concordance.ObjectClose, k)
    ensures TestModulesOf(Some(TestFile(s))) == Dedup(JsKeys(lit))
  {
    BetweenOfFrame(s, Concordance.ModulesAnchor, lit, Concordance.ObjectClose);
    TestModulesOfBetween(s, lit);
  }

  /** The keys read are those of the capture. */
  lemma TestModulesOfBetween(s: string, lit: string)
    requires Between(s, Concordance.ModulesAnchor, Concordance.ObjectClose) == Some(lit)
    ensures TestModulesOf(Some(TestFile(s))) == Dedup(JsKeys(lit))
  {
  }

  /** Read up to its `};`, the literal yields every entry's key. */
  lemma TestModulesOfLiteral(es: seq<ModuleEntry>)
    requires PlainEntries(es)
    requires forall k: nat :: |Concordance.ModulesAnchor| <= k < |Concordance.ModulesAnchor| + |ModuleLiteral(es)|
               ==> !OccursAt(ModulesText(es), Concordance.ObjectClose, k)
    ensures TestModulesOf(ModulesFile(es)) == Dedup(Names(es))
  {
    TestModulesOfAt(ModulesText(es), ModuleLiteral(es));
    JsKeysOfLiteral(es);
  }

  // ------------------------------------------------------------------ validateIDs

  /** The categories visited before the first `null` one, whose `ids` read throws. */
  function Scanned(cats: seq<Json>): (r: seq<Json>)
    ensures |r| <= |cats| && r == cats[..|r|]
    ensures forall i :: 0 <= i < |r| ==> !r[i].JNull?
    ensures |r| < |cats| ==> cats[|r|].JNull?
  {
    if |cats| == 0 then []
    else if cats[0].JNull? then []
    else [cats[0]] + Scanned(cats[1..])
  }

  predicate HasNull(cats: seq<Json>) { exists i :: 0 <= i < |cats| && cats[i].JNull? }

  /** The concatenated `ids` arrays of the categories, in order. */
  function AllIds(cats: seq<Json>): seq<Json> {
    if |cats| == 0 then [] else AllIds(cats[..|cats| - 1]) + ArrayAt(cats[|cats| - 1], "ids")
  }

  /** What `validateIDs` promises: no category is `null` and the two id sets have the same members. */
  ghost predicate IdsConcordant(idsConfig: Json, tf: Option<TestFile>) {
    var cats := Concordance.Categories(idsConfig);
    && !HasNull(cats)
    && forall x :: x in AllIds(cats) <==> x in Strs(TestIdsOf(tf))
  }

  /** The ids of a category, added one by one to the set, noting each one already there. */
  method AddIds(seen: seq<Json>, dups: seq<Json>, ghost pre: seq<Json>, items: seq<Json>)
    returns (seen': seq<Json>, dups': seq<Json>)
    requires seen == Dedup(pre) && dups == Repeats(pre)
    ensures seen' == Dedup(pre + items) && dups' == Repeats(pre + items)
  {
    seen', dups' := seen, dups;
    var i := 0;
    assert pre + items[..0] == pre;
    while i < |items|
      invariant 0 <= i <= |items|
      invariant seen' == Dedup(pre + items[..i]) && dups' == Repeats(pre + items[..i])
    {
      var all := pre + items[..i];
      assert pre + items[..i + 1] == all + [items[i]];
      DedupSnoc(all, items[i]);
      RepeatsSnoc(all, items[i]);
      if items[i] in seen' {
        dups' := dups' + [items[i]];
      }
      if items[i] !in seen' {
        seen' := seen' + [items[i]];
      }
      i := i + 1;
    }
    assert items[..i] == items;
  }

  /** The config loop: the id set and the repeats, up to the first `null` category. */
  method ScanCategories(cats: seq<Json>) returns (ids: seq<Json>, dups: seq<Json>, thrown: bool)
    ensures thrown <==> HasNull(cats)
    ensures ids == Dedup(AllIds(Scanned(cats))) && dups == Repeats(AllIds(Scanned(cats)))
  {
    ids, dups := [], [];
    ghost var all: seq<Json> := [];
    var i := 0;
    while i < |cats|
      invariant 0 <= i <= |cats|
      invariant forall k :: 0 <= k < i ==> !cats[k].JNull?
      invariant all == AllIds(cats[..i])
      invariant ids == Dedup(all) && dups == Repeats(all)
    {
      assert cats[..i + 1][..i] == cats[..i];
      if cats[i].JNull? {
        ScannedPrefix(cats, i);
        return ids, dups, true;
      }
      var items := ArrayAt(cats[i], "ids");
      ids, dups := AddIds(ids, dups, all, items);
      all := all + items;
      i := i + 1;
    }
    assert cats[..i] == cats;
    ScannedPrefix(cats, i);
    thrown := false;
  }

  /** Up to the first `null`, the scan covers exactly the categories before it. */
  lemma {:induction false} ScannedPrefix(cats: seq<Json>, i: nat)
    requires i <= |cats| && forall k :: 0 <= k < i ==> !cats[k].JNull?
    requires i < |cats| ==> cats[i].JNull?
    ensures Scanned(cats) == cats[..i]
    ensures HasNull(cats) <==> i < |cats|
  {
    if i > 0 {
      ScannedPrefix(cats[1..], i - 1);
      assert cats[..i] == [cats[0]] + cats[1..][..i - 1];
    } else if |cats| > 0 {
      assert cats[0].JNull?;
    }
  }

  /**
   * The `testIdsCount` object: a count per distinct id, keys in first-seen order, and
   * then the ids counted more than once.
   */
  method CountedTwice(xs: seq<string>) returns (dups: seq<string>)
    ensures forall x :: x in dups <==> Count(xs, x) > 1
  {
    var counts: OMap<string, nat> := [];
    var i := 0;
    while i < |xs|
      invariant 0 <= i <= |xs|
      invariant forall x :: x in xs[..i] <==> x in MapKeys(counts)
      invariant NoDup(MapKeys(counts))
      invariant forall j :: 0 <= j < |counts| ==> counts[j].1 == Count(xs[..i], counts[j].0) > 0
    {
      var x := xs[i];
      assert xs[..i + 1] == xs[..i] + [x];
      assert xs[..i + 1][..i] == xs[..i];
      var c := MapGet(counts, x);
      var n := if c.Some? then c.value else 0;
      CountsStep(counts, xs[..i], x, n);
      counts := MapSet(counts, x, n + 1);
      i := i + 1;
    }
    assert xs[..i] == xs;
    dups := [];
    var j := 0;
    while j < |counts|
      invariant 0 <= j <= |counts|
      invariant forall x :: x in dups <==> exists k :: 0 <= k < j && counts[k].0 == x && counts[k].1 > 1
    {
      if counts[j].1 > 1 {
        dups := dups + [counts[j].0];
      }
      j := j + 1;
    }
    forall x ensures x in dups <==> Count(xs, x) > 1 {
      if Count(xs, x) > 1 {
        CountZero(xs, x);
        var k :| 0 <= k < |counts| && counts[k].0 == x;
      }
    }
  }

  /** One more id: its count goes up by one, and the other counts stay. */
  lemma CountsStep(counts: OMap<string, nat>, seen: seq<string>, x: string, n: nat)
    requires forall y :: y in seen <==> y in MapKeys(counts)
    requires NoDup(MapKeys(counts))
    requires forall j :: 0 <= j < |counts| ==> counts[j].1 == Count(seen, counts[j].0) > 0
    requires n == (if MapGet(counts, x).Some? then MapGet(counts, x).value else 0)
    ensures var r := MapSet(counts, x, n + 1);
      && (forall y :: y in seen + [x] <==> y in MapKeys(r))
      && NoDup(MapKeys(r))
      && (forall j :: 0 <= j < |r| ==> r[j].1 == Count(seen + [x], r[j].0) > 0)
  {
    var r := MapSet(counts, x, n + 1);
    MapSetKeys(counts, x, n + 1);
    InFront(seen + [x]);
    assert (seen + [x])[..|seen|] == seen;
    match Find(counts, x)
    case None =>
      CountZero(seen, x);
      forall j | 0 <= j < |r| ensures r[j].1 == Count(seen + [x], r[j].0) > 0 {
        CountSnoc(seen, x, r[j].0);
      }
    case Some(i) =>
      forall j | 0 <= j < |r| ensures r[j].1 == Count(seen + [x], r[j].0) > 0 {
        CountSnoc(seen, x, r[j].0);
        if j != i {
          assert MapKeys(counts)[j] != MapKeys(counts)[i];
        }
      }
  }

  /** `validateIDs`. */
  method ValidateIds(idsConfig: Json, testFile: Option<TestFile>) returns (r: IdsReport)
    ensures var cats := Concordance.Categories(idsConfig);
      r.duplicatesInConfig == Repeats(AllIds(Scanned(cats)))
    ensures var cats := Concordance.Categories(idsConfig);
      HasNull(cats) ==> r == IdsReport(false, 0, 0, [], [], r.duplicatesInConfig, [], [ValidationError(NullRead("ids"))])
    ensures var cats := Concordance.Categories(idsConfig);
      !HasNull(cats) ==> CompareIds(Dedup(AllIds(cats)), TestIdsOf(testFile), r)
    ensures r.valid <==> IdsConcordant(idsConfig, testFile)
  {
    var cats := Concordance.Categories(idsConfig);
    var configIds, duplicatesInConfig, thrown := ScanCategories(cats);
    if thrown {
      return IdsReport(false, 0, 0, [], [], duplicatesInConfig, [], [ValidationError(NullRead("ids"))]);
    }
    assert Scanned(cats) == cats;
    r := CompareTestIds(configIds, duplicatesInConfig, TestIdsOf(testFile));
  }

  /** The report of the two id sets once the config has been read without error. */
  ghost predicate CompareIds(c: seq<Json>, names: seq<string>, r: IdsReport) {
    var t := Strs(names);
    && r.totalConfigIds == |c| && r.totalTestIds == |t|
    && r.inConfigNotInTest == Without(c, t) && r.inTestNotInConfig == Without(t, c)
    && r.duplicatesInTest == [] && r.errors == []
    && (r.valid <==> forall x :: x in c <==> x in t)
  }

  /** The comparison half of `validateIDs`, with the test-id count that finds no repeats. */
  method CompareTestIds(configIds: seq<Json>, duplicatesInConfig: seq<Json>, names: seq<string>)
    returns (r: IdsReport)
    requires NoDup(configIds) && NoDup(names)
    ensures CompareIds(configIds, names, r) && r.duplicatesInConfig == duplicatesInConfig
  {
    var testIds := Strs(names);
    StrsNoDup(names);
    var inConfigNotInTest := Difference(configIds, testIds);
    var inTestNotInConfig := Difference(testIds, configIds);
    var valid := inConfigNotInTest == [] && inTestNotInConfig == [];
    WithoutEmpty(configIds, testIds);
    WithoutEmpty(testIds, configIds);
    var duplicatesInTest := CountedTwice(names);
    NoneCountedTwice(names, duplicatesInTest);
    r := IdsReport(valid, |configIds|, |testIds|, inConfigNotInTest, inTestNotInConfig,
                   duplicatesInConfig, duplicatesInTest, []);
  }

  /** In a list without repeats nothing is counted twice. */
  lemma NoneCountedTwice(names: seq<string>, dups: seq<string>)
    requires NoDup(names) && forall x :: x in dups <==> Count(names, x) > 1
    ensures dups == []
  {
    if dups != [] {
      CountOfNoDup(names, dups[0]);
    }
  }

  /** Distinct strings stay distinct as JSON strings. */
  lemma StrsNoDup(ts: seq<string>)
    requires NoDup(ts)
    ensures NoDup(Strs(ts))
  {
  }

  // ------------------------------------------------------------------ validateModules

  /** What `validateModules` promises: no module info is `null` and the module sets agree. */
  ghost predicate ModulesConcordant(modulesConfig: Json, tf: Option<TestFile>) {
    var es := VM.ModuleConfigEntries(modulesConfig);
    && (forall i :: 0 <= i < |es| ==> !es[i].1.JNull?)
    && forall x :: x in MapKeys(es) <==> x in TestModulesOf(tf)
  }

  /** With no `null` module, concordance is both differences being empty. */
  lemma ModulesConcordantIff(modulesConfig: Json, tf: Option<TestFile>)
    requires var es := VM.ModuleConfigEntries(modulesConfig);
      forall i :: 0 <= i < |es| ==> !es[i].1.JNull?
    ensures var c, t := Dedup(MapKeys(VM.ModuleConfigEntries(modulesConfig))), TestModulesOf(tf);
      ModulesConcordant(modulesConfig, tf) <==> Without(c, t) == [] && Without(t, c) == []
  {
    var c, t := Dedup(MapKeys(VM.ModuleConfigEntries(modulesConfig))), TestModulesOf(tf);
    WithoutEmpty(c, t);
    WithoutEmpty(t, c);
  }

  /** The config loop: module names as a set, or the TypeError of a `null` module info. */
  method ConfigModuleNames(es: seq<(string, Json)>) returns (r: Option<seq<string>>)
    ensures r.None? <==> exists i :: 0 <= i < |es| && es[i].1.JNull?
    ensures r.Some? ==> r.value == Dedup(MapKeys(es))
  {
    var names: seq<string> := [];
    var i := 0;
    while i < |es|
      invariant 0 <= i <= |es|
      invariant forall k :: 0 <= k < i ==> !es[k].1.JNull?
      invariant names == Dedup(MapKeys(es)[..i])
    {
      assert MapKeys(es)[..i + 1] == MapKeys(es)[..i] + [es[i].0];
      DedupSnoc(MapKeys(es)[..i], es[i].0);
      if es[i].0 !in names {
        names := names + [es[i].0];
      }
      if es[i].1.JNull? {
        return None;
      }
      i := i + 1;
    }
    assert MapKeys(es)[..i] == MapKeys(es);
    r := Some(names);
  }

  /** `validateModules`, reading the test modules from the whole object literal. */
  method ValidateModules(modulesConfig: Json, testFile: Option<TestFile>) returns (r: ModulesReport)
    ensures var es := VM.ModuleConfigEntries(modulesConfig);
      (exists i :: 0 <= i < |es| && es[i].1.JNull?) ==>
        r == ModulesReport(false, 0, 0, [], [], [], [ValidationError(NullRead("exports"))])
    ensures var es := VM.ModuleConfigEntries(modulesConfig);
      (forall i :: 0 <= i < |es| ==> !es[i].1.JNull?) ==>
        var c, t := Dedup(MapKeys(es)), TestModulesOf(testFile);
        && r.totalConfigModules == |c| && r.totalTestModules == |t|
        && r.inConfigNotInTest == Without(c, t) && r.inTestNotInConfig == Without(t, c)
        && r.errors == []
    ensures r.exportsMismatch == []
    ensures r.valid <==> ModulesConcordant(modulesConfig, testFile)
  {
    var es := VM.ModuleConfigEntries(modulesConfig);
    var configModules := ConfigModuleNames(es);
    if configModules.None? {
      return ModulesReport(false, 0, 0, [], [], [], [ValidationError(NullRead("exports"))]);
    }
    var c := configModules.value;
    var t := TestModulesOf(testFile);
    var inConfigNotInTest := Difference(c, t);
    var inTestNotInConfig := Difference(t, c);
    ModulesConcordantIff(modulesConfig, testFile);
    r := ModulesReport(inConfigNotInTest == [] && inTestNotInConfig == [], |c|, |t|,
                       inConfigNotInTest, inTestNotInConfig, [], []);
  }

  // ------------------------------------------------------------------ validateEvents

  /** `Object.keys(eventsConfig.events)` when both are truthy. */
  function ConfigEvents(eventsConfig: Json): seq<string> {
    match Get(eventsConfig, "events")
    case Some(v) => if Truthy(v) then Keys(v) else []
    case None => []
  }

  ghost predicate EventsConcordant(eventsConfig: Json, tf: Option<TestFile>) {
    forall x :: x in ConfigEvents(eventsConfig) <==> x in TestEventsOf(tf)
  }

  /** `validateEvents`: it cannot throw, so `errors` stays empty. */
  method ValidateEvents(eventsConfig: Json, testFile: Option<TestFile>) returns (r: EventsReport)
    ensures var c, t := Dedup(ConfigEvents(eventsConfig)), TestEventsOf(testFile);
      && r.totalConfigEvents == |c| && r.totalTestEvents == |t|
      && r.inConfigNotInTest == Without(c, t) && r.inTestNotInConfig == Without(t, c)
      && r.errors == []
    ensures r.valid <==> EventsConcordant(eventsConfig, testFile)
  {
    var c := CollectSet(ConfigEvents(eventsConfig));
    var t := TestEventsOf(testFile);
    var inConfigNotInTest := Difference(c, t);
    var inTestNotInConfig := Difference(t, c);
    WithoutEmpty(c, t);
    WithoutEmpty(t, c);
    r := EventsReport(inConfigNotInTest == [] && inTestNotInConfig == [], |c|, |t|,
                      inConfigNotInTest, inTestNotInConfig, []);
  }

  // ------------------------------------------------------------------ validateAll

  /**
   * `validateAll`: a validation runs only when its config is truthy and its test file is
   * present, and a skipped one counts as valid.
   */
  method ValidateAll(configs: Configs, testFiles: TestFiles) returns (r: FullReport)
    ensures r.ids.Some? <==> Truthy(configs.ids) && testFiles.dom.Some?
    ensures r.modules.Some? <==> Truthy(configs.modules) && testFiles.modules.Some?
    ensures r.events.Some? <==> Truthy(configs.events) && testFiles.events.Some?
    ensures r.allValid <==>
      && (r.ids.Some? ==> IdsConcordant(configs.ids, testFiles.dom))
      && (r.modules.Some? ==> ModulesConcordant(configs.modules, testFiles.modules))
      && (r.events.Some? ==> EventsConcordant(configs.events, testFiles.events))
  {
    var ids := IdsStep(configs.ids, testFiles.dom);
    var modules := ModulesStep(configs.modules, testFiles.modules);
    var events := EventsStep(configs.events, testFiles.events);
    var allValid := (ids.None? || ids.value.valid) && (modules.None? || modules.value.valid)
      && (events.None? || events.value.valid);
    r := FullReport(ids, modules, events, allValid);
  }

  /** The ids step of `validateAll`: run only with a truthy config and a present test file. */
  method IdsStep(config: Json, testFile: Option<TestFile>) returns (r: Option<IdsReport>)
    ensures r.Some? <==> Truthy(config) && testFile.Some?
    ensures r.Some? ==> (r.value.valid <==> IdsConcordant(config, testFile))
  {
    r := None;
    if Truthy(config) && testFile.Some? {
      var v := ValidateIds(config, testFile);
      r := Some(v);
    }
  }

  /** The modules step of `validateAll`. */
  method ModulesStep(config: Json, testFile: Option<TestFile>) returns (r: Option<ModulesReport>)
    ensures r.Some? <==> Truthy(config) && testFile.Some?
    ensures r.Some? ==> (r.value.valid <==> ModulesConcordant(config, testFile))
  {
    r := None;
    if Truthy(config) && testFile.Some? {
      var v := ValidateModules(config, testFile);
      r := Some(v);
    }
  }

  /** The events step of `validateAll`. */
  method EventsStep(config: Json, testFile: Option<TestFile>) returns (r: Option<EventsReport>)
    ensures r.Some? <==> Truthy(config) && testFile.Some?
    ensures r.Some? ==> (r.value.valid <==> EventsConcordant(config, testFile))
  {
    r := None;
    if Truthy(config) && testFile.Some? {
      var v := ValidateEvents(config, testFile);
      r := Some(v);
    }
  }
}
