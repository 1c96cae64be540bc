/**
 * `scripts/validate-ids.js`: the stand-alone check that every id of
 * `config/ids-list.json` is listed in `IDS_TO_TEST` of `debug/debug-dom.js` and the
 * other way round, that no critical id is missing from the config, and the exit code
 * that results. The file system is a map from relative path to contents, `JSON.parse`
 * is the codec's oracle and `process.exit(n)` is the returned code n.
 */
module ValidateIds {
  import opened Wrappers
  import opened Json
  import opened Text
  import opened Extract
  import opened OrderedSet
  import opened Concordance

  const CriticalAnchor: string := "const CRITICAL_IDS = ["
  const MaxListed: nat := 10
  const NoIdsList: string := "Cannot find IDS_TO_TEST array in debug-dom.js"

  /** What `loadTestIDs` returns: the listed ids and the critical ids, each as a set. */
  datatype TestData = TestData(ids: seq<Json>, criticalIds: seq<Json>)

  /** The object `validateIDs` fills in. */
  datatype Results = Results(
    valid: bool, totalConfig: nat, totalTest: nat,
    inConfigNotInTest: seq<Json>, inTestNotInConfig: seq<Json>,
    duplicatesInTest: seq<Json>, criticalMissing: seq<Json>)

  // ------------------------------------------------------------------ loading

  /**
   * `loadConfigIDs`: the set of the ids of every category whose `ids` is an array. Any
   * exception (missing file, syntax error, `null` config or category) ends the run.
   */
  function ConfigIds(files: Files, codec: JsonCodec): Result<seq<Json>> {
    match LoadJsonSpec(files, codec, IdsConfigPath)
    case Err(m) => Err(m)
    case Ok(cfg) =>
      if cfg.JNull? then Err(NullRead("categories"))
      else match CategoryIds(Categories(cfg))
        case Err(m) => Err(m)
        case Ok(ids) => Ok(Dedup(ids))
  }

  /** The string tokens of a list literal, as a set. */
  function TokenSet(body: string): seq<Json> {
    Dedup(Strs(QuotedTokens(body)))
  }

  /**
   * `loadTestIDs`: the tokens inside `IDS_TO_TEST`, which must be found, and those inside
   * `CRITICAL_IDS`, which may be absent.
   */
  function TestIds(files: Files): Result<TestData> {
    match ReadFile(files, DomPath)
    case Err(m) => Err(m)
    case Ok(content) =>
      match Between(content, IdsAnchor, ListClose)
      case None => Err(NoIdsList)
      case Some(body) =>
        var critical := match Between(content, CriticalAnchor, ListClose)
          case None => []
          case Some(cb) => TokenSet(cb);
        Ok(TestData(TokenSet(body), critical))
  }

  /** Loading the test file fails iff it is missing or has no `IDS_TO_TEST` literal. */
  lemma TestIdsFail(files: Files)
    ensures TestIds(files).Err? <==> DomPath !in files || Between(files[DomPath], IdsAnchor, ListClose).None?
    ensures TestIds(files).Ok? ==> NoDup(TestIds(files).value.ids) && NoDup(TestIds(files).value.criticalIds)
  {
  }

  /**
   * A test file whose literals are laid out as written in `debug-dom.js` yields exactly the
   * listed tokens, and with no `CRITICAL_IDS` literal the critical set is empty.
   */
  lemma TestIdsOfLayout(files: Files, prefix: string, ts: seq<string>, rest: string)
    requires forall i :: 0 <= i < |ts| ==> |ts[i]| > 0 && QuoteFree(ts[i])
    requires var s := prefix + IdsAnchor + QuotedList(ts, ", ") + ListClose + rest;
      && (forall k: nat :: k < |prefix| ==> !OccursAt(s, IdsAnchor, k))
      && (forall k: nat :: |prefix| + |IdsAnchor| <= k < |prefix| + |IdsAnchor| + |QuotedList(ts, ", ")|
            ==> !OccursAt(s, ListClose, k))
      && IndexOf(s, CriticalAnchor, 0).None?
    requires files == map[DomPath := prefix + IdsAnchor + QuotedList(ts, ", ") + ListClose + rest]
    ensures TestIds(files) == Ok(TestData(Dedup(Strs(ts)), []))
  {
    var body := QuotedList(ts, ", ");
    BetweenOfLayout(files[DomPath], prefix, IdsAnchor, body, ListClose, rest);
    QuotedTokensOfList(ts, ", ");
  }

  /** `loadConfigIDs` as it runs: the category loop, then the test-file read. */
  method LoadConfigIds(files: Files, codec: JsonCodec) returns (r: Result<seq<Json>>)
    ensures r == ConfigIds(files, codec)
  {
    var loaded := LoadJsonSpec(files, codec, IdsConfigPath);
    if loaded.Err? {
      return Err(loaded.error);
    }
    if loaded.value.JNull? {
      return Err(NullRead("categories"));
    }
    r := CollectConfigIds(loaded.value);
  }

  /** `loadTestIDs` as it runs: both literals scanned and gathered into sets. */
  method LoadTestIds(files: Files) returns (r: Result<TestData>)
    ensures r == TestIds(files)
  {
    if DomPath !in files {
      return Err(NoSuchFile(DomPath));
    }
    var content := files[DomPath];
    var listed := Between(content, IdsAnchor, ListClose);
    if listed.None? {
      return Err(NoIdsList);
    }
    var ids := CollectSet(Strs(QuotedTokens(listed.value)));
    var critical: seq<Json> := [];
    var criticalListed := Between(content, CriticalAnchor, ListClose);
    if criticalListed.Some? {
      critical := CollectSet(Strs(QuotedTokens(criticalListed.value)));
    }
    r := Ok(TestData(ids, critical));
  }

  // ------------------------------------------------------------------ validation

  /**
   * `validateIDs`. The test ids form a set, so the duplicate scan over it finds nothing.
   */
  method Validate(config: seq<Json>, test: TestData) returns (r: Results)
    requires NoDup(config) && NoDup(test.ids)
    ensures r.totalConfig == |config| && r.totalTest == |test.ids|
    ensures r.inConfigNotInTest == Without(config, test.ids)
    ensures r.inTestNotInConfig == Without(test.ids, config)
    ensures r.valid <==> (forall x :: x in config ==> x in test.ids) && (forall x :: x in test.ids ==> x in config)
    ensures r.duplicatesInTest == []
    ensures r.criticalMissing == Without(test.criticalIds, config)
  {
    // Each walk pushes what the other set lacks and clears `valid` when it pushes.
    var inConfigNotInTest := Difference(config, test.ids);
    var inTestNotInConfig := Difference(test.ids, config);
    var valid := inConfigNotInTest == [] && inTestNotInConfig == [];
    WithoutEmpty(config, test.ids);
    WithoutEmpty(test.ids, config);
    var duplicates := RepeatedIn(test.ids);
    RepeatsOfNoDup(test.ids);
    var criticalMissing := Difference(test.criticalIds, config);
    r := Results(valid, |config|, |test.ids|, inConfigNotInTest, inTestNotInConfig, duplicates, criticalMissing);
  }

  /** The `seen` scan: every element met again after its first occurrence. */
  method RepeatedIn<T(==,!new)>(xs: seq<T>) returns (dups: seq<T>)
    ensures dups == Repeats(xs)
  {
    var seen: seq<T> := [];
    dups := [];
    var i := 0;
    while i < |xs|
      invariant 0 <= i <= |xs|
      invariant seen == Dedup(xs[..i])
      invariant dups == Repeats(xs[..i])
    {
      assert xs[..i + 1][..i] == xs[..i];
      DedupSnoc(xs[..i], xs[i]);
      assert xs[..i + 1] == xs[..i] + [xs[i]];
      if xs[i] in seen {
        dups := dups + [xs[i]];
      }
      if xs[i] !in seen {
        seen := seen + [xs[i]];
      }
      i := i + 1;
    }
    assert xs[..i] == xs;
  }

  // ------------------------------------------------------------------ display

  /** A line of a listing: one item, or the "... and N more" line. */
  datatype ListLine<T> = Item(x: T) | More(n: nat)

  /** Listings show the first ten items, then how many were not shown. */
  function Listing<T>(xs: seq<T>): (lines: seq<ListLine<T>>)
    ensures |xs| <= MaxListed ==> |lines| == |xs|
    ensures |xs| > MaxListed ==> |lines| == MaxListed + 1 && lines[MaxListed] == More(|xs| - MaxListed)
    ensures forall i :: 0 <= i < |lines| && i < |xs| && i < MaxListed ==> lines[i] == Item(xs[i])
  {
    var shown := if |xs| <= MaxListed then xs else xs[..MaxListed];
    var items := seq(|shown|, i requires 0 <= i < |shown| => Item(shown[i]));
    if |xs| > MaxListed then items + [More(|xs| - MaxListed)] else items
  }

  /** The "and N more" line appears iff more than ten items exist, and nothing is lost. */
  lemma ListingAccounts<T>(xs: seq<T>)
    ensures (exists i :: 0 <= i < |Listing(xs)| && Listing(xs)[i].More?) <==> |xs| > MaxListed
    ensures forall i :: 0 <= i < |Listing(xs)| && Listing(xs)[i].Item? ==> Listing(xs)[i].x in xs
  {
    var lines := Listing(xs);
    if |xs| > MaxListed {
      assert lines[MaxListed].More?;
    }
  }

  /** `displayResults`'s return value. */
  function DisplayExit(r: Results): (code: nat)
    ensures code <= 1
  {
    if r.valid && r.criticalMissing == [] then 0 else 1
  }

  // ------------------------------------------------------------------ main

  /** The exit code of a whole run. */
  function Outcome(files: Files, codec: JsonCodec): nat {
    match ConfigIds(files, codec)
    case Err(_) => 1
    case Ok(config) =>
      match TestIds(files)
      case Err(_) => 1
      case Ok(t) =>
        if Without(config, t.ids) == [] && Without(t.ids, config) == [] && Without(t.criticalIds, config) == []
        then 0 else 1
  }

  /**
   * A run exits 0 iff both files load, the two id sets have the same members and every
   * critical id is in the config.
   */
  lemma OutcomeZeroIff(files: Files, codec: JsonCodec)
    ensures Outcome(files, codec) == 0 <==>
      && ConfigIds(files, codec).Ok? && TestIds(files).Ok?
      && var config, t := ConfigIds(files, codec).value, TestIds(files).value;
         && (forall x :: x in config <==> x in t.ids)
         && (forall x :: x in t.criticalIds ==> x in config)
  {
    if ConfigIds(files, codec).Ok? && TestIds(files).Ok? {
      var config, t := ConfigIds(files, codec).value, TestIds(files).value;
      WithoutEmpty(config, t.ids);
      WithoutEmpty(t.ids, config);
      WithoutEmpty(t.criticalIds, config);
    }
  }

  /** A config id is one of some category's `ids` array, and a critical id from the literal. */
  lemma ConfigIdsUnion(files: Files, codec: JsonCodec, x: Json)
    requires ConfigIds(files, codec).Ok?
    ensures var cfg := LoadJsonSpec(files, codec, IdsConfigPath).value;
      x in ConfigIds(files, codec).value <==>
        exists i :: 0 <= i < |Categories(cfg)| && x in ArrayAt(Categories(cfg)[i], "ids")
  {
    var cfg := LoadJsonSpec(files, codec, IdsConfigPath).value;
    CategoryIdsUnion(Categories(cfg), x);
  }

  /** `main`. */
  method Run(files: Files, codec: JsonCodec) returns (exit: nat)
    ensures exit == Outcome(files, codec)
  {
    var configData := LoadConfigIds(files, codec);
    if configData.Err? {
      return 1;
    }
    var testData := LoadTestIds(files);
    if testData.Err? {
      return 1;
    }
    var results := Validate(configData.value, testData.value);
    exit := DisplayExit(results);
    WithoutEmpty(configData.value, testData.value.ids);
    WithoutEmpty(testData.value.ids, configData.value);
  }
}
