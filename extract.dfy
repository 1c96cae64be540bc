/**
 * The regular expressions the concordance scripts and the validator run over source
 * text, each written out as the scanner that computes the same matches as JavaScript's
 * leftmost, backtracking engine (a global regex resumes after each match and retries one
 * position further after a failed attempt).
 */
module Extract {
  import opened Wrappers
  import opened Text

  const Quote: char := '\''
  const Quotes: set<char> := {'\'', '"'}

  /** t does not contain the character c. */
  predicate Lacks(t: string, c: char) { forall i :: 0 <= i < |t| ==> t[i] != c }

  predicate QuoteFree(t: string) { Lacks(t, Quote) }

  /** Two texts without c make one. */
  lemma LacksConcat(a: string, b: string, c: char)
    requires Lacks(a, c) && Lacks(b, c)
    ensures Lacks(a + b, c)
  {
    assert forall i :: 0 <= i < |b| ==> (a + b)[|a| + i] == b[i];
  }

  predicate NoQuotes(t: string) { forall i :: 0 <= i < |t| ==> t[i] !in Quotes }

  predicate EndsWith(s: string, suffix: string) {
    |suffix| <= |s| && s[|s| - |suffix|..] == suffix
  }

  // ---------------------------------------------------------------- '([^']+)'

  /**
   * The captures of the global regex `'([^']+)'`, i.e. the single-quoted tokens, as the
   * scripts obtain them with `match(...)` and then strip the quotes. `''` is not a token;
   * its closing quote may open the next one.
   */
  function QuotedTokens(s: string): (ts: seq<string>)
    ensures forall i :: 0 <= i < |ts| ==> |ts[i]| > 0 && QuoteFree(ts[i])
    decreases |s|
  {
    if |s| == 0 then []
    else if s[0] == Quote then
      match FirstIn(s, 1, {Quote})
      case None => []
      case Some(j) =>
        if j > 1 then
          [s[1..j]] + QuotedTokens(s[j + 1..])
        else QuotedTokens(s[1..])
    else QuotedTokens(s[1..])
  }

  /** Text without quotes contributes no token: scanning resumes after it unchanged. */
  lemma {:induction false} QuotedTokensSkip(pre: string, s: string)
    requires QuoteFree(pre)
    ensures QuotedTokens(pre + s) == QuotedTokens(s)
  {
    if |pre| > 0 {
      assert (pre + s)[1..] == pre[1..] + s;
      QuotedTokensSkip(pre[1..], s);
    } else {
      assert pre + s == s;
    }
  }

  /** A quoted token at the front is read back, and scanning resumes right after it. */
  lemma QuotedTokensCons(t: string, rest: string)
    requires |t| > 0 && QuoteFree(t)
    ensures QuotedTokens([Quote] + t + [Quote] + rest) == [t] + QuotedTokens(rest)
  {
    var s := [Quote] + t + [Quote] + rest;
    assert s[1 + |t|] == Quote;
    assert forall k :: 1 <= k < 1 + |t| ==> s[k] == t[k - 1];
    assert FirstIn(s, 1, {Quote}) == Some(1 + |t|);
    assert s[1..1 + |t|] == t;
    assert s[|t| + 2..] == rest;
  }

  /** A list literal: each token quoted and followed by a separator without quotes. */
  function QuotedList(ts: seq<string>, sep: string): string {
    if |ts| == 0 then [] else [Quote] + ts[0] + [Quote] + sep + QuotedList(ts[1..], sep)
  }

  /** Round trip: the tokens of a list literal are the listed tokens, in order. */
  lemma {:induction false} QuotedTokensOfList(ts: seq<string>, sep: string)
    requires forall i :: 0 <= i < |ts| ==> |ts[i]| > 0 && QuoteFree(ts[i])
    requires QuoteFree(sep)
    ensures QuotedTokens(QuotedList(ts, sep)) == ts
  {
    if |ts| > 0 {
      var tail := QuotedList(ts[1..], sep);
      assert QuotedList(ts, sep) == [Quote] + ts[0] + [Quote] + (sep + tail);
      QuotedTokensCons(ts[0], sep + tail);
      QuotedTokensSkip(sep, tail);
      QuotedTokensOfList(ts[1..], sep);
    }
  }

  // ---------------------------------------------------------------- '([^']+\.js)':

  /** At a quote at index 0 whose closing quote is at j: is `'name.js':` written there? */
  predicate JsKeyCloses(s: string, j: nat) {
    5 <= j && j + 1 < |s| && EndsWith(s[1..j], ".js") && s[j + 1] == ':'
  }

  /**
   * The captures of the global regex `'([^']+\.js)':`: quoted names ending in ".js" that
   * are immediately followed by a colon, i.e. the keys of an object literal of modules.
   */
  function JsKeys(s: string): (ks: seq<string>)
    ensures forall i :: 0 <= i < |ks| ==> |ks[i]| >= 4 && EndsWith(ks[i], ".js") && QuoteFree(ks[i])
    decreases |s|
  {
    if |s| == 0 then []
    else if s[0] == Quote then
      match FirstIn(s, 1, {Quote})
      case None => []
      case Some(j) =>
        if JsKeyCloses(s, j) then
          [s[1..j]] + JsKeys(s[j + 2..])
        else JsKeys(s[1..])
    else JsKeys(s[1..])
  }

  lemma {:induction false} JsKeysSkip(pre: string, s: string)
    requires QuoteFree(pre)
    ensures JsKeys(pre + s) == JsKeys(s)
  {
    if |pre| > 0 {
      assert (pre + s)[1..] == pre[1..] + s;
      JsKeysSkip(pre[1..], s);
    } else {
      assert pre + s == s;
    }
  }

  /** A module key at the front is read back, and scanning resumes after its colon. */
  lemma JsKeysCons(name: string, rest: string)
    requires |name| >= 4 && EndsWith(name, ".js") && QuoteFree(name)
    ensures JsKeys([Quote] + name + [Quote, ':'] + rest) == [name] + JsKeys(rest)
  {
    var s := [Quote] + name + [Quote, ':'] + rest;
    var j := 1 + |name|;
    assert s[j] == Quote;
    assert forall k :: 1 <= k < j ==> s[k] == name[k - 1];
    assert FirstIn(s, 1, {Quote}) == Some(j);
    assert s[1..j] == name;
    assert JsKeyCloses(s, j);
    assert s[j + 2..] == rest;
  }

  /** `replace(/['":]/g, '')`: the text with every quote, double quote and colon removed. */
  function StripQuotesAndColons(t: string): (r: string)
    ensures forall i :: 0 <= i < |r| ==> r[i] !in {'\'', '"', ':'}
    ensures forall c :: c in t && c !in {'\'', '"', ':'} ==> c in r
    ensures |r| <= |t|
  {
    if |t| == 0 then []
    else
      var r := StripQuotesAndColons(t[1..]);
      assert forall c :: c in t ==> c == t[0] || c in t[1..];
      if t[0] in {'\'', '"', ':'} then r else [t[0]] + r
  }

  /** A name without those characters is left as it is. */
  lemma {:induction false} StripQuotesAndColonsPlain(t: string)
    requires forall i :: 0 <= i < |t| ==> t[i] !in {'\'', '"', ':'}
    ensures StripQuotesAndColons(t) == t
  {
    if |t| > 0 {
      StripQuotesAndColonsPlain(t[1..]);
    }
  }

  // ------------------------------------------------- '([^']+\.js)':\s*\{([^}]+)\}

  /** One entry of a modules object literal: its key and the text between its braces. */
  datatype ModuleEntry = ModuleEntry(name: string, body: string)

  /**
   * The matches of the global regex `'([^']+\.js)':\s*\{([^}]+)\}`: a module key, a
   * colon, optional whitespace and a non-empty brace block that ends at the first `}`.
   */
  function ModuleEntries(s: string): (es: seq<ModuleEntry>)
    ensures forall i :: 0 <= i < |es| ==> EndsWith(es[i].name, ".js") && QuoteFree(es[i].name)
    ensures forall i :: 0 <= i < |es| ==> |es[i].body| > 0 && Lacks(es[i].body, '}')
    decreases |s|
  {
    if |s| == 0 then []
    else if s[0] == Quote then
      match FirstIn(s, 1, {Quote})
      case None => []
      case Some(j) =>
        if JsKeyCloses(s, j) then
          var k := SkipSpace(s, j + 2);
          if k < |s| && s[k] == '{' then
            match FirstIn(s, k + 1, {'}'})
            case Some(r) =>
              if r > k + 1 then
                      [ModuleEntry(s[1..j], s[k + 1..r])] + ModuleEntries(s[r + 1..])
              else ModuleEntries(s[1..])
            case None => ModuleEntries(s[1..])
          else ModuleEntries(s[1..])
        else ModuleEntries(s[1..])
    else ModuleEntries(s[1..])
  }

  /** An entry written as `'name': {body}` at the front is read back whole. */
  lemma ModuleEntriesCons(name: string, body: string, rest: string)
    requires |name| >= 4 && EndsWith(name, ".js") && QuoteFree(name)
    requires |body| > 0 && Lacks(body, '}')
    ensures ModuleEntries([Quote] + name + [Quote, ':', ' ', '{'] + body + ['}'] + rest)
              == [ModuleEntry(name, body)] + ModuleEntries(rest)
  {
    var s := [Quote] + name + [Quote, ':', ' ', '{'] + body + ['}'] + rest;
    var j := 1 + |name|;
    assert s[j] == Quote;
    assert forall k :: 1 <= k < j ==> s[k] == name[k - 1];
    assert FirstIn(s, 1, {Quote}) == Some(j);
    assert s[1..j] == name;
    assert JsKeyCloses(s, j);
    assert s[j + 2] == ' ' && s[j + 3] == '{';
    assert SkipSpace(s, j + 2) == j + 3;
    var r := j + 4 + |body|;
    assert s[r] == '}';
    assert forall k :: j + 4 <= k < r ==> s[k] == body[k - j - 4];
    assert FirstIn(s, j + 4, {'}'}) == Some(r);
    assert s[j + 4..r] == body;
    assert s[r + 1..] == rest;
  }

  /**
   * The capture of `exports:\s*\[([\s\S]*?)\]` (first match): the text between the
   * bracket that follows the first suitable `exports:` and the next `]`.
   */
  function ExportsCapture(s: string): (r: Option<string>)
    ensures r.Some? ==> Lacks(r.value, ']')
    decreases |s|
  {
    match IndexOf(s, "exports:", 0)
    case None => None
    case Some(p) =>
      var k := SkipSpace(s, p + 8);
      if k < |s| && s[k] == '[' then
        match FirstIn(s, k + 1, {']'})
        case Some(e) =>
          Some(s[k + 1..e])
        case None => None
      else ExportsCapture(s[p + 1..])
  }

  /** The exports a module body declares: the quoted tokens of its exports list, or none. */
  function DeclaredExports(body: string): (xs: seq<string>)
    ensures ExportsCapture(body).None? ==> xs == []
    ensures forall i :: 0 <= i < |xs| ==> |xs[i]| > 0 && QuoteFree(xs[i])
  {
    match ExportsCapture(body)
    case None => []
    case Some(c) => QuotedTokens(c)
  }

  /** `critical:\s*(true|false)` (first match), read as "is the first such flag true". */
  function CriticalFlag(s: string): (b: bool)
    ensures b ==> IndexOf(s, "critical:", 0).Some?
    decreases |s|
  {
    match IndexOf(s, "critical:", 0)
    case None => false
    case Some(p) =>
      var k := SkipSpace(s, p + 9);
      if OccursAt(s, "true", k) then true
      else if OccursAt(s, "false", k) then false
      else
        var b := CriticalFlag(s[p + 1..]);
        assert b ==> IndexOf(s, "critical:", 0).Some?;
        b
  }

  /** The flag written right after the first `critical:` is the one read. */
  lemma CriticalFlagAt(s: string, p: nat, flag: bool)
    requires IndexOf(s, "critical:", 0) == Some(p)
    requires OccursAt(s, if flag then "true" else "false", SkipSpace(s, p + 9))
    ensures CriticalFlag(s) == flag
  {
    FlagWord(s, SkipSpace(s, p + 9), flag);
  }

  /** After a space, a word that starts with a non-space is where `\s*` stops. */
  lemma WordAfterSpace(s: string, a: string, v: string, rest: string)
    requires s == a + v + rest && |a| > 0 && a[|a| - 1] == ' ' && |v| > 0 && !IsSpace(v[0])
    ensures SkipSpace(s, |a| - 1) == |a| && OccursAt(s, v, |a|)
  {
    SliceMiddle(a, v, rest);
    assert s[|a| - 1] == ' ';
  }

  /** `false` written at k is not `true`. */
  lemma FlagWord(s: string, k: nat, flag: bool)
    requires OccursAt(s, if flag then "true" else "false", k)
    ensures if flag then OccursAt(s, "true", k) else !OccursAt(s, "true", k) && OccursAt(s, "false", k)
  {
    if !flag {
      assert s[k] == "false"[0];
    }
  }

  /** A body whose first `critical:` flag is written out reads as that flag. */
  lemma CriticalFlagOfLayout(s: string, pre: string, flag: bool, rest: string)
    requires forall k: nat :: k < |pre| ==> !OccursAt(pre + "critical:", "critical:", k)
    requires s == pre + "critical: " + (if flag then "true" else "false") + rest
    ensures CriticalFlag(s) == flag
  {
    var v := if flag then "true" else "false";
    var a := pre + "critical: ";
    assert IndexOf(s, "critical:", 0) == Some(|pre|) by {
      assert s == pre + "critical:" + ([' '] + v + rest);
      IndexOfAfterPrefix(s, pre, "critical:", [' '] + v + rest);
    }
    assert SkipSpace(s, |pre| + 9) == |pre| + 10 && OccursAt(s, v, |pre| + 10) by {
      WordAfterSpace(s, a, v, rest);
    }
    CriticalFlagAt(s, |pre|, flag);
  }

  // ---------------------------------------------------------------- getElementById

  const IdCall: string := "getElementById("

  /** `getElementById\(['"]([^'"]+)['"]\)` anchored at index 0: the id and the match end. */
  function IdCallAt(s: string): (r: Option<(string, nat)>)
    ensures r.Some? ==> 0 < r.value.1 <= |s| && |r.value.0| > 0 && NoQuotes(r.value.0)
  {
    var n := |IdCall|;
    if OccursAt(s, IdCall, 0) && n < |s| && s[n] in Quotes then
      match FirstIn(s, n + 1, Quotes)
      case Some(q) =>
        if q > n + 1 && q + 1 < |s| && s[q + 1] == ')' then Some((s[n + 1..q], q + 2)) else None
      case None => None
    else None
  }

  /** The captures of the global `getElementById` regex over s, in order. */
  function ElementIdArgs(s: string): (ids: seq<string>)
    ensures forall i :: 0 <= i < |ids| ==> |ids[i]| > 0 && NoQuotes(ids[i])
    decreases |s|
  {
    if |s| == 0 then []
    else match IdCallAt(s)
      case Some(m) => [m.0] + ElementIdArgs(s[m.1..])
      case None => ElementIdArgs(s[1..])
  }

  /** A call with a literal id at the front matches there, with either kind of quotes. */
  lemma IdCallAtLayout(q1: char, id: string, q2: char, rest: string)
    requires q1 in Quotes && q2 in Quotes && |id| > 0 && NoQuotes(id)
    ensures IdCallAt(IdCall + [q1] + id + [q2, ')'] + rest) == Some((id, |IdCall| + 3 + |id|))
  {
    var call := [q1] + id + [q2, ')'];
    var s := IdCall + call + rest;
    var n := |IdCall|;
    assert s[..n] == IdCall;
    assert forall k :: n <= k < n + |call| ==> s[k] == call[k - n];
    var e := n + 1 + |id|;
    assert s[e] == q2;
    assert forall k :: n + 1 <= k < e ==> s[k] == id[k - n - 1];
    assert FirstIn(s, n + 1, Quotes) == Some(e);
    assert s[n + 1..e] == id;
    assert IdCall + [q1] + id + [q2, ')'] + rest == s;
  }

  /** Each such call is read back in turn, and scanning resumes right after it. */
  lemma ElementIdArgsCons(q1: char, id: string, q2: char, rest: string)
    requires q1 in Quotes && q2 in Quotes && |id| > 0 && NoQuotes(id)
    ensures ElementIdArgs(IdCall + [q1] + id + [q2, ')'] + rest) == [id] + ElementIdArgs(rest)
  {
    var s := IdCall + [q1] + id + [q2, ')'] + rest;
    IdCallAtLayout(q1, id, q2, rest);
    assert s[|IdCall| + 3 + |id|..] == rest;
  }

  // --------------------------------------------------------- NAME\s*=\s*OPEN([^CLOSE]+)CLOSE

  /**
   * The capture of `NAME\s*=\s*O([^C]+)C` (first match) for a name and a pair of bracket
   * characters: the block after the first `NAME = O` whose text up to the FIRST closing
   * character C is non-empty.
   */
  function AssignedBlock(s: string, name: string, open: char, close: char): (r: Option<string>)
    requires |name| > 0
    ensures r.Some? ==> |r.value| > 0 && Lacks(r.value, close)
  {
    AssignedFrom(s, name, open, close, 0)
  }

  /** The first match starting at or after `from`: each occurrence of `name` is tried in turn. */
  function AssignedFrom(s: string, name: string, open: char, close: char, from: nat): (r: Option<string>)
    requires |name| > 0
    ensures r.Some? ==> |r.value| > 0 && Lacks(r.value, close)
    decreases |s| - from
  {
    match IndexOf(s, name, from)
    case None => None
    case Some(p) =>
      var found := BlockAfter(s, p + |name|, open, close);
      if found.Some? then found else AssignedFrom(s, name, open, close, p + 1)
  }

  /** `\s*=\s*O([^C]+)C` anchored at n: the non-empty text up to the first C. */
  function BlockAfter(s: string, n: nat, open: char, close: char): (r: Option<string>)
    requires n <= |s|
    ensures r.Some? ==> |r.value| > 0 && Lacks(r.value, close)
  {
    var k := SkipSpace(s, n);
    var k2 := if k < |s| && s[k] == '=' then SkipSpace(s, k + 1) else |s|;
    if k2 < |s| && s[k2] == open then
      match FirstIn(s, k2 + 1, {close})
      case Some(e) =>
        if e > k2 + 1 then Some(s[k2 + 1..e]) else None
      case None => None
    else None
  }

  /** After ` = O`, a non-empty body ending at the first C is the block. */
  lemma BlockAfterAt(s: string, n: nat, open: char, close: char, e: nat)
    requires !IsSpace(open)
    requires n + 4 < e < |s|
    requires s[n] == ' ' && s[n + 1] == '=' && s[n + 2] == ' ' && s[n + 3] == open
    requires s[e] == close && forall k :: n + 4 <= k < e ==> s[k] != close
    ensures BlockAfter(s, n, open, close) == Some(s[n + 4..e])
  {
    assert SkipSpace(s, n + 1) == n + 1;
    assert SkipSpace(s, n) == n + 1;
    assert SkipSpace(s, n + 3) == n + 3;
    assert SkipSpace(s, n + 2) == n + 3;
    FirstInFirst(s, n + 4, {close}, e);
  }

  /** The block after the first `name`, when there is one, is the capture. */
  lemma AssignedBlockAt(s: string, name: string, open: char, close: char, p: nat, x: string)
    requires |name| > 0 && IndexOf(s, name, 0) == Some(p)
    requires BlockAfter(s, p + |name|, open, close) == Some(x)
    ensures AssignedBlock(s, name, open, close) == Some(x)
  {
    assert AssignedBlock(s, name, open, close) == AssignedFrom(s, name, open, close, 0);
  }

  /** The block read off positions: ` = O x C` at n. */
  lemma BlockAfterIs(s: string, n: nat, open: char, close: char, x: string)
    requires !IsSpace(open) && |x| > 0 && Lacks(x, close)
    requires && n + 4 + |x| < |s|
      && s[n] == ' ' && s[n + 1] == '=' && s[n + 2] == ' ' && s[n + 3] == open
      && (forall k :: n + 4 <= k < n + 4 + |x| ==> s[k] == x[k - n - 4]) && s[n + 4 + |x|] == close
    ensures BlockAfter(s, n, open, close) == Some(x)
  {
    assert s[n + 4..n + 4 + |x|] == x;
    assert forall k :: n + 4 <= k < n + 4 + |x| ==> s[k] != close;
    BlockAfterAt(s, n, open, close, n + 4 + |x|);
  }

  /** The positions of ` = O x C rest`. */
  lemma AssignmentPositions(t: string, open: char, x: string, close: char, rest: string)
    requires t == [' ', '=', ' ', open] + x + [close] + rest
    ensures 4 + |x| < |t| && t[0] == ' ' && t[1] == '=' && t[2] == ' ' && t[3] == open
    ensures (forall k :: 4 <= k < 4 + |x| ==> t[k] == x[k - 4]) && t[4 + |x|] == close
  {
  }

  /** Every position of t is found |a| positions further on in a + t. */
  lemma ShiftedPositions(s: string, a: string, t: string)
    requires s == a + t
    ensures |s| == |a| + |t| && forall k :: 0 <= k < |t| ==> s[|a| + k] == t[k]
  {
  }

  /** The positions of `pre NAME = O x C rest`. */
  lemma LayoutPositions(s: string, pre: string, name: string, open: char, x: string, close: char, rest: string)
    requires s == pre + name + ([' ', '=', ' ', open] + x + [close] + rest)
    ensures var n := |pre| + |name|;
      && n + 4 + |x| < |s|
      && s[n] == ' ' && s[n + 1] == '=' && s[n + 2] == ' ' && s[n + 3] == open
      && (forall k :: n + 4 <= k < n + 4 + |x| ==> s[k] == x[k - n - 4]) && s[n + 4 + |x|] == close
  {
    var t := [' ', '=', ' ', open] + x + [close] + rest;
    var n := |pre| + |name|;
    AssignmentPositions(t, open, x, close, rest);
    ShiftedPositions(s, pre + name, t);
    assert s[n] == t[0] && s[n + 1] == t[1] && s[n + 2] == t[2] && s[n + 3] == t[3];
    assert s[n + 4 + |x|] == t[4 + |x|];
    forall k | n + 4 <= k < n + 4 + |x| ensures s[k] == x[k - n - 4] {
      assert s[n + (k - n)] == t[k - n];
    }
  }

  /** In `pre NAME = O x C rest` the block after the name is x. */
  lemma LayoutBlock(s: string, pre: string, name: string, open: char, close: char, x: string, rest: string)
    requires s == pre + name + ([' ', '=', ' ', open] + x + [close] + rest)
    requires !IsSpace(open) && |x| > 0 && Lacks(x, close)
    ensures BlockAfter(s, |pre| + |name|, open, close) == Some(x)
  {
    LayoutPositions(s, pre, name, open, x, close, rest);
    BlockAfterIs(s, |pre| + |name|, open, close, x);
  }

  /**
   * In `pre NAME = O x C rest`, where pre lacks the name's first character, the first
   * name stands right after pre and the block after it is x; by `AssignedBlockAt`, x is
   * then the capture.
   */
  lemma LayoutFacts(s: string, pre: string, name: string, open: char, close: char, x: string, rest: string)
    requires s == pre + name + ([' ', '=', ' ', open] + x + [close] + rest)
    requires |name| > 0 && forall k :: 0 <= k < |pre| ==> pre[k] != name[0]
    requires !IsSpace(open) && |x| > 0 && Lacks(x, close)
    ensures IndexOf(s, name, 0) == Some(|pre|)
    ensures BlockAfter(s, |pre| + |name|, open, close) == Some(x)
  {
    assert IndexOf(s, name, 0) == Some(|pre|) by {
      IndexOfAfter(s, pre, name, [' ', '=', ' ', open] + x + [close] + rest);
    }
    LayoutBlock(s, pre, name, open, close, x, rest);
  }

  // ---------------------------------------------- import\s+.*?from\s+['"]\.\/([^'"]+)['"]

  /** `from\s+['"]\.\/([^'"]+)['"]` anchored at q: the relative path and the match end. */
  function FromClauseAt(s: string, q: nat): (r: Option<(string, nat)>)
    requires q <= |s|
    ensures r.Some? ==> q < r.value.1 <= |s| && |r.value.0| > 0 && NoQuotes(r.value.0)
  {
    if OccursAt(s, "from", q) then
      var k := SkipSpace(s, q + 4);
      if k > q + 4 && k < |s| && s[k] in Quotes && OccursAt(s, "./", k + 1) then
        match FirstIn(s, k + 3, Quotes)
        case Some(e) => if e > k + 3 then Some((s[k + 3..e], e + 1)) else None
        case None => None
      else None
    else None
  }

  /**
   * A lazy `.*?` followed by the from clause: the first q at or after i, with no line
   * terminator in between, at which the clause matches.
   */
  function LazyFrom(s: string, i: nat): (r: Option<(string, nat)>)
    requires i <= |s|
    ensures r.Some? ==> i < r.value.1 <= |s| && |r.value.0| > 0 && NoQuotes(r.value.0)
    decreases |s| - i
  {
    match FromClauseAt(s, i)
    case Some(m) => Some(m)
    case None => if i < |s| && !IsLineTerminator(s[i]) then LazyFrom(s, i + 1) else None
  }

  /**
   * The import regex anchored at p. `\s+` first takes the whole run of whitespace; giving
   * some back never helps, because `from` cannot start on a whitespace character.
   */
  function ImportAt(s: string, p: nat): (r: Option<(string, nat)>)
    requires p <= |s|
    ensures r.Some? ==> p < r.value.1 <= |s| && |r.value.0| > 0 && NoQuotes(r.value.0)
    ensures r.Some? ==> OccursAt(s, "import", p)
  {
    if OccursAt(s, "import", p) then
      var e := SkipSpace(s, p + 6);
      if e > p + 6 then LazyFrom(s, e) else None
    else None
  }

  /** The paths of every `import ... from './path'` in s at or after p, in order. */
  function ImportTargets(s: string, p: nat): (ts: seq<string>)
    requires p <= |s|
    ensures forall i :: 0 <= i < |ts| ==> |ts[i]| > 0 && NoQuotes(ts[i])
    decreases |s| - p
  {
    if p == |s| then []
    else match ImportAt(s, p)
      case Some(m) => [m.0] + ImportTargets(s, m.1)
      case None => ImportTargets(s, p + 1)
  }

  /** The clause `from './path'` written out at q matches there. */
  lemma FromClauseLayout(s: string, q: nat, path: string)
    requires |path| > 0 && NoQuotes(path)
    requires OccursAt(s, FromClause(path), q)
    ensures FromClauseAt(s, q) == Some((path, q + 9 + |path|))
  {
    var c := FromClause(path);
    assert forall k :: q <= k < q + |c| ==> s[k] == c[k - q];
    assert s[q..q + 4] == "from";
    assert SkipSpace(s, q + 4) == q + 5;
    assert s[q + 6..q + 8] == "./";
    var e := q + 8 + |path|;
    assert forall k :: 0 <= k < |path| ==> c[8 + k] == path[k];
    assert forall k :: q + 8 <= k < e ==> s[k] == path[k - q - 8];
    assert s[e] == c[8 + |path|] == '\'';
    assert FirstIn(s, q + 8, Quotes) == Some(e);
    assert s[q + 8..e] == path;
  }

  /** The statement `import NAMES from './path'`. */
  function ImportLine(names: string, path: string): string {
    "import " + names + " " + FromClause(path)
  }

  /** The clause `from './path'`. */
  function FromClause(path: string): string {
    "from './" + path + "'"
  }

  /** One import statement `import NAMES from './path'` written at p is read there. */
  lemma ImportAtLayout(s: string, p: nat, names: string, path: string)
    requires |names| > 0 && !IsSpace(names[0])
    requires forall i :: 0 <= i < |names| ==> names[i] != 'f' && !IsLineTerminator(names[i])
    requires |path| > 0 && NoQuotes(path)
    requires OccursAt(s, ImportLine(names, path), p)
    ensures ImportAt(s, p) == Some((path, p + |ImportLine(names, path)|))
  {
    ImportKeyword(s, p, names, path);
    ImportNamesSkipped(s, p, names, path);
    ImportFromClause(s, p, names, path);
  }

  /** `import` and one space, then a non-space: the lazy part starts right after the space. */
  lemma ImportKeyword(s: string, p: nat, names: string, path: string)
    requires |names| > 0 && !IsSpace(names[0])
    requires OccursAt(s, ImportLine(names, path), p)
    ensures p + 7 <= |s| && ImportAt(s, p) == LazyFrom(s, p + 7)
  {
    var line := ImportLine(names, path);
    assert s[p..p + 6] == line[..6] == "import";
    assert s[p + 6] == line[6] == ' ';
    assert s[p + 7] == line[7] == names[0];
    assert SkipSpace(s, p + 6) == p + 7;
  }

  /** The closing `from './path'` of an import statement matches where it is written. */
  lemma ImportFromClause(s: string, p: nat, names: string, path: string)
    requires |path| > 0 && NoQuotes(path)
    requires OccursAt(s, ImportLine(names, path), p)
    ensures p + 8 + |names| <= |s|
    ensures LazyFrom(s, p + 8 + |names|) == Some((path, p + |ImportLine(names, path)|))
  {
    var head := "import " + names + " ";
    assert ImportLine(names, path) == head + FromClause(path);
    OccursSuffix(s, head, FromClause(path), p);
    FromClauseLayout(s, p + |head|, path);
  }

  /** The second half of an occurrence of x + y is an occurrence of y. */
  lemma OccursSuffix(s: string, x: string, y: string, p: nat)
    requires OccursAt(s, x + y, p)
    ensures OccursAt(s, y, p + |x|)
  {
    assert s[p + |x|..p + |x| + |y|] == s[p..p + |x| + |y|][|x|..];
  }

  /** The lazy `.*?` of an import statement runs over its names up to the word `from`. */
  lemma ImportNamesSkipped(s: string, p: nat, names: string, path: string)
    requires forall i :: 0 <= i < |names| ==> names[i] != 'f' && !IsLineTerminator(names[i])
    requires OccursAt(s, ImportLine(names, path), p)
    ensures p + 8 + |names| <= |s|
    ensures LazyFrom(s, p + 7) == LazyFrom(s, p + 8 + |names|)
  {
    var line := ImportLine(names, path);
    var q := p + 8 + |names|;
    assert line == "import " + names + " " + FromClause(path);
    forall k | p + 7 <= k < q
      ensures FromClauseAt(s, k).None? && !IsLineTerminator(s[k])
    {
      CharOfOccurrence(s, line, p, k - p);
      if k < q - 1 {
        assert line[k - p] == names[k - p - 7];
      } else {
        assert line[k - p] == ' ';
      }
      assert !OccursAt(s, "from", k) by {
        if k + 4 <= |s| { assert s[k..k + 4][0] == s[k]; }
      }
    }
    LazyFromSkips(s, p + 7, q);
  }

  /** The characters of an occurrence are the pattern's. */
  lemma CharOfOccurrence(s: string, pat: string, p: nat, j: nat)
    requires OccursAt(s, pat, p) && j < |pat|
    ensures s[p + j] == pat[j]
  {
    assert s[p..p + |pat|][j] == s[p + j];
  }

  /** The lazy search passes over a stretch where the clause fails and no line ends. */
  lemma {:induction false} LazyFromSkips(s: string, i: nat, q: nat)
    requires i <= q <= |s|
    requires forall k :: i <= k < q ==> FromClauseAt(s, k).None? && !IsLineTerminator(s[k])
    ensures LazyFrom(s, i) == LazyFrom(s, q)
    decreases q - i
  {
    if i < q {
      LazyFromSkips(s, i + 1, q);
    }
  }
}
