/**
 * Character classes and plain text searches shared by the scanners: decimal rendering
 * of naturals (JavaScript `String(n)` for a non-negative integer), the `\s` and line
 * terminator classes of JavaScript regular expressions, substring search and the
 * "anchor ... first terminator" capture `anchor([\s\S]*?)terminator`.
 */
module Text {
  import opened Wrappers

  predicate IsDigit(c: char) { '0' <= c <= '9' }

  function DigitChar(d: nat): (c: char)
    requires d < 10
    ensures IsDigit(c) && c as int - '0' as int == d
  {
    ('0' as int + d) as char
  }

  function DigitValue(c: char): nat
    requires IsDigit(c)
  {
    c as int - '0' as int
  }

  /** Decimal digits of n, most significant first, without leading zeros. */
  function NatToString(n: nat): (r: string)
    ensures 1 <= |r|
    ensures forall i :: 0 <= i < |r| ==> IsDigit(r[i])
    ensures |r| > 1 ==> r[0] != '0'
  {
    if n < 10 then [DigitChar(n)] else NatToString(n / 10) + [DigitChar(n % 10)]
  }

  /** The value of a string of decimal digits. */
  function DigitsValue(s: string): nat
    requires forall i :: 0 <= i < |s| ==> IsDigit(s[i])
  {
    if |s| == 0 then 0 else DigitsValue(s[..|s| - 1]) * 10 + DigitValue(s[|s| - 1])
  }

  /** Reading the rendered digits back gives the number: the rendering loses nothing. */
  lemma {:induction false} NatToStringValue(n: nat)
    ensures DigitsValue(NatToString(n)) == n
  {
    if n >= 10 {
      var r := NatToString(n);
      assert r[..|r| - 1] == NatToString(n / 10);
      NatToStringValue(n / 10);
    }
  }

  /** Distinct numbers render differently, so index keys never collide. */
  lemma NatToStringInjective(m: nat, n: nat)
    requires NatToString(m) == NatToString(n)
    ensures m == n
  {
    NatToStringValue(m);
    NatToStringValue(n);
  }

  /** The `\s` class of JavaScript regular expressions. */
  predicate IsSpace(c: char) {
    c == ' ' || c == '\t' || c == '\n' || c == '\U{000B}' || c == '\U{000C}' || c == '\r'
    || c == '\U{00A0}' || c == '\U{1680}' || ('\U{2000}' <= c <= '\U{200A}')
    || c == '\U{2028}' || c == '\U{2029}' || c == '\U{202F}' || c == '\U{205F}'
    || c == '\U{3000}' || c == '\U{FEFF}'
  }

  /** The characters that `.` does not match. */
  predicate IsLineTerminator(c: char) {
    c == '\n' || c == '\r' || c == '\U{2028}' || c == '\U{2029}'
  }

  /** The first index at or after i that is not whitespace (or |s|): what a greedy `\s*` consumes. */
  function SkipSpace(s: string, i: nat): (k: nat)
    requires i <= |s|
    ensures i <= k <= |s|
    ensures forall m :: i <= m < k ==> IsSpace(s[m])
    ensures k < |s| ==> !IsSpace(s[k])
    decreases |s| - i
  {
    if i < |s| && IsSpace(s[i]) then SkipSpace(s, i + 1) else i
  }

  predicate OccursAt(s: string, pat: string, i: nat) {
    i + |pat| <= |s| && s[i..i + |pat|] == pat
  }

  /** Leftmost occurrence of pat in s at or after `from`. */
  function IndexOf(s: string, pat: string, from: nat): (r: Option<nat>)
    ensures r.Some? ==> from <= r.value && OccursAt(s, pat, r.value)
    ensures r.Some? ==> forall k :: from <= k < r.value ==> !OccursAt(s, pat, k)
    ensures r.None? ==> forall k :: from <= k ==> !OccursAt(s, pat, k)
    decreases |s| - from
  {
    if from + |pat| > |s| then None
    else if OccursAt(s, pat, from) then Some(from)
    else IndexOf(s, pat, from + 1)
  }

  /** An occurrence with none before it (from `from` on) is the one IndexOf finds. */
  lemma {:induction false} IndexOfFirst(s: string, pat: string, from: nat, i: nat)
    requires from <= i && OccursAt(s, pat, i)
    requires forall k: nat :: from <= k < i ==> !OccursAt(s, pat, k)
    ensures IndexOf(s, pat, from) == Some(i)
    decreases i - from
  {
    if from < i {
      IndexOfFirst(s, pat, from + 1, i);
    }
  }

  /** Leftmost index at or after `from` whose character is in cs. */
  function FirstIn(s: string, from: nat, cs: set<char>): (r: Option<nat>)
    ensures r.Some? ==> from <= r.value < |s| && s[r.value] in cs
    ensures r.Some? ==> forall k :: from <= k < r.value ==> s[k] !in cs
    ensures r.None? ==> forall k :: from <= k < |s| ==> s[k] !in cs
    decreases |s| - from
  {
    if from >= |s| then None
    else if s[from] in cs then Some(from)
    else FirstIn(s, from + 1, cs)
  }

  /** The middle part of a concatenation, sliced back out. */
  lemma SliceMiddle<T>(a: seq<T>, b: seq<T>, c: seq<T>)
    ensures (a + b + c)[|a|..|a| + |b|] == b
    ensures forall k :: 0 <= k < |b| ==> (a + b + c)[|a| + k] == b[k]
  {
  }

  /** A pattern whose first character the prefix lacks is found right after the prefix. */
  lemma IndexOfAfter(s: string, pre: string, pat: string, rest: string)
    requires s == pre + pat + rest
    requires |pat| > 0 && forall k :: 0 <= k < |pre| ==> pre[k] != pat[0]
    ensures IndexOf(s, pat, 0) == Some(|pre|)
  {
    assert OccursAt(s, pat, |pre|) by {
      assert s[|pre|..|pre| + |pat|] == pat;
    }
    forall k: nat | k < |pre| ensures !OccursAt(s, pat, k) {
      assert s[k] == pre[k];
    }
    IndexOfFirst(s, pat, 0, |pre|);
  }

  /** Whether pat occurs at j is decided by the prefix t once the occurrence fits in t. */
  lemma OccursPrefix(t: string, u: string, pat: string, j: nat)
    requires j + |pat| <= |t|
    ensures OccursAt(t + u, pat, j) == OccursAt(t, pat, j)
  {
    assert (t + u)[j..j + |pat|] == t[j..j + |pat|];
  }

  /** A pattern that does not occur earlier in `pre + pat` is found right after the prefix. */
  lemma IndexOfAfterPrefix(s: string, pre: string, pat: string, rest: string)
    requires s == pre + pat + rest
    requires forall k: nat :: k < |pre| ==> !OccursAt(pre + pat, pat, k)
    ensures IndexOf(s, pat, 0) == Some(|pre|)
  {
    assert OccursAt(s, pat, |pre|) by {
      SliceMiddle(pre, pat, rest);
    }
    forall k: nat | k < |pre| ensures !OccursAt(s, pat, k) {
      if k + |pat| <= |pre| + |pat| {
        OccursPrefix(pre + pat, rest, pat, k);
      }
    }
    IndexOfFirst(s, pat, 0, |pre|);
  }

  /** A character of cs with none before it (from `from` on) is the one FirstIn finds. */
  lemma {:induction false} FirstInFirst(s: string, from: nat, cs: set<char>, i: nat)
    requires from <= i < |s| && s[i] in cs
    requires forall k :: from <= k < i ==> s[k] !in cs
    ensures FirstIn(s, from, cs) == Some(i)
    decreases i - from
  {
    if from < i {
      FirstInFirst(s, from + 1, cs, i);
    }
  }

  /** Three adjacent occurrences make one occurrence of the concatenation. */
  lemma OccursConcat(s: string, i: nat, x: string, y: string, z: string)
    requires OccursAt(s, x, i) && OccursAt(s, y, i + |x|) && OccursAt(s, z, i + |x| + |y|)
    ensures OccursAt(s, x + y + z, i)
  {
    var a, b, c := i + |x|, i + |x| + |y|, i + |x| + |y| + |z|;
    assert s[i..c] == s[i..a] + s[a..b] + s[b..c];
  }

  /**
   * The capture of `open([\s\S]*?)close` (regex specials of open and close taken
   * literally): the text between the first occurrence of `open` and the first
   * occurrence of `close` after it. A later `open` never helps: whatever follows it
   * also follows the first one.
   */
  function Between(s: string, open: string, close: string): Option<string> {
    match IndexOf(s, open, 0)
    case None => None
    case Some(i) =>
      match IndexOf(s, close, i + |open|)
      case None => None
      case Some(j) => Some(s[i + |open|..j])
  }

  /**
   * A capture is laid out as open + capture + close at the first `open`, with no
   * `close` starting inside it.
   */
  lemma BetweenFound(s: string, open: string, close: string)
    requires Between(s, open, close).Some?
    ensures IndexOf(s, open, 0).Some?
    ensures var i, g := IndexOf(s, open, 0).value, Between(s, open, close).value;
      && OccursAt(s, open + g + close, i)
      && forall k: nat :: i + |open| <= k < i + |open| + |g| ==> !OccursAt(s, close, k)
  {
    var i := IndexOf(s, open, 0).value;
    var j := IndexOf(s, close, i + |open|).value;
    OccursConcat(s, i, open, s[i + |open|..j], close);
  }

  /** There is no capture iff `open` is absent or no `close` follows the first one. */
  lemma BetweenMissing(s: string, open: string, close: string)
    ensures Between(s, open, close).None? <==> (IndexOf(s, open, 0).None?
      || forall k: nat :: IndexOf(s, open, 0).value + |open| <= k ==> !OccursAt(s, close, k))
  {
    match IndexOf(s, open, 0)
    case None =>
    case Some(i) =>
      match IndexOf(s, close, i + |open|)
      case None =>
      case Some(j) =>
        assert OccursAt(s, close, j);
  }

  /**
   * The first `open` at i and the first `close` at j after it: the capture is what lies
   * between.
   */
  lemma BetweenAt(s: string, open: string, close: string, i: nat, j: nat)
    requires OccursAt(s, open, i) && forall k: nat :: k < i ==> !OccursAt(s, open, k)
    requires i + |open| <= j && OccursAt(s, close, j)
    requires forall k: nat :: i + |open| <= k < j ==> !OccursAt(s, close, k)
    ensures Between(s, open, close) == Some(s[i + |open|..j])
  {
    IndexOfFirst(s, open, 0, i);
    IndexOfFirst(s, close, i + |open|, j);
  }

  /** Round trip: the capture of a text laid out as prefix + open + body + close + rest is body. */
  lemma BetweenOfLayout(s: string, prefix: string, open: string, body: string, close: string, rest: string)
    requires s == prefix + open + body + close + rest
    requires forall k: nat :: k < |prefix| ==> !OccursAt(s, open, k)
    requires forall k: nat :: |prefix| + |open| <= k < |prefix| + |open| + |body| ==> !OccursAt(s, close, k)
    ensures Between(s, open, close) == Some(body)
  {
    var i, j := |prefix|, |prefix| + |open| + |body|;
    assert OccursAt(s, open, i) && OccursAt(s, close, j) && s[i + |open|..j] == body by {
      SliceMiddle(prefix, open, body + close + rest);
      SliceMiddle(prefix + open, body, close + rest);
      SliceMiddle(prefix + open + body, close, rest);
      assert s == prefix + open + (body + close + rest);
      assert s == prefix + open + body + (close + rest);
    }
    BetweenAt(s, open, close, i, j);
  }

  /** Round trip: the capture of open + body + close, with no close inside body, is body. */
  lemma BetweenOfFrame(s: string, open: string, body: string, close: string)
    requires s == open + body + close
    requires forall k: nat :: |open| <= k < |open| + |body| ==> !OccursAt(s, close, k)
    ensures Between(s, open, close) == Some(body)
  {
    assert s == [] + open + body + close + [];
    BetweenOfLayout(s, [], open, body, close, []);
  }
}
