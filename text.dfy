/**
 * The string operations the application relies on: `str.upper`, `str.isupper`,
 * `str.strip`-based blank checks, prefix/suffix tests, the `"FROM_TO"` pair key and
 * `key.split("_")`. Case mapping covers the ASCII letters only; other characters are
 * treated as uncased.
 */
module Text {
  import opened Common

  predicate IsLowerChar(c: char) { 'a' <= c <= 'z' }
  predicate IsUpperChar(c: char) { 'A' <= c <= 'Z' }

  /**
   * The characters `str.strip()` removes, those `str.isspace()` accepts: the ASCII
   * controls from tab to carriage return and from the file separator to the space,
   * next line, no-break space, and the Unicode space separators and line and paragraph
   * separators.
   */
  predicate IsSpace(c: char) {
    || '\t' <= c <= '\r'
    || '\U{1C}' <= c <= ' '
    || c == '\U{85}' || c == '\U{A0}' || c == '\U{1680}'
    || '\U{2000}' <= c <= '\U{200A}'
    || c == '\U{2028}' || c == '\U{2029}' || c == '\U{202F}' || c == '\U{205F}' || c == '\U{3000}'
  }

  function UpperChar(c: char): (u: char)
    ensures !IsLowerChar(u)
    ensures IsLowerChar(c) ==> IsUpperChar(u)
    ensures !IsLowerChar(c) ==> u == c
  {
    if IsLowerChar(c) then (c as int - 32) as char else c
  }

  /** `s.upper()`. */
  function Upper(s: string): (u: string)
    ensures |u| == |s|
    ensures forall i :: 0 <= i < |s| ==> u[i] == UpperChar(s[i])
  {
    seq(|s|, i requires 0 <= i < |s| => UpperChar(s[i]))
  }

  predicate HasNoLower(s: string) {
    forall i :: 0 <= i < |s| ==> !IsLowerChar(s[i])
  }

  /** `s.isupper()`: at least one cased character, and no lower-case one. */
  predicate IsUpperCase(s: string) {
    (exists i :: 0 <= i < |s| && IsUpperChar(s[i])) && HasNoLower(s)
  }

  /** `not s or not s.strip()`: empty or whitespace only. */
  predicate IsBlank(s: string) {
    forall i :: 0 <= i < |s| ==> IsSpace(s[i])
  }

  predicate Contains(s: string, c: char) {
    exists i :: 0 <= i < |s| && s[i] == c
  }

  predicate StartsWith(s: string, prefix: string) {
    |prefix| <= |s| && s[..|prefix|] == prefix
  }

  predicate EndsWith(s: string, suffix: string) {
    |suffix| <= |s| && s[|s| - |suffix|..] == suffix
  }

  lemma {:induction false} UpperHasNoLower(s: string)
    ensures HasNoLower(Upper(s))
  {
  }

  /** Upper-casing a string that has no lower-case letter changes nothing. */
  lemma UpperOfNoLower(s: string)
    requires HasNoLower(s)
    ensures Upper(s) == s
  {
  }

  lemma UpperIdempotent(s: string)
    ensures Upper(Upper(s)) == Upper(s)
  {
    UpperOfNoLower(Upper(s));
  }

  /** A string with no lower-case letter differs from one that has one. */
  lemma NoLowerDiffers(s: string, t: string, k: nat)
    requires HasNoLower(s) && k < |t| && IsLowerChar(t[k])
    ensures s != t
  {
    if |s| == |t| {
      assert !IsLowerChar(s[k]) && s[k] != t[k];
    }
  }

  /** The canonical key `"FROM_TO"` of a currency pair. */
  function PairKey(from: string, to: string): string {
    from + "_" + to
  }

  /** Position of the first `'_'` in `s`, or -1 when there is none. */
  function UnderscoreAt(s: string): (r: int)
    ensures -1 <= r < |s|
    ensures r >= 0 ==> s[r] == '_' && forall j :: 0 <= j < r ==> s[j] != '_'
    ensures r == -1 <==> !Contains(s, '_')
  {
    if |s| == 0 then -1
    else if s[0] == '_' then 0
    else
      var r := UnderscoreAt(s[1..]);
      if r < 0 then -1 else r + 1
  }

  /**
   * `(key.split("_")[0], key.split("_")[1])`: the text before the first `'_'` and the
   * text between the first and the second one. A key without `'_'` has no second half
   * (Python raises `IndexError`).
   */
  function SplitPair(key: string): (halves: Option<(string, string)>)
    ensures halves.None? <==> !Contains(key, '_')
    ensures halves.Some? ==> !Contains(halves.value.0, '_') && !Contains(halves.value.1, '_')
  {
    var i := UnderscoreAt(key);
    if i < 0 then None
    else
      var rest := key[i + 1..];
      var j := UnderscoreAt(rest);
      Some((key[..i], if j < 0 then rest else rest[..j]))
  }

  lemma NoUnderscoreAt(s: string)
    requires !Contains(s, '_')
    ensures UnderscoreAt(s) == -1
  {
  }

  /** Splitting the key of a pair of underscore-free codes gives the two codes back. */
  lemma SplitPairKey(from: string, to: string)
    requires !Contains(from, '_') && !Contains(to, '_')
    ensures SplitPair(PairKey(from, to)) == Some((from, to))
  {
    var key := PairKey(from, to);
    assert key[|from|] == '_';
    assert forall j :: 0 <= j < |from| ==> key[j] == from[j];
    var i := UnderscoreAt(key);
    assert i == |from|;
    assert key[i + 1..] == to;
    NoUnderscoreAt(to);
    assert key[..i] == from;
  }

  /** Two pair keys over underscore-free codes are equal only for equal codes. */
  lemma PairKeyInjective(a: string, b: string, c: string, d: string)
    requires !Contains(a, '_') && !Contains(b, '_') && !Contains(c, '_') && !Contains(d, '_')
    requires PairKey(a, b) == PairKey(c, d)
    ensures a == c && b == d
  {
    SplitPairKey(a, b);
    SplitPairKey(c, d);
  }

  /** Pair keys over underscore-free codes are equal exactly when both codes are. */
  lemma PairKeysEqual(a: string, b: string, c: string, d: string)
    requires !Contains(a, '_') && !Contains(b, '_') && !Contains(c, '_') && !Contains(d, '_')
    ensures PairKey(a, b) == PairKey(c, d) <==> a == c && b == d
  {
    if PairKey(a, b) == PairKey(c, d) {
      PairKeyInjective(a, b, c, d);
    }
  }
}
