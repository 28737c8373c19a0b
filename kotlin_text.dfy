/**
 * The part of Kotlin's text library that the chat input field relies on:
 * `Char.isWhitespace`, `CharSequence.isBlank` and `String.trim` (JVM).
 */
module KotlinText {

  /**
   * Kotlin/JVM `Char.isWhitespace`: `Character.isWhitespace(c) || Character.isSpaceChar(c)`,
   * i.e. the controls U+0009..U+000D and U+001C..U+001F together with every character
   * of the Unicode categories Zs, Zl and Zp.
   */
  predicate IsWhitespace(c: char)
    ensures c == ' ' || c == '\t' || c == '\n' || c == '\r' ==> IsWhitespace(c)
    ensures ('a' <= c <= 'z') || ('A' <= c <= 'Z') || ('0' <= c <= '9') ==> !IsWhitespace(c)
    ensures IsWhitespace(c) ==> 0x09 <= c as int <= 0x3000
  {
    var n := c as int;
    || (0x09 <= n <= 0x0D)
    || (0x1C <= n <= 0x20)
    || n == 0xA0
    || n == 0x1680
    || (0x2000 <= n <= 0x200A)
    || n == 0x2028
    || n == 0x2029
    || n == 0x202F
    || n == 0x205F
    || n == 0x3000
  }

  /** Every character of `s` matches `p`. */
  predicate All(s: string, p: char -> bool) {
    forall i :: 0 <= i < |s| ==> p(s[i])
  }

  /** `CharSequence.isBlank`: empty or made of whitespace only. */
  predicate IsBlank(s: string)
    ensures s == [] ==> IsBlank(s)
    ensures IsBlank(s) && s != [] ==> IsWhitespace(s[0]) && IsWhitespace(s[|s| - 1])
    ensures (exists i :: 0 <= i < |s| && !IsWhitespace(s[i])) ==> !IsBlank(s)
  {
    All(s, IsWhitespace)
  }

  /**
   * The forward scan of `trim`: the first index at or after `lo` whose character does not
   * match `drop`, or `|s|` when every remaining character matches.
   */
  function TrimStartIndex(s: string, drop: char -> bool, lo: nat): (i: nat)
    requires lo <= |s|
    ensures lo <= i <= |s|
    ensures forall k :: lo <= k < i ==> drop(s[k])
    ensures i < |s| ==> !drop(s[i])
    decreases |s| - lo
  {
    if lo == |s| || !drop(s[lo]) then lo else TrimStartIndex(s, drop, lo + 1)
  }

  /**
   * The backward scan of `trim`, from `hi` down to `lo`: one past the last index whose
   * character does not match `drop`, or `lo` when every character in between matches.
   */
  function TrimEndIndex(s: string, drop: char -> bool, lo: nat, hi: nat): (j: nat)
    requires lo <= hi <= |s|
    ensures lo <= j <= hi
    ensures forall k :: j <= k < hi ==> drop(s[k])
    ensures j > lo ==> !drop(s[j - 1])
    decreases hi
  {
    if hi == lo || !drop(s[hi - 1]) then hi else TrimEndIndex(s, drop, lo, hi - 1)
  }

  /**
   * `CharSequence.trim(predicate)`: the slice from the first non-matching character to the
   * last one, found by a forward scan and then a backward scan that stops at the first.
   */
  function TrimBy(s: string, drop: char -> bool): (r: string)
    ensures |r| <= |s|
    ensures r != [] ==> !drop(r[0]) && !drop(r[|r| - 1])
    ensures r == [] <==> All(s, drop)
  {
    var i := TrimStartIndex(s, drop, 0);
    var j := TrimEndIndex(s, drop, i, |s|);
    assert i < |s| ==> j > i;
    s[i..j]
  }

  /**
   * The trimmed text is one contiguous slice of the input, and every character the
   * slice leaves out, on either side, matches `drop`.
   */
  lemma TrimByIsMaximalSlice(s: string, drop: char -> bool)
    ensures var i := TrimStartIndex(s, drop, 0);
            var j := TrimEndIndex(s, drop, i, |s|);
              && i <= j <= |s| && TrimBy(s, drop) == s[i..j]
              && (forall k :: 0 <= k < i ==> drop(s[k]))
              && (forall k :: j <= k < |s| ==> drop(s[k]))
  {
  }

  /** Trimming twice is trimming once. */
  lemma TrimByIdempotent(s: string, drop: char -> bool)
    ensures TrimBy(TrimBy(s, drop), drop) == TrimBy(s, drop)
  {
    var r := TrimBy(s, drop);
    assert TrimStartIndex(r, drop, 0) == 0;
    assert TrimEndIndex(r, drop, 0, |r|) == |r|;
  }

  /** `String.trim()`, which is `trim(Char::isWhitespace)`. */
  function Trim(s: string): (r: string)
    ensures |r| <= |s|
    ensures r != [] ==> !IsWhitespace(r[0]) && !IsWhitespace(r[|r| - 1])
    ensures r == [] <==> IsBlank(s)
  {
    TrimBy(s, IsWhitespace)
  }
}
