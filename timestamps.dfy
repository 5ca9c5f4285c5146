/**
 * The line-cleaning utility: every line of a transcript loses a leading
 * `minutes:seconds` timestamp and the whitespace after it, as done by
 * `re.sub(r'^\d+:\d+\s*', '', line)` on each line read with `readlines()`.
 *
 * The pattern is a Python 3 `str` pattern without flags, so `^` anchors at the
 * start of the line only, `\d` is any Unicode decimal digit and `\s` any
 * character for which `str.isspace()` holds. `\d+` cannot match `:`, so the
 * greedy quantifiers never backtrack: the removed prefix is a maximal digit
 * run, `:`, a maximal digit run and a maximal whitespace run.
 */
module Timestamps {

  /** Unicode decimal digits (general category Nd) of the Basic Multilingual Plane. */
  predicate IsDigit(c: char) {
    ('0' <= c <= '9') ||
    ('٠' <= c <= '٩') ||   // Arabic-Indic
    ('۰' <= c <= '۹') ||   // Extended Arabic-Indic
    ('߀' <= c <= '߉') ||
    ('०' <= c <= '९') || ('০' <= c <= '৯') ||
    ('੦' <= c <= '੯') || ('૦' <= c <= '૯') ||
    ('୦' <= c <= '୯') || ('௦' <= c <= '௯') ||
    ('౦' <= c <= '౯') || ('೦' <= c <= '೯') ||
    ('൦' <= c <= '൯') || ('෦' <= c <= '෯') ||
    ('๐' <= c <= '๙') || ('໐' <= c <= '໙') ||
    ('༠' <= c <= '༩') || ('၀' <= c <= '၉') ||
    ('႐' <= c <= '႙') || ('០' <= c <= '៩') ||
    ('᠐' <= c <= '᠙') || ('᥆' <= c <= '᥏') ||
    ('᧐' <= c <= '᧙') || ('᪀' <= c <= '᪉') ||
    ('᪐' <= c <= '᪙') || ('᭐' <= c <= '᭙') ||
    ('᮰' <= c <= '᮹') || ('᱀' <= c <= '᱉') ||
    ('᱐' <= c <= '᱙') || ('꘠' <= c <= '꘩') ||
    ('꣐' <= c <= '꣙') || ('꤀' <= c <= '꤉') ||
    ('꧐' <= c <= '꧙') || ('꧰' <= c <= '꧹') ||
    ('꩐' <= c <= '꩙') || ('꯰' <= c <= '꯹') ||
    ('０' <= c <= '９')      // fullwidth
  }

  /** The characters for which Python's `str.isspace()` holds. */
  predicate IsSpace(c: char) {
    ('\t' <= c <= '\r') ||                  // tab, newline, vertical tab, form feed, return
    ('\U{1C}' <= c <= '\U{1F}') ||          // file, group, record and unit separators
    c == ' ' || c == '\U{85}' || c == '\U{A0}' || c == '\U{1680}' ||
    ('\U{2000}' <= c <= '\U{200A}') ||
    c == '\U{2028}' || c == '\U{2029}' || c == '\U{202F}' || c == '\U{205F}' || c == '\U{3000}'
  }

  /** The end of the maximal run of characters satisfying `p` that starts at `i`. */
  function RunEnd(s: string, i: nat, p: char -> bool): (e: nat)
    requires i <= |s|
    ensures i <= e <= |s|
    ensures forall k :: i <= k < e ==> p(s[k])
    ensures e == |s| || !p(s[e])
    decreases |s| - i
  {
    if i == |s| || !p(s[i]) then i else RunEnd(s, i + 1, p)
  }

  /**
   * Length of the prefix `\d+:\d+\s*` at the start of `line`, or 0 when
   * there is none; a match holds at least a digit, `:` and a digit.
   * `RemovedPrefixShape` and `UnchangedIffNoTimestamp` state its shape.
   */
  function TimestampPrefixLength(line: string): (n: nat)
    ensures n <= |line|
    ensures n == 0 || 3 <= n
  {
    var d1 := RunEnd(line, 0, IsDigit);
    if d1 == 0 || d1 == |line| || line[d1] != ':' then 0
    else
      var d2 := RunEnd(line, d1 + 1, IsDigit);
      if d2 == d1 + 1 then 0
      else RunEnd(line, d2, IsSpace)
  }

  /** One line after `re.sub(r'^\d+:\d+\s*', '', line)`. */
  function StripTimestamp(line: string): (r: string)
    ensures |r| <= |line| && r == line[|line| - |r|..]
  {
    var n := TimestampPrefixLength(line);
    assert n <= |line|;
    line[n..]
  }

  /** `s[i..j]` is non-empty and made of digits. */
  ghost predicate DigitsBetween(s: string, i: nat, j: nat)
    requires i <= j <= |s|
  {
    i < j && forall k :: i <= k < j ==> IsDigit(s[k])
  }

  /** `line[..c]` is digits, `line[c]` is `:` and `line[c+1..e]` is digits, none of them empty. */
  ghost predicate TimestampAt(line: string, c: nat, e: nat) {
    0 < c < e <= |line| && DigitsBetween(line, 0, c) && line[c] == ':' && DigitsBetween(line, c + 1, e)
  }

  /** `line` starts with one or more digits, a colon and one or more digits. */
  ghost predicate HasTimestamp(line: string) {
    exists c: nat, e: nat :: TimestampAt(line, c, e)
  }

  /**
   * The removed prefix `line[..k]` is digits, `:`, a maximal run of digits,
   * then whitespace only.
   */
  ghost predicate TimestampShape(line: string, k: nat)
    requires k <= |line|
  {
    exists c: nat, e: nat :: TimestampAt(line, c, e) && e <= k && (e == |line| || !IsDigit(line[e])) &&
      forall m :: e <= m < k ==> IsSpace(line[m])
  }

  /** A line without a timestamp prefix is left as it is, and only such a line. */
  lemma UnchangedIffNoTimestamp(line: string)
    ensures StripTimestamp(line) == line <==> !HasTimestamp(line)
  {
    var d1 := RunEnd(line, 0, IsDigit);
    if HasTimestamp(line) {
      var c, e :| TimestampAt(line, c, e);
      assert !IsDigit(':');
      assert d1 == c;
      var d2 := RunEnd(line, d1 + 1, IsDigit);
      assert d2 > d1 + 1 by { assert IsDigit(line[d1 + 1]); }
      assert TimestampPrefixLength(line) > 0;
      assert |StripTimestamp(line)| < |line|;
    } else if TimestampPrefixLength(line) != 0 {
      var d2 := RunEnd(line, d1 + 1, IsDigit);
      assert TimestampAt(line, d1, d2);
    }
  }

  /**
   * When something is removed, it is digits, `:`, digits and all the
   * whitespace after them: what remains does not start with whitespace.
   */
  lemma RemovedPrefixShape(line: string)
    requires StripTimestamp(line) != line
    ensures var k := |line| - |StripTimestamp(line)|;
            TimestampShape(line, k) && (k == |line| || !IsSpace(line[k]))
  {
    var d1 := RunEnd(line, 0, IsDigit);
    var d2 := RunEnd(line, d1 + 1, IsDigit);
    assert TimestampAt(line, d1, d2);
  }

  /** With the second digit run maximal, `12:345 abc` loses all of `12:345 `. */
  lemma SecondRunIsMaximal()
    ensures StripTimestamp("12:345 abc") == "abc"
  {
    var s := "12:345 abc";
    assert RunEnd(s, 0, IsDigit) == 2;
    assert RunEnd(s, 3, IsDigit) == 6;
    assert RunEnd(s, 6, IsSpace) == 7;
  }

  /** A line holding only a timestamp and its newline becomes empty. */
  lemma TimestampOnlyLine()
    ensures StripTimestamp("12:34\n") == ""
  {
    assert RunEnd("12:34\n", 0, IsDigit) == 2;
    assert RunEnd("12:34\n", 3, IsDigit) == 5;
  }

  /** Arabic-Indic digits count as digits. */
  lemma ArabicIndicTimestamp()
    ensures StripTimestamp("١٢:٣٤ نص") == "نص"
  {
    var s := "١٢:٣٤ نص";
    assert RunEnd(s, 0, IsDigit) == 2;
    assert RunEnd(s, 3, IsDigit) == 5;
    assert RunEnd(s, 5, IsSpace) == 6;
  }

  /** The loop over the file's lines: one cleaned line per line, in order. */
  method CleanLines(lines: seq<string>) returns (cleaned: seq<string>)
    ensures |cleaned| == |lines|
    ensures forall i :: 0 <= i < |lines| ==> cleaned[i] == StripTimestamp(lines[i])
  {
    cleaned := [];
    for i := 0 to |lines|
      invariant |cleaned| == i
      invariant forall k :: 0 <= k < i ==> cleaned[k] == StripTimestamp(lines[k])
    {
      var cleanedLine := StripTimestamp(lines[i]);
      cleaned := cleaned + [cleanedLine];
    }
  }
}
