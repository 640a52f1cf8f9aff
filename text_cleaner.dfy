/**
 * The text normaliser `clean_text` of src/text_cleaner.py: a fixed chain of
 * regular-expression substitutions followed by `strip()`.
 *
 * Every substitution is modelled as `Sub(p, s)`: Python's left-to-right scan that
 * replaces each non-overlapping match of pattern `p` by `Replacement(p)`.
 * `MatchLen(p, s)` is the length of the match the regex engine finds when it tries
 * `p` at the first character of `s` (0 when that attempt fails). None of the eight
 * patterns can match the empty string, so a failed attempt keeps one character and
 * the scan moves on by one, exactly as `re.sub` does. The backtracking of each
 * pattern has been worked out by hand. On lines 18 to 23 and 25 every greedy
 * quantifier keeps its longest choice, because there the longest choice never
 * makes the rest fail when a shorter one would succeed. Line 24, `\n\s*\n`, is
 * the exception: the whitespace run can swallow the closing line break, and the
 * engine gives characters back until a line break follows (`BlankLineLen`).
 */
module TextCleaner {

  // ---------------------------------------------------------------------------
  // Character classes
  // ---------------------------------------------------------------------------

  /** The whitespace class of a `str` pattern, which is also what `str.strip()`
      removes: exactly the code points for which Python's `str.isspace()` holds. */
  predicate IsSpace(c: char) {
    var n := c as int;
    || 0x09 <= n <= 0x0D
    || 0x1C <= n <= 0x20
    || n == 0x85
    || n == 0xA0
    || n == 0x1680
    || 0x2000 <= n <= 0x200A
    || n == 0x2028
    || n == 0x2029
    || n == 0x202F
    || n == 0x205F
    || n == 0x3000
  }

  /** The digit class, restricted to the ten ASCII digits. */
  predicate IsDigit(c: char) {
    '0' <= c <= '9'
  }

  /** Code points 0 to 127. */
  predicate IsAscii(c: char) {
    (c as int) < 0x80
  }

  /** The 29 characters whose doubled runs the fifth substitution deletes. */
  predicate IsSpecial(c: char) {
    c in "@#-*)(=+|\\/&%$^!~`{}[]:;\"',.?"
  }

  /** ASCII lower-casing: all that case-insensitive matching needs for the letters
      of "page" and "of". */
  function Lower(c: char): (l: char) {
    if 'A' <= c <= 'Z' then (c as int + 32) as char else c
  }

  const CopyrightSign: char := '\U{A9}'

  /** The character classes the patterns repeat. */
  datatype CharClass =
    | Space
    | Digit
    | NonSpace
    | NonNewline
    | NonCloseAngle
    | Exactly(c: char)
    | NonAscii

  predicate InClass(c: char, k: CharClass) {
    match k
    case Space => IsSpace(c)
    case Digit => IsDigit(c)
    case NonSpace => !IsSpace(c)
    case NonNewline => c != '\n'
    case NonCloseAngle => c != '>'
    case Exactly(d) => c == d
    case NonAscii => !IsAscii(c)
  }

  /** Every character of `s` from index `i` up to (not including) `j` is in class `k`. */
  predicate AllInRange(s: string, i: nat, j: nat, k: CharClass) {
    i <= j <= |s| && forall m :: i <= m < j ==> InClass(s[m], k)
  }

  /** `s[i..j]` is a maximal run of class `k`: what a greedy repetition starting at
      `i` takes. */
  predicate RunAt(s: string, i: nat, j: nat, k: CharClass) {
    AllInRange(s, i, j, k) && (j == |s| || !InClass(s[j], k))
  }

  /** End of the greedy repetition of class `k` that starts at index `i` of `s`. */
  function SpanFrom(s: string, i: nat, k: CharClass): (j: nat)
    requires i <= |s|
    ensures i <= j <= |s|
    ensures j < |s| ==> !InClass(s[j], k)
    decreases |s| - i
  {
    if i == |s| || !InClass(s[i], k) then i else SpanFrom(s, i + 1, k)
  }

  /** `s` has `lower` (written in lower case) at index `i`, ignoring ASCII case. */
  predicate LowerAt(s: string, i: nat, lower: string) {
    i + |lower| <= |s| && forall m :: i <= m < i + |lower| ==> Lower(s[m]) == lower[m - i]
  }

  /** `s` has `lit` at index `i`. */
  predicate LitAt(s: string, i: nat, lit: string) {
    i + |lit| <= |s| && forall m :: i <= m < i + |lit| ==> s[m] == lit[m - i]
  }

  // ---------------------------------------------------------------------------
  // The eight patterns and their matchers
  // ---------------------------------------------------------------------------

  /** The patterns of src/text_cleaner.py lines 18 to 25, in the order applied. */
  datatype Pattern =
    | PageMarker       // "Page", spaces, digits, spaces, optional "of", spaces, digits (any case)
    | Copyright        // the copyright sign, spaces, a four-digit year, spaces, rest of the line
    | Url              // "www." or "http://" or "https://", then a run of non-space characters
    | HtmlTag          // '<', at least one character other than '>', '>'
    | RepeatedSpecial  // a special character followed by one or more copies of itself
    | WhitespaceRun    // a run of whitespace
    | BlankLine        // a line break, whitespace, a line break
    | NonAsciiRun      // a run of characters outside ASCII

  function Replacement(p: Pattern): (r: string) {
    match p
    case WhitespaceRun => " "
    case BlankLine => "\n\n"
    case _ => ""
  }

  /** The characters a match of `p` can begin with. */
  predicate CanStart(p: Pattern, c: char) {
    match p
    case PageMarker => Lower(c) == 'p'
    case Copyright => c == CopyrightSign
    case Url => c == 'w' || c == 'h'
    case HtmlTag => c == '<'
    case RepeatedSpecial => IsSpecial(c)
    case WhitespaceRun => IsSpace(c)
    case BlankLine => c == '\n'
    case NonAsciiRun => !IsAscii(c)
  }

  /** Line 18: "page" in any case, whitespace, at least one digit (otherwise no
      match), whitespace, "of" in any case if it is there, whitespace, and the
      digits that follow, if any. */
  function PageMarkerLen(s: string): (n: nat)
    ensures n <= |s|
    ensures n > 0 ==> LowerAt(s, 0, "page")
  {
    if !LowerAt(s, 0, "page") then 0
    else
      var number := SpanFrom(s, 4, Space);
      var numberEnd := SpanFrom(s, number, Digit);
      if numberEnd == number then 0
      else
        var of := SpanFrom(s, numberEnd, Space);
        var ofEnd := if LowerAt(s, of, "of") then of + 2 else of;
        var total := SpanFrom(s, ofEnd, Space);
        SpanFrom(s, total, Digit)
  }

  /** Line 19: the copyright sign, whitespace, four digits (otherwise no match),
      whitespace (line breaks included), and the rest of the line the whitespace
      ends on. */
  function CopyrightLen(s: string): (n: nat)
    ensures n <= |s|
    ensures n > 0 ==> s[0] == CopyrightSign
  {
    if s == [] || s[0] != CopyrightSign then 0
    else
      var year := SpanFrom(s, 1, Space);
      if !AllInRange(s, year, year + 4, Digit) then 0
      else
        var line := SpanFrom(s, year + 4, Space);
        SpanFrom(s, line, NonNewline)
  }

  /** Line 20: the scheme, then a run of non-space characters; a scheme with
      nothing but whitespace (or nothing) after it does not match. */
  function UrlLen(s: string): (n: nat)
    ensures n <= |s|
    ensures n > 0 ==> s[0] == 'w' || s[0] == 'h'
  {
    var scheme :=
      if LitAt(s, 0, "www.") then 4
      else if LitAt(s, 0, "https://") then 8
      else if LitAt(s, 0, "http://") then 7
      else 0;
    if scheme == 0 then 0
    else
      var token := SpanFrom(s, scheme, NonSpace);
      if token == scheme then 0 else token
  }

  /** Line 21: '<', then everything up to the first '>', which must exist and must
      not come straight after the '<'. */
  function HtmlTagLen(s: string): (n: nat)
    ensures n <= |s|
    ensures n > 0 ==> n >= 3 && s[0] == '<' && s[n - 1] == '>'
  {
    if s == [] || s[0] != '<' then 0
    else
      var close := SpanFrom(s, 1, NonCloseAngle);
      if close == 1 || close == |s| then 0 else close + 1
  }

  /** Line 22: a special character and the whole run of its copies after it; no
      match without at least one copy. */
  function RepeatedSpecialLen(s: string): (n: nat)
    ensures n <= |s|
    ensures n > 0 ==> n >= 2 && IsSpecial(s[0]) && (n == |s| || s[n] != s[0])
  {
    if s == [] || !IsSpecial(s[0]) then 0
    else
      var copies := SpanFrom(s, 1, Exactly(s[0]));
      if copies == 1 then 0 else copies
  }

  /** Index of the last line break of `s` at or after `lo` and before `hi`, or -1. */
  function LastNewline(s: string, lo: nat, hi: nat): (j: int)
    requires lo <= hi <= |s|
    ensures j == -1 || (lo <= j < hi && s[j] == '\n')
    ensures forall m :: j < m < hi && lo <= m ==> s[m] != '\n'
    decreases hi
  {
    if hi == lo then -1
    else if s[hi - 1] == '\n' then hi - 1
    else LastNewline(s, lo, hi - 1)
  }

  /** Line 24: the whitespace run after the first line break is taken whole and then
      given back until a line break follows it, so the match ends with the last
      line break of that run. */
  function BlankLineLen(s: string): (n: nat)
    ensures n <= |s|
    ensures n == 0 || n >= 2
    ensures n > 0 ==> s[0] == '\n' && s[n - 1] == '\n'
  {
    if s == [] || s[0] != '\n' then 0
    else
      var last := LastNewline(s, 1, SpanFrom(s, 1, Space));
      if last < 0 then 0 else last + 1
  }

  /** Length of the match of `p` attempted at the first character of `s`; 0 if none. */
  function MatchLen(p: Pattern, s: string): (n: nat)
    ensures n <= |s|
    ensures n > 0 ==> n >= |Replacement(p)| && CanStart(p, s[0])
  {
    match p
    case PageMarker => PageMarkerLen(s)
    case Copyright => CopyrightLen(s)
    case Url => UrlLen(s)
    case HtmlTag => HtmlTagLen(s)
    case RepeatedSpecial => RepeatedSpecialLen(s)
    case WhitespaceRun => SpanFrom(s, 0, Space)
    case BlankLine => BlankLineLen(s)
    case NonAsciiRun => SpanFrom(s, 0, NonAscii)
  }

  /** `re.sub(p, Replacement(p), s)`. */
  function Sub(p: Pattern, s: string): (r: string)
    ensures |r| <= |s|
    decreases |s|
  {
    if s == [] then []
    else
      var n := MatchLen(p, s);
      if n > 0 then Replacement(p) + Sub(p, s[n..])
      else [s[0]] + Sub(p, s[1..])
  }

  /** `str.strip()`. */
  function Strip(s: string): (r: string)
    ensures |r| <= |s|
    ensures r == [] || (!IsSpace(r[0]) && !IsSpace(r[|r| - 1]))
    ensures forall c :: c in r ==> c in s
  {
    var t := s[SpanFrom(s, 0, Space)..];
    t[..|t| - TrailingSpaceLen(t)]
  }

  /** Length of the longest suffix of `s` made of whitespace. */
  function TrailingSpaceLen(s: string): (n: nat)
    ensures n <= |s|
    ensures forall i :: |s| - n <= i < |s| ==> IsSpace(s[i])
    ensures n < |s| ==> !IsSpace(s[|s| - 1 - n])
  {
    if s == [] || !IsSpace(s[|s| - 1]) then 0 else 1 + TrailingSpaceLen(s[..|s| - 1])
  }

  // ---------------------------------------------------------------------------
  // clean_text
  // ---------------------------------------------------------------------------

  /** Lines 18 to 22: page markers, copyright lines, URLs, tags and doubled special
      characters, each removed by its own pass. */
  function RemoveBoilerplate(text: string): (r: string)
    ensures |r| <= |text|
  {
    Sub(RepeatedSpecial, Sub(HtmlTag, Sub(Url, Sub(Copyright, Sub(PageMarker, text)))))
  }

  /** Lines 18 to 26, applied to text that is already NFKC-normalised. */
  function CleanNormalized(text: string): (r: string)
    ensures |r| <= |text|
    ensures r == [] || (!IsSpace(r[0]) && !IsSpace(r[|r| - 1]))
  {
    Strip(Sub(NonAsciiRun, Sub(BlankLine, Sub(WhitespaceRun, RemoveBoilerplate(text)))))
  }

  /** `clean_text`; `nfkc` stands for the library normalisation of line 17. */
  function CleanText(nfkc: string -> string, text: string): (r: string)
    ensures |r| <= |nfkc(text)|
    ensures r == [] || (!IsSpace(r[0]) && !IsSpace(r[|r| - 1]))
  {
    CleanNormalized(nfkc(text))
  }
}
