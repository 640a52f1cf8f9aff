/**
 * What `clean_text` (src/text_cleaner.py) guarantees, proved about the model in
 * module TextCleaner: the deleting passes keep a subsequence of their input, each
 * pattern removes what it is written to remove, and the final text is ASCII,
 * free of line breaks and stripped at both ends.
 */
module TextCleanerProperties {
  import opened TextCleaner

  // ---------------------------------------------------------------------------
  // Subsequences
  // ---------------------------------------------------------------------------

  /** `a` can be obtained from `b` by deleting characters. */
  predicate IsSubsequence(a: string, b: string)
    decreases |b|
  {
    a == [] || (b != [] && ((a[0] == b[0] && IsSubsequence(a[1..], b[1..])) || IsSubsequence(a, b[1..])))
  }

  lemma {:induction false} SubsequenceOfSuffix(a: string, b: string, k: nat)
    requires k <= |b| && IsSubsequence(a, b[k..])
    ensures IsSubsequence(a, b)
    decreases k
  {
    if k > 0 {
      assert b[1..][k - 1..] == b[k..];
      SubsequenceOfSuffix(a, b[1..], k - 1);
    } else {
      assert b[k..] == b;
    }
  }

  lemma {:induction false} SubsequenceTransitive(a: string, b: string, c: string)
    requires IsSubsequence(a, b) && IsSubsequence(b, c)
    ensures IsSubsequence(a, c)
    decreases |a| + |b| + |c|
  {
    if a != [] {
      if IsSubsequence(b, c[1..]) {
        SubsequenceTransitive(a, b, c[1..]);
      } else if IsSubsequence(a, b[1..]) {
        SubsequenceTransitive(a, b[1..], c[1..]);
        assert IsSubsequence(a, c[1..]);
      } else {
        SubsequenceTransitive(a[1..], b[1..], c[1..]);
      }
    }
  }

  /** A subsequence uses no character its source lacks. */
  lemma {:induction false} SubsequenceChars(a: string, b: string)
    requires IsSubsequence(a, b)
    ensures forall c :: c in a ==> c in b
    decreases |b|
  {
    if a != [] {
      if IsSubsequence(a, b[1..]) {
        SubsequenceChars(a, b[1..]);
      } else {
        SubsequenceChars(a[1..], b[1..]);
        assert a == [a[0]] + a[1..];
      }
    }
  }

  // ---------------------------------------------------------------------------
  // The scan
  // ---------------------------------------------------------------------------

  /** The passes whose replacement is empty (lines 18 to 22 and 25) only delete. */
  lemma {:induction false} SubDeletes(p: Pattern, s: string)
    requires Replacement(p) == ""
    ensures IsSubsequence(Sub(p, s), s)
    decreases |s|
  {
    if s != [] {
      var n := MatchLen(p, s);
      if n > 0 {
        SubDeletes(p, s[n..]);
        assert Sub(p, s) == Sub(p, s[n..]);
        SubsequenceOfSuffix(Sub(p, s), s, n);
      } else {
        SubDeletes(p, s[1..]);
        assert ([s[0]] + Sub(p, s[1..]))[1..] == Sub(p, s[1..]);
      }
    }
  }

  /** A pass leaves alone a text in which no character can begin a match. */
  lemma {:induction false} SubUntouched(p: Pattern, s: string)
    requires forall c :: c in s ==> !CanStart(p, c)
    ensures Sub(p, s) == s
    decreases |s|
  {
    if s != [] {
      assert s[0] in s;
      assert forall c :: c in s[1..] ==> c in s;
      SubUntouched(p, s[1..]);
      assert s == [s[0]] + s[1..];
    }
  }

  // ---------------------------------------------------------------------------
  // Greedy repetitions
  // ---------------------------------------------------------------------------

  /** Every character a greedy repetition takes is in its class. */
  lemma {:induction false} SpanFromAll(s: string, i: nat, k: CharClass)
    requires i <= |s|
    ensures RunAt(s, i, SpanFrom(s, i, k), k)
    decreases |s| - i
  {
    if i < |s| && InClass(s[i], k) {
      SpanFromAll(s, i + 1, k);
    }
  }

  /** A maximal run is exactly what the greedy repetition takes. */
  lemma {:induction false} SpanFromRun(s: string, i: nat, j: nat, k: CharClass)
    requires RunAt(s, i, j, k)
    ensures SpanFrom(s, i, k) == j
    decreases j - i
  {
    if i < j {
      SpanFromRun(s, i + 1, j, k);
    }
  }

  /** Both directions together: the greedy repetition from `i` ends at `j` exactly
      when `s[i..j]` is a maximal run of the class. */
  lemma {:induction false} SpanFromIsRun(s: string, i: nat, j: nat, k: CharClass)
    requires i <= |s|
    ensures SpanFrom(s, i, k) == j <==> RunAt(s, i, j, k)
  {
    SpanFromAll(s, i, k);
    if RunAt(s, i, j, k) {
      SpanFromRun(s, i, j, k);
    }
  }

  // ---------------------------------------------------------------------------
  // Line 18: page markers
  // ---------------------------------------------------------------------------

  /** A page marker is removed together with the whitespace between its parts, an
      "of" in any case, and the digits after it: given the maximal runs that make it
      up, the match ends after the last of them and the pass resumes there. */
  lemma {:induction false} PageMarkerRemoved(s: string, number: nat, numberEnd: nat, of: nat, ofEnd: nat,
                                             total: nat, n: nat)
    requires LowerAt(s, 0, "page")
    requires RunAt(s, 4, number, Space)
    requires RunAt(s, number, numberEnd, Digit) && number < numberEnd
    requires RunAt(s, numberEnd, of, Space)
    requires ofEnd == if LowerAt(s, of, "of") then of + 2 else of
    requires RunAt(s, ofEnd, total, Space)
    requires RunAt(s, total, n, Digit)
    ensures MatchLen(PageMarker, s) == n
    ensures Sub(PageMarker, s) == Sub(PageMarker, s[n..])
  {
    SpanFromRun(s, 4, number, Space);
    SpanFromRun(s, number, numberEnd, Digit);
    SpanFromRun(s, numberEnd, of, Space);
    SpanFromRun(s, ofEnd, total, Space);
    SpanFromRun(s, total, n, Digit);
  }

  /** "Page" begins a match exactly when, after its whitespace, a digit follows. */
  lemma {:induction false} PageMarkerNeedsNumber(s: string, number: nat)
    requires LowerAt(s, 0, "page") && RunAt(s, 4, number, Space)
    ensures MatchLen(PageMarker, s) > 0 <==> number < |s| && IsDigit(s[number])
  {
    SpanFromRun(s, 4, number, Space);
  }

  /** "Page 3 of 10" is matched up to its last digit. */
  lemma PageMarkerExampleMatch(s: string)
    requires s == "Page 3 of 10 Intro"
    ensures MatchLen(PageMarker, s) == 12 && s[12..] == " Intro"
  {
    assert LowerAt(s, 7, "of");
    PageMarkerRemoved(s, 5, 6, 7, 9, 10, 12);
  }

  /** "Page 3 of 10" at the head of a text is removed; the space after it stays. */
  lemma PageMarkerExample(s: string)
    requires s == "Page 3 of 10 Intro"
    ensures Sub(PageMarker, s) == " Intro"
  {
    PageMarkerExampleMatch(s);
    SubUntouched(PageMarker, " Intro");
    assert Sub(PageMarker, s) == Sub(PageMarker, s[12..]);
  }

  // ---------------------------------------------------------------------------
  // Line 19: copyright lines
  // ---------------------------------------------------------------------------

  /** The sign, its whitespace, a four-digit year, the whitespace after it and the
      rest of the line that whitespace ends on are removed; what is left starts
      with a line break or is empty. */
  lemma {:induction false} CopyrightRemoved(s: string, year: nat, line: nat, n: nat)
    requires s != [] && s[0] == CopyrightSign
    requires RunAt(s, 1, year, Space) && AllInRange(s, year, year + 4, Digit)
    requires RunAt(s, year + 4, line, Space)
    requires RunAt(s, line, n, NonNewline)
    ensures MatchLen(Copyright, s) == n
    ensures n == |s| || s[n] == '\n'
    ensures Sub(Copyright, s) == Sub(Copyright, s[n..])
  {
    SpanFromRun(s, 1, year, Space);
    SpanFromRun(s, year + 4, line, Space);
    SpanFromRun(s, line, n, NonNewline);
  }

  /** Without four digits after the sign and its whitespace there is no match. */
  lemma {:induction false} CopyrightNeedsYear(s: string, year: nat)
    requires s != [] && s[0] == CopyrightSign && RunAt(s, 1, year, Space)
    ensures MatchLen(Copyright, s) > 0 <==> AllInRange(s, year, year + 4, Digit)
  {
    SpanFromRun(s, 1, year, Space);
  }

  /** The whitespace after the year runs across line breaks: a year that ends its
      line takes the whole next line with it. */
  lemma CopyrightExampleMatch(s: string)
    requires s == "\U{A9}2023\nNext\nKeep"
    ensures MatchLen(Copyright, s) == 10 && s[10..] == "\nKeep"
  {
    CopyrightRemoved(s, 1, 6, 10);
  }

  lemma CopyrightExample(s: string)
    requires s == "\U{A9}2023\nNext\nKeep"
    ensures Sub(Copyright, s) == "\nKeep"
  {
    CopyrightExampleMatch(s);
    SubUntouched(Copyright, "\nKeep");
    assert Sub(Copyright, s) == Sub(Copyright, s[10..]);
  }

  // ---------------------------------------------------------------------------
  // Line 20: URLs
  // ---------------------------------------------------------------------------

  /** The three schemes the pattern accepts. */
  predicate IsScheme(scheme: string) {
    scheme == "www." || scheme == "http://" || scheme == "https://"
  }

  /** A URL is removed from its scheme up to the next whitespace. */
  lemma {:induction false} UrlRemoved(s: string, scheme: string, n: nat)
    requires IsScheme(scheme) && LitAt(s, 0, scheme)
    requires RunAt(s, |scheme|, n, NonSpace) && |scheme| < n
    ensures MatchLen(Url, s) == n
    ensures n == |s| || IsSpace(s[n])
    ensures Sub(Url, s) == Sub(Url, s[n..])
  {
    if scheme == "http://" {
      assert !LitAt(s, 0, "www.") by { assert s[0] == 'h'; }
      assert !LitAt(s, 0, "https://") by { assert s[4] == ':'; }
    } else if scheme == "https://" {
      assert !LitAt(s, 0, "www.") by { assert s[0] == 'h'; }
    }
    SpanFromRun(s, |scheme|, n, NonSpace);
  }

  /** A scheme followed by whitespace or by nothing is kept. */
  lemma {:induction false} BareSchemeKept(s: string, scheme: string)
    requires IsScheme(scheme) && LitAt(s, 0, scheme)
    requires |s| == |scheme| || IsSpace(s[|scheme|])
    ensures MatchLen(Url, s) == 0
  {
    if scheme == "http://" {
      assert !LitAt(s, 0, "www.") by { assert s[0] == 'h'; }
      assert !LitAt(s, 0, "https://") by { assert s[4] == ':'; }
    } else if scheme == "https://" {
      assert !LitAt(s, 0, "www.") by { assert s[0] == 'h'; }
    }
  }

  // ---------------------------------------------------------------------------
  // Line 21: tags
  // ---------------------------------------------------------------------------

  /** A tag with a non-empty body free of '>' is removed through its '>'. */
  lemma {:induction false} HtmlTagRemoved(s: string, close: nat)
    requires s != [] && s[0] == '<'
    requires 1 < close < |s| && s[close] == '>'
    requires forall m :: 1 <= m < close ==> s[m] != '>'
    ensures MatchLen(HtmlTag, s) == close + 1
    ensures Sub(HtmlTag, s) == Sub(HtmlTag, s[close + 1..])
  {
    SpanFromRun(s, 1, close, NonCloseAngle);
  }

  /** A '<' starts a match exactly when a '>' follows it later on and not at once. */
  lemma {:induction false} HtmlTagMatches(s: string)
    requires s != [] && s[0] == '<'
    ensures MatchLen(HtmlTag, s) > 0 <==> |s| > 1 && s[1] != '>' && exists j :: 1 < j < |s| && s[j] == '>'
  {
    var close := SpanFrom(s, 1, NonCloseAngle);
    SpanFromAll(s, 1, NonCloseAngle);
    if |s| > 1 && s[1] != '>' && exists j :: 1 < j < |s| && s[j] == '>' {
      var j :| 1 < j < |s| && s[j] == '>';
      assert close <= j;
    }
  }

  /** `r[i..j + 1]` is a tag: '<', at least one character other than '>', '>'. */
  predicate TagAt(r: string, i: nat, j: nat) {
    i + 1 < j < |r| && r[i] == '<' && r[j] == '>' && forall m :: i < m < j ==> r[m] != '>'
  }

  predicate HasTag(r: string) {
    exists i: nat, j: nat | i < j < |r| :: TagAt(r, i, j)
  }

  /** A tag that does not start at the head of `[c] + rest` lies in `rest`. */
  lemma ShiftTag(c: char, rest: string, i: nat, j: nat)
    requires i > 0 && TagAt([c] + rest, i, j)
    ensures TagAt(rest, i - 1, j - 1)
  {
    forall m | i - 1 < m < j - 1
      ensures rest[m] != '>'
    {
      assert ([c] + rest)[m + 1] == rest[m];
    }
  }

  /** When a '<' at the head does not start a match, the pass's output has no tag
      starting there either. */
  lemma HeadTagKept(s: string, j: nat)
    requires s != [] && s[0] == '<' && MatchLen(HtmlTag, s) == 0
    ensures !TagAt([s[0]] + Sub(HtmlTag, s[1..]), 0, j)
  {
    var rest := Sub(HtmlTag, s[1..]);
    HtmlTagMatches(s);
    SubDeletes(HtmlTag, s[1..]);
    SubsequenceChars(rest, s[1..]);
    if |s| > 1 && s[1] == '>' {
      assert rest == [s[1]] + Sub(HtmlTag, s[1..][1..]);
      assert ([s[0]] + rest)[1] == '>';
    } else if |s| > 1 {
      forall k | 0 <= k < |rest|
        ensures rest[k] != '>'
      {
        assert rest[k] in rest;
      }
    }
  }

  /** After the line-21 pass the text contains no tag at all: the pass does not
      merely remove the tag under the scan but every one. */
  lemma {:induction false} NoTagLeft(s: string)
    ensures !HasTag(Sub(HtmlTag, s))
    decreases |s|
  {
    if s != [] {
      var n := MatchLen(HtmlTag, s);
      if n > 0 {
        NoTagLeft(s[n..]);
        assert Sub(HtmlTag, s) == Sub(HtmlTag, s[n..]);
      } else {
        var rest := Sub(HtmlTag, s[1..]);
        NoTagLeft(s[1..]);
        assert Sub(HtmlTag, s) == [s[0]] + rest;
        if HasTag([s[0]] + rest) {
          var i: nat, j: nat :| i < j < |[s[0]] + rest| && TagAt([s[0]] + rest, i, j);
          if i > 0 {
            ShiftTag(s[0], rest, i, j);
            assert HasTag(rest);
          } else {
            HeadTagKept(s, j);
          }
        }
      }
    }
  }

  // ---------------------------------------------------------------------------
  // Line 22: repeated special characters
  // ---------------------------------------------------------------------------

  /** A maximal run of two or more copies of one special character is removed whole. */
  lemma {:induction false} SpecialRunRemoved(s: string, n: nat)
    requires s != [] && IsSpecial(s[0])
    requires 2 <= n && RunAt(s, 0, n, Exactly(s[0]))
    ensures MatchLen(RepeatedSpecial, s) == n
    ensures Sub(RepeatedSpecial, s) == Sub(RepeatedSpecial, s[n..])
  {
    SpanFromRun(s, 1, n, Exactly(s[0]));
  }

  /** The pass matches at a special character exactly when the next one is a copy:
      a single occurrence is kept. */
  lemma {:induction false} SpecialRunMatches(s: string)
    ensures MatchLen(RepeatedSpecial, s) > 0 <==> |s| >= 2 && IsSpecial(s[0]) && s[1] == s[0]
  {
  }

  /** Deleting a run can bring two equal special characters together, and the pass
      does not go back to them: its result is not free of doubled specials. */
  lemma SpecialRunExampleMatch(s: string)
    requires s == "-.--."
    ensures MatchLen(RepeatedSpecial, s) == 0
    ensures MatchLen(RepeatedSpecial, s[1..]) == 0
    ensures MatchLen(RepeatedSpecial, s[2..]) == 2 && s[2..][2..] == "."
  {
    SpanFromRun(s[2..], 1, 2, Exactly('-'));
  }

  lemma SpecialRunExample(s: string)
    requires s == "-.--."
    ensures Sub(RepeatedSpecial, s) == "-.."
  {
    SpecialRunExampleMatch(s);
    assert s[1..][1..] == s[2..];
    assert Sub(RepeatedSpecial, ".") == ".";
    assert Sub(RepeatedSpecial, s[2..]) == ".";
    assert Sub(RepeatedSpecial, s[1..]) == "." + Sub(RepeatedSpecial, s[2..]);
    assert Sub(RepeatedSpecial, s) == "-" + Sub(RepeatedSpecial, s[1..]);
  }

  /** A dash, a doubled dot and another dash: the dots go and the dashes meet. */
  lemma DotPairDropped(w: string, u: string)
    requires u != [] && u[0] == '-' && w == "-.." + u
    ensures Sub(RepeatedSpecial, w) == "-" + Sub(RepeatedSpecial, u)
  {
    var t := w[1..];
    assert t[..2] == ".." && t[2..] == u;
    SpecialRunRemoved(t, 2);
    SpecialRunMatches(w);
    assert Sub(RepeatedSpecial, w) == [w[0]] + Sub(RepeatedSpecial, t);
  }

  /** `k + 1` dashes with a doubled dot between each two: "-", "-..-", "-..-..-", ... */
  function DashDots(k: nat): (r: string)
    ensures r != [] && r[0] == '-'
    ensures forall i :: 0 <= i < |r| ==> r[i] == '-' || r[i] == '.'
  {
    if k == 0 then "-" else "-.." + DashDots(k - 1)
  }

  function Dashes(n: nat): (r: string)
    ensures |r| == n && forall i :: 0 <= i < n ==> r[i] == '-'
  {
    seq(n, i => '-')
  }

  lemma DashDotsThree()
    ensures DashDots(3) == "-..-..-..-"
  {
  }

  /** The pass removes every doubled dot and leaves the dashes side by side. */
  lemma {:induction false} SpecialPassJoinsDashes(k: nat)
    ensures Sub(RepeatedSpecial, DashDots(k)) == Dashes(k + 1)
  {
    if k == 0 {
      SingleDashKept(DashDots(0));
    } else {
      SpecialPassJoinsDashes(k - 1);
      DashStep(k);
    }
  }

  lemma DashStep(k: nat)
    requires k > 0 && Sub(RepeatedSpecial, DashDots(k - 1)) == Dashes(k)
    ensures Sub(RepeatedSpecial, DashDots(k)) == Dashes(k + 1)
  {
    var u := DashDots(k - 1);
    DotPairDropped(DashDots(k), u);
    assert "-" + Dashes(k) == Dashes(k + 1);
  }

  lemma SingleDashKept(w: string)
    requires |w| == 1 && w[0] == '-'
    ensures Sub(RepeatedSpecial, w) == w
  {
    SpecialRunMatches(w);
    assert w[1..] == [];
  }

  /** A text of dashes and dots comes out of the cleaner as the line-22 pass leaves
      it, when that is a non-empty run of dashes: no other pass can begin a match
      on either. */
  lemma {:induction false} DashesAndDotsCleaned(s: string, t: string)
    requires forall i :: 0 <= i < |s| ==> s[i] == '-' || s[i] == '.'
    requires t != [] && (forall i :: 0 <= i < |t| ==> t[i] == '-')
    requires Sub(RepeatedSpecial, s) == t
    ensures CleanNormalized(s) == t
  {
    SubUntouched(PageMarker, s);
    SubUntouched(Copyright, s);
    SubUntouched(Url, s);
    SubUntouched(HtmlTag, s);
    assert RemoveBoilerplate(s) == t;
    SubUntouched(WhitespaceRun, t);
    SubUntouched(BlankLine, t);
    SubUntouched(NonAsciiRun, t);
    StripFramed(t);
  }

  /** As written, the cleaner can leave a run of repeated special characters: the
      line-22 pass removes each doubled dot and does not look again at the dashes
      it brings together, and no later pass touches them. `DashDots(3)` is
      "-..-..-..-", which comes out as "----". */
  lemma {:induction false} CleanNormalizedLeavesDashRun(k: nat)
    ensures CleanNormalized(DashDots(k)) == Dashes(k + 1)
  {
    SpecialPassJoinsDashes(k);
    DashesAndDotsCleaned(DashDots(k), Dashes(k + 1));
  }

  // ---------------------------------------------------------------------------
  // Line 23: whitespace
  // ---------------------------------------------------------------------------

  /** The characters of `s` that are not whitespace, in order. */
  function NonSpaces(s: string): (r: string)
    ensures forall i :: 0 <= i < |r| ==> !IsSpace(r[i])
    decreases |s|
  {
    if s == [] then [] else (if IsSpace(s[0]) then [] else [s[0]]) + NonSpaces(s[1..])
  }

  /** Whitespace in `r` is only the plain space, never two in a row. */
  predicate SingleSpaced(r: string) {
    && (forall i :: 0 <= i < |r| && IsSpace(r[i]) ==> r[i] == ' ')
    && (forall i :: 0 <= i < |r| - 1 && r[i] == ' ' ==> r[i + 1] != ' ')
  }

  lemma {:induction false} NonSpacesSkip(s: string, n: nat)
    requires AllInRange(s, 0, n, Space)
    ensures NonSpaces(s) == NonSpaces(s[n..])
    decreases n
  {
    if n > 0 {
      assert AllInRange(s[1..], 0, n - 1, Space) by {
        forall m | 0 <= m < n - 1 ensures IsSpace(s[1..][m]) {
          assert s[1..][m] == s[m + 1];
        }
      }
      NonSpacesSkip(s[1..], n - 1);
      assert s[1..][n - 1..] == s[n..];
    }
  }

  /** Line 23 replaces every whitespace run by one space: only plain spaces are
      left, never two together, the other characters are kept in order, and the
      result begins with a space exactly when the text begins with whitespace. */
  lemma {:induction false} WhitespaceCollapsed(s: string)
    ensures SingleSpaced(Sub(WhitespaceRun, s))
    ensures NonSpaces(Sub(WhitespaceRun, s)) == NonSpaces(s)
    ensures Sub(WhitespaceRun, s) == [] <==> s == []
    ensures Sub(WhitespaceRun, s) != [] && Sub(WhitespaceRun, s)[0] == ' ' <==> s != [] && IsSpace(s[0])
    decreases |s|
  {
    if s != [] {
      var n := SpanFrom(s, 0, Space);
      var r := Sub(WhitespaceRun, s);
      if n > 0 {
        var t := s[n..];
        WhitespaceCollapsed(t);
        var rt := Sub(WhitespaceRun, t);
        assert r == " " + rt;
        assert t == [] || !IsSpace(t[0]);
        assert rt == [] || rt[0] != ' ';
        forall i | 0 <= i < |r| && IsSpace(r[i]) ensures r[i] == ' ' {
          if i > 0 { assert r[i] == rt[i - 1]; }
        }
        forall i | 0 <= i < |r| - 1 && r[i] == ' ' ensures r[i + 1] != ' ' {
          assert r[i + 1] == rt[i];
          if i > 0 { assert r[i] == rt[i - 1]; }
        }
        assert r[1..] == rt;
        SpanFromAll(s, 0, Space);
        NonSpacesSkip(s, n);
      } else {
        WhitespaceCollapsed(s[1..]);
        var rt := Sub(WhitespaceRun, s[1..]);
        assert r == [s[0]] + rt;
        forall i | 0 <= i < |r| && IsSpace(r[i]) ensures r[i] == ' ' {
          assert r[i] == rt[i - 1];
        }
        forall i | 0 <= i < |r| - 1 && r[i] == ' ' ensures r[i + 1] != ' ' {
          assert r[i + 1] == rt[i];
          assert r[i] == rt[i - 1];
        }
        assert r[1..] == rt;
      }
    }
  }

  // ---------------------------------------------------------------------------
  // Lines 24 and 25: line breaks and non-ASCII characters
  // ---------------------------------------------------------------------------

  /** Line 24 has nothing to do in a text without line breaks. */
  lemma {:induction false} BlankLineNoop(s: string)
    requires forall i :: 0 <= i < |s| ==> s[i] != '\n'
    ensures Sub(BlankLine, s) == s
  {
    SubUntouched(BlankLine, s);
  }

  /** The ASCII characters of `s`, in order. */
  function AsciiOnly(s: string): (r: string)
    ensures forall i :: 0 <= i < |r| ==> IsAscii(r[i])
    decreases |s|
  {
    if s == [] then [] else (if IsAscii(s[0]) then [s[0]] else []) + AsciiOnly(s[1..])
  }

  lemma {:induction false} AsciiOnlySkip(s: string, n: nat)
    requires AllInRange(s, 0, n, NonAscii)
    ensures AsciiOnly(s) == AsciiOnly(s[n..])
    decreases n
  {
    if n > 0 {
      assert AllInRange(s[1..], 0, n - 1, NonAscii) by {
        forall m | 0 <= m < n - 1 ensures !IsAscii(s[1..][m]) {
          assert s[1..][m] == s[m + 1];
        }
      }
      AsciiOnlySkip(s[1..], n - 1);
      assert s[1..][n - 1..] == s[n..];
    }
  }

  /** Line 25 keeps exactly the ASCII characters, in order. */
  lemma {:induction false} NonAsciiRemoved(s: string)
    ensures Sub(NonAsciiRun, s) == AsciiOnly(s)
    decreases |s|
  {
    if s != [] {
      var n := SpanFrom(s, 0, NonAscii);
      if n > 0 {
        NonAsciiRemoved(s[n..]);
        SpanFromAll(s, 0, NonAscii);
        AsciiOnlySkip(s, n);
      } else {
        NonAsciiRemoved(s[1..]);
      }
    }
  }

  /** Line 25 keeps no character its input lacks. */
  lemma {:induction false} AsciiOnlyChars(s: string)
    ensures forall c :: c in AsciiOnly(s) ==> c in s
    decreases |s|
  {
    if s != [] {
      AsciiOnlyChars(s[1..]);
      assert forall c :: c in s[1..] ==> c in s;
    }
  }

  // ---------------------------------------------------------------------------
  // Line 26: strip
  // ---------------------------------------------------------------------------

  /** `strip()` keeps a contiguous middle part and removes only whitespace around it. */
  lemma {:induction false} StripKeepsMiddle(s: string)
    ensures exists i, j :: 0 <= i <= j <= |s| && Strip(s) == s[i..j]
                           && AllInRange(s, 0, i, Space) && AllInRange(s, j, |s|, Space)
  {
    var i := SpanFrom(s, 0, Space);
    SpanFromAll(s, 0, Space);
    var t := s[i..];
    var j := i + |t| - TrailingSpaceLen(t);
    assert Strip(s) == s[i..j];
    forall m | j <= m < |s| ensures IsSpace(s[m]) {
      assert s[m] == t[m - i];
    }
  }

  /** A text that neither begins nor ends with whitespace is left as it is. */
  lemma {:induction false} StripFramed(t: string)
    requires t == [] || (!IsSpace(t[0]) && !IsSpace(t[|t| - 1]))
    ensures Strip(t) == t
  {
  }

  /** Stripping twice is stripping once. */
  lemma {:induction false} StripIdempotent(s: string)
    ensures Strip(Strip(s)) == Strip(s)
  {
    StripFramed(Strip(s));
  }

  // ---------------------------------------------------------------------------
  // The whole pipeline
  // ---------------------------------------------------------------------------

  /** Lines 18 to 22 together only delete. */
  lemma {:induction false} RemoveBoilerplateDeletes(text: string)
    ensures IsSubsequence(RemoveBoilerplate(text), text)
  {
    var s1 := Sub(PageMarker, text);
    var s2 := Sub(Copyright, s1);
    var s3 := Sub(Url, s2);
    var s4 := Sub(HtmlTag, s3);
    var s5 := Sub(RepeatedSpecial, s4);
    SubDeletes(PageMarker, text);
    SubDeletes(Copyright, s1);
    SubDeletes(Url, s2);
    SubDeletes(HtmlTag, s3);
    SubDeletes(RepeatedSpecial, s4);
    SubsequenceTransitive(s2, s1, text);
    SubsequenceTransitive(s3, s2, text);
    SubsequenceTransitive(s4, s3, text);
    SubsequenceTransitive(s5, s4, text);
  }

  /** Lines 18 to 26 on normalised text: the boilerplate passes only delete, the
      line-break pass never applies, and the result is ASCII, holds no whitespace
      but plain spaces, is stripped at both ends and is no longer than its input. */
  lemma {:induction false} CleanNormalizedProperties(text: string)
    ensures IsSubsequence(RemoveBoilerplate(text), text)
    ensures Sub(BlankLine, Sub(WhitespaceRun, RemoveBoilerplate(text))) == Sub(WhitespaceRun, RemoveBoilerplate(text))
    ensures forall i :: 0 <= i < |CleanNormalized(text)| ==> IsAscii(CleanNormalized(text)[i])
    ensures forall i :: 0 <= i < |CleanNormalized(text)| && IsSpace(CleanNormalized(text)[i]) ==> CleanNormalized(text)[i] == ' '
    ensures CleanNormalized(text) == [] || (!IsSpace(CleanNormalized(text)[0]) && !IsSpace(CleanNormalized(text)[|CleanNormalized(text)| - 1]))
    ensures |CleanNormalized(text)| <= |text|
  {
    var b := RemoveBoilerplate(text);
    var w := Sub(WhitespaceRun, b);
    var a := Sub(NonAsciiRun, Sub(BlankLine, w));
    var r := CleanNormalized(text);
    RemoveBoilerplateDeletes(text);
    WhitespaceCollapsed(b);
    BlankLineNoop(w);
    NonAsciiRemoved(w);
    AsciiOnlyChars(w);
    forall i | 0 <= i < |r| ensures IsAscii(r[i]) && (IsSpace(r[i]) ==> r[i] == ' ') {
      assert r[i] in r;
      assert r[i] in a;
      var k :| 0 <= k < |a| && a[k] == r[i];
      assert r[i] in w;
      var j :| 0 <= j < |w| && w[j] == r[i];
    }
  }

  /** `clean_text` itself, whatever the normalisation of line 17 returns. */
  lemma {:induction false} CleanTextProperties(nfkc: string -> string, text: string)
    ensures forall i :: 0 <= i < |CleanText(nfkc, text)| ==> IsAscii(CleanText(nfkc, text)[i])
    ensures forall i :: 0 <= i < |CleanText(nfkc, text)| && IsSpace(CleanText(nfkc, text)[i]) ==> CleanText(nfkc, text)[i] == ' '
    ensures CleanText(nfkc, text) == [] || (!IsSpace(CleanText(nfkc, text)[0]) && !IsSpace(CleanText(nfkc, text)[|CleanText(nfkc, text)| - 1]))
    ensures |CleanText(nfkc, text)| <= |nfkc(text)|
  {
    CleanNormalizedProperties(nfkc(text));
  }
}
