// The one regular-expression shape the scripts use for structured
// extraction: a choice of literal alternatives, each followed by `\s*(\d+)`,
// matched case-insensitively and unanchored. Both the citation regex
//   /(H\.R\.|S\.|H\.J\.Res\.|S\.J\.Res\.|H\.Con\.Res\.|S\.Con\.Res\.)\s*(\d+)/i
// and the roll-call regex
//   /Roll no\.\s*(\d+)|recorded vote:\s*(\d+)|Yeas and Nays:\s*(\d+)/i
// have it. `String.prototype.match` without the `g` flag returns the match
// that starts leftmost; at that position the alternatives are tried in
// order and the first one whose continuation succeeds wins. Because `\s` and
// `\d` share no character, `\s*` backtracking never changes the outcome, and
// the greedy `\d+` takes the whole digit run.

module Scan {
  import opened Text

  /** `lit` matches `s` at `i` under the `i` flag. Without the `u` flag,
      JavaScript folds case only between ASCII letters here, which is what
      comparing `Lower` images says (`LiteralAtLower`). */
  predicate LiteralAt(s: string, i: nat, lit: string) {
    i + |lit| <= |s| && LiteralFrom(s, i, lit, 0)
  }

  /** Characters `k..` of `lit` agree with `s` from `i + k` on, up to case;
      compared one at a time so that the verifier unfolds it only on demand. */
  predicate LiteralFrom(s: string, i: nat, lit: string, k: nat)
    requires i + |lit| <= |s| && k <= |lit|
    decreases |lit| - k
  {
    k == |lit| || (LowerChar(s[i + k]) == LowerChar(lit[k]) && LiteralFrom(s, i, lit, k + 1))
  }

  lemma {:induction false} LiteralFromIff(s: string, i: nat, lit: string, k: nat)
    requires i + |lit| <= |s| && k <= |lit|
    ensures LiteralFrom(s, i, lit, k) <==> forall m :: k <= m < |lit| ==> LowerChar(s[i + m]) == LowerChar(lit[m])
    decreases |lit| - k
  {
    if k < |lit| { LiteralFromIff(s, i, lit, k + 1); }
  }

  /** `LiteralAt` compares the `Lower` images of the covered text and `lit`. */
  lemma LiteralAtLower(s: string, i: nat, lit: string)
    requires i + |lit| <= |s|
    ensures LiteralAt(s, i, lit) <==> Lower(s[i..i + |lit|]) == Lower(lit)
  {
    LiteralFromIff(s, i, lit, 0);
    if LiteralAt(s, i, lit) {
      LiteralAtLowerImage(s, i, lit);
    }
    var t := s[i..i + |lit|];
    if Lower(t) == Lower(lit) {
      forall m | 0 <= m < |lit| ensures LowerChar(s[i + m]) == LowerChar(lit[m]) {
        assert Lower(t)[m] == LowerChar(t[m]) && t[m] == s[i + m];
      }
    }
  }

  lemma LiteralAtLowerImage(s: string, i: nat, lit: string)
    requires i + |lit| <= |s|
    requires forall m :: 0 <= m < |lit| ==> LowerChar(s[i + m]) == LowerChar(lit[m])
    ensures Lower(s[i..i + |lit|]) == Lower(lit)
  {
    var t := s[i..i + |lit|];
    var lt, ll := Lower(t), Lower(lit);
    forall m | 0 <= m < |lit| ensures lt[m] == ll[m] {
      assert lt[m] == LowerChar(t[m]) && ll[m] == LowerChar(lit[m]) && t[m] == s[i + m];
    }
    assert |lt| == |ll|;
  }

  /** End of the run of `\s` characters starting at `j`. */
  function SkipSpaces(s: string, j: nat): (k: nat)
    requires j <= |s|
    ensures j <= k <= |s|
    ensures forall m :: j <= m < k ==> IsSpace(s[m])
    ensures k < |s| ==> !IsSpace(s[k])
    decreases |s| - j
  {
    if j < |s| && IsSpace(s[j]) then SkipSpaces(s, j + 1) else j
  }

  /** End of the run of `\d` characters starting at `j`. */
  function SkipDigits(s: string, j: nat): (k: nat)
    requires j <= |s|
    ensures j <= k <= |s|
    ensures forall m :: j <= m < k ==> IsDigit(s[m])
    ensures k < |s| ==> !IsDigit(s[k])
    decreases |s| - j
  {
    if j < |s| && IsDigit(s[j]) then SkipDigits(s, j + 1) else j
  }

  /** The alternative `lit` followed by `\s*(\d+)` matches at `i`. */
  predicate AltMatchesAt(s: string, i: nat, lit: string) {
    LiteralAt(s, i, lit)
    && var k := SkipSpaces(s, i + |lit|); k < |s| && IsDigit(s[k])
  }

  /** Some alternative matches at `i`. */
  predicate AnyAltAt(s: string, i: nat, alts: seq<string>) {
    exists a :: 0 <= a < |alts| && AltMatchesAt(s, i, alts[a])
  }

  /** A match: where it starts, which alternative matched, the text the
      alternative consumed, and the digit run captured after it. */
  datatype Match = Match(start: nat, alt: nat, text: string, numStart: nat, numEnd: nat, digits: string)

  /** Everything the regex engine promises about the match it returns. */
  predicate IsLeftmostMatch(s: string, alts: seq<string>, m: Match) {
    && m.alt < |alts|
    && AltMatchesAt(s, m.start, alts[m.alt])
    && (forall j :: 0 <= j < m.start ==> !AnyAltAt(s, j, alts))
    && (forall a :: 0 <= a < m.alt ==> !AltMatchesAt(s, m.start, alts[a]))
    && m.text == s[m.start..m.start + |alts[m.alt]|]
    && Lower(m.text) == Lower(alts[m.alt])
    && m.numStart == SkipSpaces(s, m.start + |alts[m.alt]|)
    && m.numStart < m.numEnd <= |s|
    && (m.numEnd == |s| || !IsDigit(s[m.numEnd]))
    && m.digits == s[m.numStart..m.numEnd]
    && |m.digits| > 0 && AllDigits(m.digits)
  }

  /** First alternative at index `a` or later that matches at `i`. */
  function FirstAlt(s: string, i: nat, alts: seq<string>, a: nat): (r: Option<nat>)
    requires a <= |alts|
    ensures r.Some? ==> a <= r.value < |alts|
    decreases |alts| - a
  {
    if a == |alts| then None
    else if AltMatchesAt(s, i, alts[a]) then Some(a)
    else FirstAlt(s, i, alts, a + 1)
  }

  /** `FirstAlt` returns the first alternative from `a` on that matches, and
      nothing only when none does. */
  lemma {:induction false} FirstAltSpec(s: string, i: nat, alts: seq<string>, a: nat)
    requires a <= |alts|
    ensures var r := FirstAlt(s, i, alts, a);
            && (r.Some? ==> AltMatchesAt(s, i, alts[r.value]))
            && (r.Some? ==> forall c :: a <= c < r.value ==> !AltMatchesAt(s, i, alts[c]))
            && (r.None? ==> forall c :: a <= c < |alts| ==> !AltMatchesAt(s, i, alts[c]))
    decreases |alts| - a
  {
    if a < |alts| && !AltMatchesAt(s, i, alts[a]) {
      FirstAltSpec(s, i, alts, a + 1);
    }
  }

  /** The match attempt at one position. */
  function MatchAt(s: string, i: nat, alts: seq<string>): Option<Match> {
    match FirstAlt(s, i, alts, 0)
    case None => None
    case Some(a) =>
      FirstAltSpec(s, i, alts, 0);
      var k := SkipSpaces(s, i + |alts[a]|);
      var e := SkipDigits(s, k);
      Some(Match(i, a, s[i..i + |alts[a]|], k, e, s[k..e]))
  }

  /** The engine's scan: try each start position from `i` on. */
  function SearchFrom(s: string, alts: seq<string>, i: nat): Option<Match>
    requires i <= |s|
    decreases |s| - i
  {
    var here := MatchAt(s, i, alts);
    if here.Some? then here
    else if i == |s| then None
    else SearchFrom(s, alts, i + 1)
  }

  /** The scan from `i` finds nothing only when no alternative matches from
      `i` on. */
  lemma {:induction false} SearchFromNone(s: string, alts: seq<string>, i: nat)
    requires i <= |s| && SearchFrom(s, alts, i).None?
    ensures forall j :: i <= j ==> !AnyAltAt(s, j, alts)
    decreases |s| - i
  {
    MatchAtNone(s, i, alts);
    if i == |s| {
      forall j | i < j ensures !AnyAltAt(s, j, alts) {
        NoMatchPastEnd(s, j, alts);
      }
    } else {
      SearchFromNone(s, alts, i + 1);
    }
  }

  /** A scan from `i` that finds something returns the attempt at the first
      position from `i` on where an alternative matches. */
  lemma {:induction false} SearchFromSome(s: string, alts: seq<string>, i: nat)
    requires i <= |s| && SearchFrom(s, alts, i).Some?
    ensures var m := SearchFrom(s, alts, i).value;
            && i <= m.start
            && (forall j :: i <= j < m.start ==> !AnyAltAt(s, j, alts))
            && MatchAt(s, m.start, alts) == Some(m)
    decreases |s| - i
  {
    if MatchAt(s, i, alts).None? {
      MatchAtNone(s, i, alts);
      SearchFromSome(s, alts, i + 1);
    }
  }

  /** An attempt that fails means no alternative matches there. */
  lemma MatchAtNone(s: string, i: nat, alts: seq<string>)
    requires MatchAt(s, i, alts).None?
    ensures !AnyAltAt(s, i, alts)
  {
    FirstAltSpec(s, i, alts, 0);
  }

  /** Nothing matches past the end of the subject. */
  lemma NoMatchPastEnd(s: string, j: nat, alts: seq<string>)
    requires j > |s|
    ensures !AnyAltAt(s, j, alts)
  {
    forall a | 0 <= a < |alts| ensures !AltMatchesAt(s, j, alts[a]) {
      assert !LiteralAt(s, j, alts[a]);
    }
  }

  /** `s.match(re)` for a regex of this shape; `SearchSpec` states what it
      returns. */
  function Search(s: string, alts: seq<string>): Option<Match> {
    SearchFrom(s, alts, 0)
  }

  /** `None` exactly when no alternative matches anywhere, otherwise the
      leftmost match with everything the engine promises about it. */
  lemma SearchSpec(s: string, alts: seq<string>)
    ensures Search(s, alts).None? <==> forall j :: 0 <= j ==> !AnyAltAt(s, j, alts)
    ensures Search(s, alts).Some? ==> IsLeftmostMatch(s, alts, Search(s, alts).value)
  {
    var r := SearchFrom(s, alts, 0);
    if r.None? {
      SearchFromNone(s, alts, 0);
    } else {
      SearchFromSome(s, alts, 0);
      MatchAtIsLeftmost(s, r.value.start, alts);
      assert AnyAltAt(s, r.value.start, alts);
    }
  }

  lemma MatchAtIsLeftmost(s: string, i: nat, alts: seq<string>)
    requires MatchAt(s, i, alts).Some?
    requires forall j :: 0 <= j < i ==> !AnyAltAt(s, j, alts)
    ensures IsLeftmostMatch(s, alts, MatchAt(s, i, alts).value)
  {
    MatchAtChoice(s, i, alts);
    MatchAtCapture(s, i, alts);
  }

  /** An alternative that matches where no earlier one does is the one
      `FirstAlt` picks. */
  lemma {:induction false} FirstAltIs(s: string, i: nat, alts: seq<string>, a: nat, c: nat)
    requires c <= a < |alts| && AltMatchesAt(s, i, alts[a])
    requires forall b :: 0 <= b < a ==> !AltMatchesAt(s, i, alts[b])
    ensures FirstAlt(s, i, alts, c) == Some(a)
    decreases a - c
  {
    if c < a {
      FirstAltIs(s, i, alts, a, c + 1);
    }
  }

  /** The alternative `MatchAt` reports is the first that matches at `i`. */
  lemma MatchAtChoice(s: string, i: nat, alts: seq<string>)
    requires MatchAt(s, i, alts).Some?
    ensures var m := MatchAt(s, i, alts).value;
      m.start == i && m.alt < |alts| && AltMatchesAt(s, i, alts[m.alt])
      && (forall a :: 0 <= a < m.alt ==> !AltMatchesAt(s, i, alts[a]))
  {
    FirstAltSpec(s, i, alts, 0);
  }

  /** What `MatchAt` captures: the alternative's text and the digit run
      after the spaces that follow it. */
  lemma MatchAtCapture(s: string, i: nat, alts: seq<string>)
    requires MatchAt(s, i, alts).Some?
    ensures var m := MatchAt(s, i, alts).value;
      m.alt < |alts|
      && m.text == s[m.start..m.start + |alts[m.alt]|]
      && Lower(m.text) == Lower(alts[m.alt])
      && m.numStart == SkipSpaces(s, m.start + |alts[m.alt]|)
      && m.numStart < m.numEnd <= |s|
      && (m.numEnd == |s| || !IsDigit(s[m.numEnd]))
      && m.digits == s[m.numStart..m.numEnd]
      && |m.digits| > 0 && AllDigits(m.digits)
  {
    MatchAtText(s, i, alts);
    MatchAtDigits(s, i, alts);
  }

  lemma MatchAtText(s: string, i: nat, alts: seq<string>)
    requires MatchAt(s, i, alts).Some?
    ensures var m := MatchAt(s, i, alts).value;
      m.alt < |alts| && m.start + |alts[m.alt]| <= |s|
      && m.text == s[m.start..m.start + |alts[m.alt]|]
      && Lower(m.text) == Lower(alts[m.alt])
  {
    FirstAltSpec(s, i, alts, 0);
    var a := FirstAlt(s, i, alts, 0).value;
    var lit := alts[a];
    assert AltMatchesAt(s, i, lit);
    LiteralAtLower(s, i, lit);
  }

  lemma MatchAtDigits(s: string, i: nat, alts: seq<string>)
    requires MatchAt(s, i, alts).Some?
    ensures var m := MatchAt(s, i, alts).value;
      m.alt < |alts| && m.start + |alts[m.alt]| <= |s|
      && m.numStart == SkipSpaces(s, m.start + |alts[m.alt]|)
      && m.numStart < m.numEnd <= |s|
      && (m.numEnd == |s| || !IsDigit(s[m.numEnd]))
      && m.digits == s[m.numStart..m.numEnd]
      && |m.digits| > 0 && AllDigits(m.digits)
  {
    FirstAltSpec(s, i, alts, 0);
    var a := FirstAlt(s, i, alts, 0).value;
    var lit := alts[a];
    assert AltMatchesAt(s, i, lit);
    var k := SkipSpaces(s, i + |lit|);
    DigitRun(s, k);
  }

  /** From a digit at `k`, `SkipDigits` captures a non-empty run of digits
      that the next character does not extend. */
  lemma DigitRun(s: string, k: nat)
    requires k < |s| && IsDigit(s[k])
    ensures var e := SkipDigits(s, k);
      k < e <= |s| && (e == |s| || !IsDigit(s[e])) && |s[k..e]| > 0 && AllDigits(s[k..e])
  {
    var e := SkipDigits(s, k);
    assert AllDigits(s[k..e]);
  }

  /** The leftmost match is unique: any match the engine could report is it. */
  lemma LeftmostUnique(s: string, alts: seq<string>, m1: Match, m2: Match)
    requires IsLeftmostMatch(s, alts, m1) && IsLeftmostMatch(s, alts, m2)
    ensures m1 == m2
  {
    if m1.start < m2.start {
      assert AnyAltAt(s, m1.start, alts);
    } else if m2.start < m1.start {
      assert AnyAltAt(s, m2.start, alts);
    }
    assert m1.start == m2.start;
    assert m1.alt == m2.alt;
    MatchEndIsDigitRunEnd(s, alts, m1);
    MatchEndIsDigitRunEnd(s, alts, m2);
  }

  /** The captured digit run ends where `SkipDigits` stops. */
  lemma MatchEndIsDigitRunEnd(s: string, alts: seq<string>, m: Match)
    requires IsLeftmostMatch(s, alts, m)
    ensures m.numEnd == SkipDigits(s, m.numStart)
  {
    forall k | m.numStart <= k < m.numEnd ensures IsDigit(s[k]) {
      assert s[m.numStart..m.numEnd][k - m.numStart] == s[k];
    }
    DigitRunEnd(s, m.numStart, m.numEnd);
  }

  /** Any index that ends a digit run starting at `k` is where `SkipDigits` stops. */
  lemma {:induction false} DigitRunEnd(s: string, k: nat, e: nat)
    requires k <= e <= |s|
    requires forall m :: k <= m < e ==> IsDigit(s[m])
    requires e == |s| || !IsDigit(s[e])
    ensures SkipDigits(s, k) == e
    decreases e - k
  {
    if k < e { DigitRunEnd(s, k + 1, e); }
  }

  /** When `lit` sits at the front of `s`, `LiteralAt` holds at 0. */
  lemma LiteralAtFront(lit: string, rest: string)
    ensures LiteralAt(lit + rest, 0, lit)
  {
    assert (lit + rest)[0..|lit|] == lit;
    LiteralAtLower(lit + rest, 0, lit);
  }

  /** A literal that matches at 0 agrees, up to ASCII case, with every
      character of the subject it covers. */
  lemma LiteralAtChar(s: string, lit: string, k: nat)
    requires LiteralAt(s, 0, lit) && k < |lit|
    ensures LowerChar(s[k]) == LowerChar(lit[k])
  {
    LiteralFromIff(s, 0, lit, 0);
  }

  /** After `lit` and one space, a run of digits that ends the subject is the
      captured number. */
  lemma DigitsAfterSpace(lit: string, n: string)
    requires |n| > 0 && AllDigits(n)
    ensures SkipSpaces(lit + " " + n, |lit|) == |lit| + 1
    ensures SkipDigits(lit + " " + n, |lit| + 1) == |lit + " " + n|
  {
    var s := lit + " " + n;
    assert s[|lit|] == ' ';
    assert s[|lit| + 1] == n[0];
    assert SkipSpaces(s, |lit| + 1) == |lit| + 1;
    DigitsToEnd(s, |lit| + 1);
  }

  lemma {:induction false} DigitsToEnd(s: string, j: nat)
    requires j <= |s| && forall m :: j <= m < |s| ==> IsDigit(s[m])
    ensures SkipDigits(s, j) == |s|
    decreases |s| - j
  {
    if j < |s| { DigitsToEnd(s, j + 1); }
  }
}
