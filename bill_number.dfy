// Bill-number parsing shared by the discovery script (scripts/discover-bills.js
// lines 63-96) and, with the chamber added, by the monitor and its test
// harness, and by the two link-building components. Every copy searches for one of
// six citation prefixes followed by optional white space and digits, then
// classifies the prefix it found with the same if-cascade on its lower-cased
// text.

module BillNumber {
  import opened Text
  import opened Scan

  /** The alternatives of the citation regex, in the order the regex lists them. */
  const Prefixes: seq<string> := ["H.R.", "S.", "H.J.Res.", "S.J.Res.", "H.Con.Res.", "S.Con.Res."]

  /** The Congress.gov type code each prefix stands for, index for index. */
  const Codes: seq<string> := ["hr", "s", "hjres", "sjres", "hconres", "sconres"]

  /** The classification cascade run on the lower-cased matched prefix. The
      second test relies on "h.j.res." containing "s." but also "res". */
  function Classify(t: string): string {
    if Contains(t, "h.r.") then "hr"
    else if Contains(t, "s.") && !Contains(t, "res") then "s"
    else if Contains(t, "h.j.res") then "hjres"
    else if Contains(t, "s.j.res") then "sjres"
    else if Contains(t, "h.con.res") then "hconres"
    else if Contains(t, "s.con.res") then "sconres"
    else ""
  }

  /** Whatever case the prefix was written in, the cascade yields its code. */
  lemma ClassifyPrefix(a: nat)
    requires a < |Prefixes|
    ensures Classify(Lower(Prefixes[a])) == Codes[a]
  {
    var p, code := Prefixes[a], Codes[a];
    if a == 0 { assert p == "H.R." && code == "hr"; ClassifyHouseBill(); }
    else if a == 1 { assert p == "S." && code == "s"; ClassifySenateBill(); }
    else if a == 2 { assert p == "H.J.Res." && code == "hjres"; ClassifyHouseJoint(); }
    else if a == 3 { assert p == "S.J.Res." && code == "sjres"; ClassifySenateJoint(); }
    else if a == 4 { assert p == "H.Con.Res." && code == "hconres"; ClassifyHouseConcurrent(); }
    else { assert p == "S.Con.Res." && code == "sconres"; ClassifySenateConcurrent(); }
  }

  lemma ClassifyHouseBill()
    ensures Classify(Lower("H.R.")) == "hr"
  {
    LowerOf("H.R.", "h.r.");
    ContainsOfOccurrence("h.r.", "h.r.", 0);
  }

  lemma ClassifySenateBill()
    ensures Classify(Lower("S.")) == "s"
  {
    LowerOf("S.", "s.");
    AbsentChar("s.", "h.r.", 0);
    ContainsOfOccurrence("s.", "s.", 0);
    AbsentChar("s.", "res", 0);
  }

  lemma ClassifyHouseJoint()
    ensures Classify(Lower("H.J.Res.")) == "hjres"
  {
    var t := "h.j.res.";
    LowerOf("H.J.Res.", t);
    HouseJointTests(t);
  }

  /** The tests of the cascade on "h.j.res.", decided one by one. */
  lemma HouseJointTests(t: string)
    requires t == "h.j.res."
    ensures !Contains(t, "h.r.") && Contains(t, "res") && Contains(t, "h.j.res")
  {
    AbsentPair(t, "h.r.", 2);
    ContainsOfOccurrence(t, "res", 4);
    ContainsOfOccurrence(t, "h.j.res", 0);
  }

  lemma ClassifySenateJoint()
    ensures Classify(Lower("S.J.Res.")) == "sjres"
  {
    var t := "s.j.res.";
    LowerOf("S.J.Res.", t);
    SenateJointTests(t);
  }

  /** The tests of the cascade on "s.j.res.", decided one by one. */
  lemma SenateJointTests(t: string)
    requires t == "s.j.res."
    ensures !Contains(t, "h.r.") && Contains(t, "res")
    ensures !Contains(t, "h.j.res") && Contains(t, "s.j.res")
  {
    AbsentChar(t, "h.r.", 0);
    ContainsOfOccurrence(t, "res", 4);
    AbsentChar(t, "h.j.res", 0);
    ContainsOfOccurrence(t, "s.j.res", 0);
  }

  lemma ClassifyHouseConcurrent()
    ensures Classify(Lower("H.Con.Res.")) == "hconres"
  {
    var t := "h.con.res.";
    LowerOf("H.Con.Res.", t);
    HouseConcurrentTests(t);
  }

  /** The tests of the cascade on "h.con.res.", decided one by one. */
  lemma HouseConcurrentTests(t: string)
    requires t == "h.con.res."
    ensures !Contains(t, "h.r.") && Contains(t, "res")
    ensures !Contains(t, "h.j.res") && !Contains(t, "s.j.res") && Contains(t, "h.con.res")
  {
    AbsentPair(t, "h.r.", 2);
    ContainsOfOccurrence(t, "res", 6);
    AbsentChar(t, "h.j.res", 2);
    AbsentChar(t, "s.j.res", 2);
    ContainsOfOccurrence(t, "h.con.res", 0);
  }

  lemma ClassifySenateConcurrent()
    ensures Classify(Lower("S.Con.Res.")) == "sconres"
  {
    var t := "s.con.res.";
    LowerOf("S.Con.Res.", t);
    SenateConcurrentTests(t);
  }

  /** The tests of the cascade on "s.con.res.", decided one by one. */
  lemma SenateConcurrentTests(t: string)
    requires t == "s.con.res."
    ensures !Contains(t, "h.r.") && Contains(t, "res")
    ensures !Contains(t, "h.j.res") && !Contains(t, "s.j.res")
    ensures !Contains(t, "h.con.res") && Contains(t, "s.con.res")
  {
    AbsentChar(t, "h.r.", 0);
    ContainsOfOccurrence(t, "res", 6);
    AbsentChar(t, "h.j.res", 0);
    AbsentChar(t, "s.j.res", 2);
    AbsentChar(t, "h.con.res", 0);
    ContainsOfOccurrence(t, "s.con.res", 0);
  }

  /** The `{ billType, number }` result of `parseBillNumber`. */
  datatype Parsed = Parsed(billType: string, number: string)

  /** `parseBillNumber`: the code of the prefix the regex engine reports and
      the whole digit run after it, or `None` when the regex finds nothing
      (the lemma `ParseBillNumberMatches` states both in terms of the regex). */
  function ParseBillNumber(s: string): (r: Option<Parsed>)
    ensures r.Some? ==> r.value.billType in Codes && r.value.billType != ""
    ensures r.Some? ==> |r.value.number| > 0 && AllDigits(r.value.number)
  {
    SearchSpec(s, Prefixes);
    match Search(s, Prefixes)
    case None => None
    case Some(m) =>
      ClassifyPrefix(m.alt);
      LowerAppend([], m.text);
      Some(Parsed(Classify(Lower(m.text)), m.digits))
  }

  /** `None` exactly when no prefix followed by digits occurs anywhere;
      otherwise the code of the prefix at the leftmost match and its digits. */
  lemma ParseBillNumberMatches(s: string)
    ensures ParseBillNumber(s).None? <==> forall j :: 0 <= j ==> !AnyAltAt(s, j, Prefixes)
    ensures ParseBillNumber(s).Some? ==>
              exists m :: IsLeftmostMatch(s, Prefixes, m) && ParseBillNumber(s).value == Parsed(Codes[m.alt], m.digits)
  {
    SearchSpec(s, Prefixes);
    var r := Search(s, Prefixes);
    if r.Some? {
      ClassifyPrefix(r.value.alt);
      LowerAppend([], r.value.text);
    }
  }

  /** The number captured is the maximal digit run: the character after it,
      if any, is not a digit. */
  lemma ParsedNumberIsMaximal(s: string)
    requires ParseBillNumber(s).Some?
    ensures exists m :: IsLeftmostMatch(s, Prefixes, m) && ParseBillNumber(s).value.number == m.digits
                        && m.numEnd <= |s| && (m.numEnd == |s| || !IsDigit(s[m.numEnd]))
  {
    ParseBillNumberMatches(s);
  }

  /** `normalizeBillId`: the tracked-set key of a parsed number. */
  function NormalizeBillId(billType: string, number: string): (r: string)
    ensures |r| == |billType| + |number|
    ensures r[..|billType|] == billType && r[|billType|..] == number
  {
    billType + number
  }

  /** Codes contain no digit, so the first digit of a normalised id marks
      where the code ends. */
  lemma CodesHaveNoDigits(a: nat)
    requires a < |Codes|
    ensures forall k :: 0 <= k < |Codes[a]| ==> !IsDigit(Codes[a][k])
  {
  }

  /** Index of the first digit of `s`, or `|s|` when there is none. */
  function FirstDigit(s: string): (r: nat)
    ensures r <= |s|
  {
    if |s| == 0 || IsDigit(s[0]) then 0 else 1 + FirstDigit(s[1..])
  }

  lemma {:induction false} FirstDigitAfter(x: string, n: string)
    requires forall k :: 0 <= k < |x| ==> !IsDigit(x[k])
    requires |n| > 0 && IsDigit(n[0])
    ensures FirstDigit(x + n) == |x|
  {
    if |x| > 0 {
      assert (x + n)[1..] == x[1..] + n;
      FirstDigitAfter(x[1..], n);
    } else {
      assert x + n == n;
    }
  }

  /** Distinct parse results give distinct normalised ids. */
  lemma NormalizeInjective(p: Parsed, q: Parsed)
    requires p.billType in Codes && q.billType in Codes
    requires |p.number| > 0 && AllDigits(p.number) && |q.number| > 0 && AllDigits(q.number)
    requires NormalizeBillId(p.billType, p.number) == NormalizeBillId(q.billType, q.number)
    ensures p == q
  {
    var s := NormalizeBillId(p.billType, p.number);
    var i :| 0 <= i < |Codes| && Codes[i] == p.billType;
    var j :| 0 <= j < |Codes| && Codes[j] == q.billType;
    CodesHaveNoDigits(i);
    CodesHaveNoDigits(j);
    // The code ends where the first digit of `s` is.
    FirstDigitAfter(p.billType, p.number);
    FirstDigitAfter(q.billType, q.number);
    assert p.billType == s[..|p.billType|] == q.billType;
  }

  /** `formatBillType`: the display prefix of a known code, the upper-cased
      code otherwise. */
  function FormatBillType(billType: string): (r: string)
    ensures forall a :: 0 <= a < |Codes| && billType == Codes[a] ==> r == Prefixes[a]
    ensures billType !in Codes ==> r == Upper(billType)
  {
    if billType == "hr" then "H.R."
    else if billType == "s" then "S."
    else if billType == "hjres" then "H.J.Res."
    else if billType == "sjres" then "S.J.Res."
    else if billType == "hconres" then "H.Con.Res."
    else if billType == "sconres" then "S.Con.Res."
    else Upper(billType)
  }

  /** No prefix listed before `Prefixes[a]` matches at the start of
      `Prefixes[a] + " " + n`. */
  lemma EarlierPrefixesFail(a: nat, n: string)
    requires a < |Prefixes| && |n| > 0 && AllDigits(n)
    ensures forall b :: 0 <= b < a ==> !AltMatchesAt(Prefixes[a] + " " + n, 0, Prefixes[b])
  {
    var s := Prefixes[a] + " " + n;
    forall b | 0 <= b < a ensures !AltMatchesAt(s, 0, Prefixes[b]) {
      var pb := Prefixes[b];
      if b == 1 && (a == 3 || a == 5) {
        // "S." matches, but neither white space nor a digit follows it.
        assert s[2] == Prefixes[a][2];
        assert !IsSpace(s[2]) && !IsDigit(s[2]);
        assert SkipSpaces(s, 2) == 2;
      } else {
        var k: nat := if (a == 2 && b == 0) || (a == 4 && (b == 0 || b == 2)) || (a == 5 && b == 3) then 2 else 0;
        assert s[k] == Prefixes[a][k];
        assert LowerChar(Prefixes[a][k]) != LowerChar(pb[k]);
        if LiteralAt(s, 0, pb) {
          LiteralAtChar(s, pb, k);
          assert false;
        }
      }
    }
  }

  /** Round trip: the display form of a code followed by a space and a digit
      string parses back to that code and that digit string. */
  lemma FormatParseRoundTrip(a: nat, n: string)
    requires a < |Codes| && |n| > 0 && AllDigits(n)
    ensures ParseBillNumber(FormatBillType(Codes[a]) + " " + n) == Some(Parsed(Codes[a], n))
  {
    assert FormatBillType(Codes[a]) == Prefixes[a];
    var m := MatchOfDisplayForm(a, n);
    ClassifyPrefix(a);
  }

  /** The regex match in `Prefixes[a] + " " + n`: alternative `a` at the
      start, capturing all of `n`. */
  lemma MatchOfDisplayForm(a: nat, n: string) returns (m: Match)
    requires a < |Prefixes| && |n| > 0 && AllDigits(n)
    ensures Search(Prefixes[a] + " " + n, Prefixes) == Some(m)
    ensures m.alt == a && Lower(m.text) == Lower(Prefixes[a]) && m.digits == n
  {
    var p := Prefixes[a];
    var s := p + " " + n;
    LiteralAtFront(p, " " + n);
    assert p + (" " + n) == s;
    DigitsAfterSpace(p, n);
    assert AltMatchesAt(s, 0, p);
    EarlierPrefixesFail(a, n);
    FirstAltIs(s, 0, Prefixes, a, 0);
    TailAfterSpace(p, n);
    assert s[0..|p|] == p;
    assert s[|p| + 1..|s|] == n;
    assert SkipSpaces(s, 0 + |p|) == |p| + 1 && SkipDigits(s, |p| + 1) == |s|;
    m := Match(0, a, p, |p| + 1, |s|, n);
    assert MatchAt(s, 0, Prefixes) == Some(m);
  }

  lemma TailAfterSpace(p: string, n: string)
    ensures (p + " " + n)[|p| + 1..] == n
  {
    var s := p + " " + n;
    assert s == p + [' '] + n;
  }
}
