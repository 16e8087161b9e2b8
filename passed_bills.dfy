// src/components/PassedBillsSection.jsx: the sponsor lookups, the state
// abbreviation and the date parsing of the passed-bills panel. Its link
// builder is the one of src/components/BillCard.jsx, character for
// character, and is modelled once as `BillCard.GetCongressLink`.

module PassedBills {
  import opened Text
  import Sponsors

  /** `sponsorsData[sponsorName] || null`: every entry is an object, so
      only a missing key gives null. */
  function GetSponsorInfo(sponsorsData: map<string, Sponsors.Member>, sponsorName: string): Option<Sponsors.Member> {
    if sponsorName in sponsorsData then Some(sponsorsData[sponsorName]) else None
  }

  /** Looked up in the dictionary the sponsor script writes, a name finds
      the member of the last line that produced it. */
  lemma GetSponsorInfoOfGenerated(lines: seq<string>, j: nat, sponsorName: string)
    requires j < |lines| && Sponsors.Yields(lines, j, sponsorName)
    requires forall i :: j < i < |lines| ==> !Sponsors.Yields(lines, i, sponsorName)
    ensures GetSponsorInfo(Sponsors.Loaded(lines).entries, sponsorName) == Some(Sponsors.RowOf(lines[j]).value.1)
  {
    Sponsors.LastRowWins(lines, j, sponsorName);
  }

  /** A name that no line of the sponsor file produced finds nothing. */
  lemma GetSponsorInfoOfUnknown(lines: seq<string>, sponsorName: string)
    requires forall j :: 0 <= j < |lines| ==> !Sponsors.Yields(lines, j, sponsorName)
    ensures GetSponsorInfo(Sponsors.Loaded(lines).entries, sponsorName) == None
  {
    if sponsorName in Sponsors.Loaded(lines).entries {
      Sponsors.KeysHaveRows(lines, sponsorName);
    }
  }

  /** `stateAbbreviations[stateName] || stateName` */
  function GetStateAbbr(stateAbbreviations: map<string, string>, stateName: string): string {
    if stateName in stateAbbreviations && stateAbbreviations[stateName] != "" then stateAbbreviations[stateName]
    else stateName
  }

  /** The abbreviation when the table has a non-empty one, the name itself
      otherwise; and applying it twice changes nothing when no abbreviation
      is itself a key of the table. */
  lemma GetStateAbbrSpec(stateAbbreviations: map<string, string>, stateName: string)
    ensures var r := GetStateAbbr(stateAbbreviations, stateName);
      && (stateName in stateAbbreviations && stateAbbreviations[stateName] != "" ==> r == stateAbbreviations[stateName])
      && (stateName !in stateAbbreviations || stateAbbreviations[stateName] == "" ==> r == stateName)
      && (stateName != "" ==> r != "")
    ensures (forall s :: s in stateAbbreviations ==> stateAbbreviations[s] !in stateAbbreviations) ==>
      GetStateAbbr(stateAbbreviations, GetStateAbbr(stateAbbreviations, stateName)) == GetStateAbbr(stateAbbreviations, stateName)
  {
  }

  /** The text of a sponsor's badge: party, `-`, state abbreviation, and the
      district after a space when there is one; nothing for an unknown name. */
  function SponsorBadge(sponsorsData: map<string, Sponsors.Member>, stateAbbreviations: map<string, string>,
                        sponsorName: string): Option<string>
  {
    match GetSponsorInfo(sponsorsData, sponsorName)
    case None => None
    case Some(info) =>
      Some(info.party + "-" + GetStateAbbr(stateAbbreviations, info.state)
           + (if Truthy(info.district) then " " + info.district.value else ""))
  }

  /** A badge exactly for a known name; it starts with the party and `-`,
      and a statewide member's badge ends with the state. */
  lemma SponsorBadgeSpec(sponsorsData: map<string, Sponsors.Member>, stateAbbreviations: map<string, string>,
                         sponsorName: string)
    ensures SponsorBadge(sponsorsData, stateAbbreviations, sponsorName).Some? <==> sponsorName in sponsorsData
    ensures sponsorName in sponsorsData ==>
      var info, badge := sponsorsData[sponsorName], SponsorBadge(sponsorsData, stateAbbreviations, sponsorName).value;
      var abbr := GetStateAbbr(stateAbbreviations, info.state);
      && StartsWith(badge, info.party + "-")
      && (!Truthy(info.district) ==> badge == info.party + "-" + abbr)
      && (Truthy(info.district) ==> badge[|info.party| + 1..|info.party| + 1 + |abbr|] == abbr
                                    && badge[|info.party| + 1 + |abbr|..] == " " + info.district.value)
  {
    if sponsorName in sponsorsData {
      var info := sponsorsData[sponsorName];
      var abbr := GetStateAbbr(stateAbbreviations, info.state);
      var badge := SponsorBadge(sponsorsData, stateAbbreviations, sponsorName).value;
      assert badge[..|info.party| + 1] == info.party + "-";
    }
  }

  /** `Number(s)` on a string: the value of its trimmed decimal digits, zero
      for a blank string, `None` (NaN) for anything else. */
  function JsNumber(s: string): (r: Option<int>)
    ensures r.Some? ==> r.value >= 0
  {
    var t := Trim(s);
    if t == "" then Some(0)
    else if AllDigits(t) then Some(DigitsValue(t))
    else None
  }

  /** `Number(undefined)` for a part the split did not produce is NaN. */
  function PartNumber(parts: seq<string>, k: nat): Option<int> {
    if k < |parts| then JsNumber(parts[k]) else None
  }

  /** The arguments `parseLocalDate` hands to `new Date(year, month - 1, day)`;
      `None` stands for NaN, which the subtraction keeps. */
  datatype LocalDate = LocalDate(year: Option<int>, monthIndex: Option<int>, day: Option<int>)

  /** `month - 1`, with NaN staying NaN. */
  function MonthIndex(month: Option<int>): Option<int> {
    if month.Some? then Some(month.value - 1) else None
  }

  /** The date of the pieces of a dash-split string. */
  function DateOfParts(parts: seq<string>): LocalDate {
    LocalDate(PartNumber(parts, 0), MonthIndex(PartNumber(parts, 1)), PartNumber(parts, 2))
  }

  function ParseLocalDate(dateString: string): LocalDate {
    DateOfParts(Split(dateString, '-'))
  }

  lemma NumberOfNatToString(n: nat)
    ensures JsNumber(NatToString(n)) == Some(n)
  {
    var s := NatToString(n);
    assert !IsSpace(s[0]) && !IsSpace(s[|s| - 1]) by {
      assert IsDigit(s[0]) && IsDigit(s[|s| - 1]);
    }
    assert TrimStart(s) == s;
    assert TrimEnd(s) == s;
    DigitsValueOfNatToString(n);
  }

  lemma DigitsHaveNoDash(s: string)
    requires AllDigits(s)
    ensures '-' !in s
  {
    forall i | 0 <= i < |s| ensures s[i] != '-' {
      assert IsDigit(s[i]);
    }
  }

  lemma JoinThree(y: string, m: string, d: string, sep: string)
    ensures Join([y, m, d], sep) == y + sep + m + sep + d
  {
    var parts := [y, m, d];
    var tail := parts[1..];
    assert tail[1..] == [d];
    assert Join(tail, sep) == m + sep + d;
    assert Join(parts, sep) == y + sep + (m + sep + d);
  }

  /** The three numbers joined by dashes split back into themselves. */
  lemma SplitDate(y: string, m: string, d: string)
    requires '-' !in y && '-' !in m && '-' !in d
    ensures Split(y + "-" + m + "-" + d, '-') == [y, m, d]
  {
    var parts := [y, m, d];
    assert forall k :: 0 <= k < |parts| ==> '-' !in parts[k];
    SplitJoin(parts, '-');
    JoinThree(y, m, d, "-");
  }

  /** Three pieces give the year, the month counted from zero and the day. */
  lemma DateOfThreeParts(a: string, b: string, c: string)
    ensures DateOfParts([a, b, c]) == LocalDate(JsNumber(a), MonthIndex(JsNumber(b)), JsNumber(c))
  {
    var parts := [a, b, c];
    assert parts[0] == a && parts[1] == b && parts[2] == c;
  }

  /** A `Y-M-D` date of decimal numbers gives the year, the month counted
      from zero and the day. */
  lemma ParseLocalDateSpec(y: nat, m: nat, d: nat)
    ensures ParseLocalDate(NatToString(y) + "-" + NatToString(m) + "-" + NatToString(d)) == LocalDate(Some(y), Some(m - 1), Some(d))
  {
    var ys, ms, ds := NatToString(y), NatToString(m), NatToString(d);
    DigitsHaveNoDash(ys);
    DigitsHaveNoDash(ms);
    DigitsHaveNoDash(ds);
    SplitDate(ys, ms, ds);
    DateOfThreeParts(ys, ms, ds);
    NumberOfNatToString(y);
    NumberOfNatToString(m);
    NumberOfNatToString(d);
  }

  /** A string without dashes gives its number, or NaN, for the year and
      NaN for the month and the day. */
  lemma ParseLocalDateNoDash(s: string)
    requires '-' !in s
    ensures ParseLocalDate(s) == LocalDate(JsNumber(s), None, None)
  {
    SplitJoin([s], '-');
  }
}
