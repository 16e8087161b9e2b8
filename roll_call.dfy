// scripts/debug-rollcall.js: the roll-call number a House action's text
// yields, the filter that picks the passage-related actions of a bill, and
// the yea/nay totals of a House roll-call vote. The API responses are
// inputs; the requests and the console output are left out.

module RollCall {
  import opened Text
  import opened Seqs
  import opened Scan

  /** One entry of the `actions` list of the bill-actions endpoint. */
  datatype CongressAction = CongressAction(actionDate: Option<string>, text: Option<string>)

  /** The bill-actions response: an `error` object with its message, and
      the `actions` list when the response carries one. */
  datatype ActionsResponse = ActionsResponse(error: Option<string>, actions: Option<seq<CongressAction>>)

  /** The alternatives of `/Roll no\.\s*(\d+)|recorded vote:\s*(\d+)|Yeas and Nays:\s*(\d+)/i`. */
  const RollAlts: seq<string> := ["Roll no.", "recorded vote:", "Yeas and Nays:"]

  /** `a || b` on two optional captures. */
  function JsOr(a: Option<string>, b: Option<string>): Option<string> {
    if Truthy(a) then a else b
  }

  /** `rollMatch[1]`, `rollMatch[2]`, `rollMatch[3]`: the group of the
      alternative that matched holds the digits, the other two are undefined. */
  function Groups(m: Match): (g: seq<Option<string>>)
    ensures |g| == 3
  {
    seq(3, k => if k == m.alt then Some(m.digits) else None)
  }

  /** `rollMatch ? rollMatch[1] || rollMatch[2] || rollMatch[3] : none`. */
  function ExtractRollCall(text: string): Option<string> {
    match Search(text, RollAlts)
    case None => None
    case Some(m) =>
      var g := Groups(m);
      JsOr(JsOr(g[0], g[1]), g[2])
  }

  /** There is no roll number exactly when no alternative is followed by
      digits anywhere in the text. */
  lemma ExtractRollCallNone(text: string)
    ensures ExtractRollCall(text).None? <==> forall j :: 0 <= j ==> !AnyAltAt(text, j, RollAlts)
  {
    SearchSpec(text, RollAlts);
    var r := Search(text, RollAlts);
    if r.Some? {
      ExtractRollCallPicks(r.value);
    }
  }

  /** Exactly one group is set, and `||` picks it. */
  lemma ExtractRollCallPicks(m: Match)
    requires m.alt < 3 && |m.digits| > 0
    ensures forall k :: 0 <= k < 3 ==> (Groups(m)[k].Some? <==> k == m.alt)
    ensures var g := Groups(m); JsOr(JsOr(g[0], g[1]), g[2]) == Some(m.digits)
  {
    var g := Groups(m);
    assert Truthy(g[m.alt]);
  }

  /** The roll number is the digit run after the alternative matching at
      the leftmost position, and it is the group of that alternative. */
  lemma ExtractRollCallSpec(text: string)
    ensures ExtractRollCall(text).Some? ==>
      var m := Search(text, RollAlts).value;
      && IsLeftmostMatch(text, RollAlts, m)
      && ExtractRollCall(text) == Some(m.digits)
      && |m.digits| > 0 && AllDigits(m.digits)
      && (forall k :: 0 <= k < 3 ==> (Groups(m)[k].Some? <==> k == m.alt))
  {
    SearchSpec(text, RollAlts);
    var r := Search(text, RollAlts);
    if r.Some? {
      ExtractRollCallPicks(r.value);
    }
  }

  /** The leftmost match wins even when a later `Roll no.` carries the roll
      call: in a text that starts with the yea count the count is what the
      extraction reports. */
  lemma LeftmostYeasWin()
    ensures ExtractRollCall("Yeas and Nays: 4 (Roll no. 7)") == Some("4")
  {
    var s := "Yeas and Nays: 4 (Roll no. 7)";
    YeasMatchAtStart(s);
    ExtractAtStart(s, Match(0, 2, s[0..14], 15, 16, s[15..16]));
    assert s[15] == '4';
    assert s[15..16] == [s[15]];
  }

  /** A match at the very start is the one reported. */
  lemma ExtractAtStart(s: string, m: Match)
    requires MatchAt(s, 0, RollAlts) == Some(m) && m.alt < 3 && |m.digits| > 0
    ensures ExtractRollCall(s) == Some(m.digits)
  {
    assert Search(s, RollAlts) == Some(m);
    ExtractRollCallPicks(m);
  }

  lemma YeasMatchAtStart(s: string)
    requires s == "Yeas and Nays: 4 (Roll no. 7)"
    ensures MatchAt(s, 0, RollAlts) == Some(Match(0, 2, s[0..14], 15, 16, s[15..16]))
  {
    YeasOnlyThird(s);
    FirstAltIs(s, 0, RollAlts, 2, 0);
    YeasDigits(s);
  }

  /** Of the three alternatives only `Yeas and Nays:` matches at the start. */
  lemma YeasOnlyThird(s: string)
    requires s == "Yeas and Nays: 4 (Roll no. 7)"
    ensures !AltMatchesAt(s, 0, RollAlts[0]) && !AltMatchesAt(s, 0, RollAlts[1]) && AltMatchesAt(s, 0, RollAlts[2])
  {
    assert s == RollAlts[2] + " 4 (Roll no. 7)";
    LiteralAtFront(RollAlts[2], " 4 (Roll no. 7)");
    assert !LiteralFrom(s, 0, RollAlts[0], 0) && !LiteralFrom(s, 0, RollAlts[1], 0);
    YeasDigits(s);
  }

  lemma YeasDigits(s: string)
    requires s == "Yeas and Nays: 4 (Roll no. 7)"
    ensures SkipSpaces(s, 14) == 15 && SkipDigits(s, 15) == 16 && IsDigit(s[15])
  {
    assert s[14] == ' ' && s[15] == '4' && s[16] == ' ';
    assert SkipSpaces(s, 15) == 15;
    assert SkipDigits(s, 16) == 16;
  }

  /** The passage filter of `checkBillActions`, case-sensitive. */
  predicate IsPassageAction(a: CongressAction) {
    Truthy(a.text) && (
      || Contains(a.text.value, "On passage Passed")
      || Contains(a.text.value, "Passed House")
      || (Contains(a.text.value, "Passed") && !Contains(a.text.value, "Passed/agreed to in House")))
  }

  /** A `needle` found inside an occurrence of `hay` is found in `s`. */
  lemma ContainsWithin(s: string, hay: string, needle: string, k: nat)
    requires Contains(s, hay) && OccursAt(hay, needle, k)
    ensures Contains(s, needle)
  {
    var j := ContainsWitness(s, hay);
    assert OccursAt(s, hay, j) && OccursAt(hay, needle, k);
    assert j + |hay| <= |s| && s[j..j + |hay|] == hay && k + |needle| <= |hay|;
    forall m | 0 <= m < |needle| ensures s[j + k + m] == needle[m] {
      assert s[j + k + m] == hay[k + m];
      assert hay[k..k + |needle|][m] == hay[k + m];
    }
    assert s[j + k..j + k + |needle|] == needle;
    ContainsOfOccurrence(s, needle, j + k);
  }

  /** What the filter keeps, said once: a text that mentions `Passed`, unless
      the mention is `Passed/agreed to in House` and neither of the two
      explicit phrases occurs. */
  lemma PassageActionIff(a: CongressAction)
    ensures IsPassageAction(a) <==>
      Truthy(a.text) && Contains(a.text.value, "Passed")
      && (!Contains(a.text.value, "Passed/agreed to in House")
          || Contains(a.text.value, "On passage Passed") || Contains(a.text.value, "Passed House"))
  {
    if Truthy(a.text) {
      var t := a.text.value;
      if Contains(t, "On passage Passed") {
        assert "On passage Passed"[11..17] == "Passed";
        ContainsWithin(t, "On passage Passed", "Passed", 11);
      }
      if Contains(t, "Passed House") {
        assert "Passed House"[0..6] == "Passed";
        ContainsWithin(t, "Passed House", "Passed", 0);
      }
    }
  }

  /** `data.actions.filter(...)`: the passage actions, in order. */
  function PassageActions(actions: seq<CongressAction>): seq<CongressAction> {
    Filter(actions, IsPassageAction)
  }

  /** The filter keeps the actions in their order, and keeps an action
      exactly when it passes the test. */
  lemma PassageActionsSpec(actions: seq<CongressAction>)
    ensures SubsequenceOf(PassageActions(actions), actions)
    ensures forall a :: a in PassageActions(actions) <==> a in actions && IsPassageAction(a)
  {
    FilterIsSubsequence(actions, IsPassageAction);
  }

  /** One line of the report: the action and the roll number found in it. */
  datatype Extracted = Extracted(action: CongressAction, rollNumber: Option<string>)

  function ExtractFrom(a: CongressAction): Extracted {
    Extracted(a, ExtractRollCall(OrElse(a.text, "")))
  }

  /** How `checkBillActions` ends: an error message, no actions, or the
      passage actions with their roll numbers. */
  datatype Outcome = ApiError(message: string) | NoActions | Report(entries: seq<Extracted>)

  /** `checkBillActions` on the response it fetched. */
  function CheckBillActions(data: ActionsResponse): Outcome {
    if data.error.Some? then ApiError(data.error.value)
    else if data.actions.None? then NoActions
    else Report(Map(PassageActions(data.actions.value), ExtractFrom))
  }

  /** An error payload ends the run before the actions are looked at; a
      response without actions ends it before filtering; otherwise entry
      `k` of the report is the `k`-th passage action, with the roll number
      its text yields. */
  lemma CheckBillActionsSpec(data: ActionsResponse)
    ensures data.error.Some? ==> CheckBillActions(data) == ApiError(data.error.value)
    ensures CheckBillActions(data).NoActions? <==> data.error.None? && data.actions.None?
    ensures CheckBillActions(data).Report? ==>
      var passage, entries := PassageActions(data.actions.value), CheckBillActions(data).entries;
      && |entries| == |passage|
      && (forall k :: 0 <= k < |entries| ==>
            && entries[k].action == passage[k] && IsPassageAction(passage[k])
            && entries[k].rollNumber == ExtractRollCall(passage[k].text.value))
  {
    if data.error.None? && data.actions.Some? {
      var passage := PassageActions(data.actions.value);
      forall k | 0 <= k < |passage| ensures Map(passage, ExtractFrom)[k] == ExtractFrom(passage[k]) {
        MapIndex(passage, ExtractFrom, k);
      }
    }
  }

  /** One element of `votePartyTotal`. */
  datatype PartyTotal = PartyTotal(voteParty: Option<string>, partyType: Option<string>,
                                   yeaTotal: Option<nat>, nayTotal: Option<nat>)

  /** The `houseRollCallVote` record; `votePartyTotal` may be missing. */
  datatype RollCallVote = RollCallVote(startDate: Option<string>, actionDate: Option<string>,
                                       question: Option<string>, votePartyTotal: Option<seq<PartyTotal>>)

  datatype VoteResponse = VoteResponse(error: Option<string>, houseRollCallVote: Option<RollCallVote>)

  /** `x || 0` on a count. */
  function OrZero(x: Option<nat>): nat {
    if x.Some? then x.value else 0
  }

  /** The sums the loop accumulates, over the first `|parties|` entries. */
  function SumYeas(parties: seq<PartyTotal>): nat {
    if |parties| == 0 then 0 else SumYeas(parties[..|parties| - 1]) + OrZero(parties[|parties| - 1].yeaTotal)
  }

  function SumNays(parties: seq<PartyTotal>): nat {
    if |parties| == 0 then 0 else SumNays(parties[..|parties| - 1]) + OrZero(parties[|parties| - 1].nayTotal)
  }

  /** The `forEach` over the party totals. */
  method Tally(parties: seq<PartyTotal>) returns (totalYeas: nat, totalNays: nat)
    ensures totalYeas == SumYeas(parties) && totalNays == SumNays(parties)
  {
    totalYeas, totalNays := 0, 0;
    for i := 0 to |parties|
      invariant totalYeas == SumYeas(parties[..i]) && totalNays == SumNays(parties[..i])
    {
      assert parties[..i + 1][..i] == parties[..i];
      totalYeas := totalYeas + OrZero(parties[i].yeaTotal);
      totalNays := totalNays + OrZero(parties[i].nayTotal);
    }
    assert parties[..|parties|] == parties;
  }

  /** The sums split over a concatenation, so they do not depend on how the
      parties are grouped. */
  lemma {:induction false} SumsAppend(a: seq<PartyTotal>, b: seq<PartyTotal>)
    ensures SumYeas(a + b) == SumYeas(a) + SumYeas(b)
    ensures SumNays(a + b) == SumNays(a) + SumNays(b)
    decreases |b|
  {
    if |b| == 0 {
      assert a + b == a;
    } else {
      assert (a + b)[..|a + b| - 1] == a + b[..|b| - 1];
      SumsAppend(a, b[..|b| - 1]);
    }
  }

  /** Each party's count is part of the total, a missing count adding
      nothing. */
  lemma {:induction false} SumsBound(parties: seq<PartyTotal>, k: nat)
    requires k < |parties|
    ensures OrZero(parties[k].yeaTotal) <= SumYeas(parties)
    ensures OrZero(parties[k].nayTotal) <= SumNays(parties)
    ensures parties[k].yeaTotal.None? ==> SumYeas(parties) == SumYeas(parties[..k]) + SumYeas(parties[k + 1..])
  {
    assert parties == parties[..k] + [parties[k]] + parties[k + 1..];
    SumsAppend(parties[..k] + [parties[k]], parties[k + 1..]);
    SumsAppend(parties[..k], [parties[k]]);
    assert [parties[k]][..0] == [];
  }

  /** How `fetchRollCall` ends: the API's error message, the exception raised
      when the response has no vote record, or the totals. */
  datatype VoteOutcome = VoteError(message: string) | Thrown | Totals(yeas: nat, nays: nat)

  method FetchRollCall(data: VoteResponse) returns (r: VoteOutcome)
    ensures data.error.Some? ==> r == VoteError(data.error.value)
    ensures data.error.None? && data.houseRollCallVote.None? ==> r == Thrown
    ensures data.error.None? && data.houseRollCallVote.Some? ==>
      var parties := data.houseRollCallVote.value.votePartyTotal;
      r == Totals(SumYeas(if parties.Some? then parties.value else []),
                  SumNays(if parties.Some? then parties.value else []))
  {
    if data.error.Some? {
      return VoteError(data.error.value);
    }
    if data.houseRollCallVote.None? {
      return Thrown;
    }
    var vote := data.houseRollCallVote.value;
    var votePartyTotal := if vote.votePartyTotal.Some? then vote.votePartyTotal.value else [];
    var totalYeas, totalNays := Tally(votePartyTotal);
    r := Totals(totalYeas, totalNays);
  }
}
