// scripts/debug-vote.js: for one bill's actions, the passage-related
// actions with the roll number each yields, and every action whose text
// mentions "roll" in any case. The roll-number extraction is the same
// regex as in scripts/debug-rollcall.js and is shared with that model.

module DebugVote {
  import opened Text
  import opened Seqs
  import opened Scan
  import RollCall

  /** The passage filter of `debugBill`: four phrases, case-sensitive. */
  predicate IsVotePassage(a: RollCall.CongressAction) {
    Truthy(a.text) && (
      || Contains(a.text.value, "On passage Passed")
      || Contains(a.text.value, "Passed House")
      || Contains(a.text.value, "Passed by recorded vote")
      || Contains(a.text.value, "Passed by the Yeas and Nays"))
  }

  /** The "roll" listing's test: the lower-cased text contains `roll`. */
  predicate MentionsRoll(a: RollCall.CongressAction) {
    Truthy(a.text) && Contains(Lower(a.text.value), "roll")
  }

  /** How `debugBill` ends: an error message, no actions, or the passage
      actions with their roll numbers followed by the "roll" listing. */
  datatype Outcome = ApiError(message: string) | NoActions
                   | Report(passage: seq<RollCall.Extracted>, rollMentions: seq<RollCall.CongressAction>)

  function DebugBill(data: RollCall.ActionsResponse): Outcome {
    if data.error.Some? then ApiError(data.error.value)
    else if data.actions.None? then NoActions
    else
      var actions := data.actions.value;
      Report(Map(Filter(actions, IsVotePassage), RollCall.ExtractFrom), Filter(actions, MentionsRoll))
  }

  /** Both listings keep the order of the actions and keep exactly the
      actions that pass their test; an error payload or a missing list ends
      the run before either is computed. */
  lemma DebugBillSpec(data: RollCall.ActionsResponse)
    ensures data.error.Some? ==> DebugBill(data) == ApiError(data.error.value)
    ensures DebugBill(data).NoActions? <==> data.error.None? && data.actions.None?
    ensures DebugBill(data).Report? ==>
      var actions, out := data.actions.value, DebugBill(data);
      && SubsequenceOf(out.rollMentions, actions)
      && (forall a :: a in out.rollMentions <==> a in actions && MentionsRoll(a))
      && |out.passage| == |Filter(actions, IsVotePassage)|
      && SubsequenceOf(Filter(actions, IsVotePassage), actions)
      && (forall k :: 0 <= k < |out.passage| ==>
            var a := Filter(actions, IsVotePassage)[k];
            && out.passage[k] == RollCall.Extracted(a, RollCall.ExtractRollCall(a.text.value))
            && IsVotePassage(a))
  {
    if data.error.None? && data.actions.Some? {
      var actions := data.actions.value;
      FilterIsSubsequence(actions, IsVotePassage);
      FilterIsSubsequence(actions, MentionsRoll);
      PassageEntries(Filter(actions, IsVotePassage));
    }
  }

  lemma PassageEntries(passage: seq<RollCall.CongressAction>)
    ensures forall k :: 0 <= k < |passage| ==> Map(passage, RollCall.ExtractFrom)[k] == RollCall.ExtractFrom(passage[k])
  {
    forall k | 0 <= k < |passage| ensures Map(passage, RollCall.ExtractFrom)[k] == RollCall.ExtractFrom(passage[k]) {
      MapIndex(passage, RollCall.ExtractFrom, k);
    }
  }

  /** Every passage action of this script mentions `Passed`; the older
      filter of scripts/debug-rollcall.js keeps it too, unless its text also
      says `Passed/agreed to in House` without either of that filter's two
      explicit phrases. */
  lemma VotePassageWithinRollCallFilter(a: RollCall.CongressAction)
    requires IsVotePassage(a)
    ensures Contains(a.text.value, "Passed")
    ensures RollCall.IsPassageAction(a) || Contains(a.text.value, "Passed/agreed to in House")
  {
    var t := a.text.value;
    RollCall.PassageActionIff(a);
    if Contains(t, "On passage Passed") {
      assert "On passage Passed"[11..17] == "Passed";
      RollCall.ContainsWithin(t, "On passage Passed", "Passed", 11);
    } else if Contains(t, "Passed House") {
      assert "Passed House"[0..6] == "Passed";
      RollCall.ContainsWithin(t, "Passed House", "Passed", 0);
    } else if Contains(t, "Passed by recorded vote") {
      assert "Passed by recorded vote"[0..6] == "Passed";
      RollCall.ContainsWithin(t, "Passed by recorded vote", "Passed", 0);
    } else {
      assert "Passed by the Yeas and Nays"[0..6] == "Passed";
      RollCall.ContainsWithin(t, "Passed by the Yeas and Nays", "Passed", 0);
    }
  }

  /** An action whose roll number came from the `Roll no.` alternative is
      in the "roll" listing: the alternative matches case-insensitively,
      and its lower-cased text starts with `roll`. */
  lemma RollNumberMentionsRoll(a: RollCall.CongressAction)
    requires Truthy(a.text)
    requires var r := Search(a.text.value, RollCall.RollAlts); r.Some? && r.value.alt == 0
    ensures MentionsRoll(a)
  {
    var s := a.text.value;
    SearchSpec(s, RollCall.RollAlts);
    var m := Search(s, RollCall.RollAlts).value;
    assert AltMatchesAt(s, m.start, RollCall.RollAlts[0]);
    RollAt(s, m.start, RollCall.RollAlts[0]);
  }

  /** Where `Roll no.` matches in any case, the lower-cased text has `roll`. */
  lemma RollAt(s: string, i: nat, lit: string)
    requires lit == RollCall.RollAlts[0] && LiteralAt(s, i, lit)
    ensures Contains(Lower(s), "roll")
  {
    LiteralFromIff(s, i, lit, 0);
    var low := Lower(s);
    assert lit[0] == 'R' && lit[1] == 'o' && lit[2] == 'l' && lit[3] == 'l';
    assert LowerChar('R') == 'r';
    forall k | 0 <= k < 4 ensures low[i + k] == "roll"[k] {
      assert LowerChar(s[i + k]) == LowerChar(lit[k]);
    }
    assert low[i..i + 4] == "roll";
    ContainsOfOccurrence(low, "roll", i);
  }
}
