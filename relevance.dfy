// Relevance scoring and the auto-add record of scripts/discover-bills.js.
// `scoreRelevance` walks eight rules in a fixed order; each rule that fires
// adds its weight to the score and one reason line. The rules are modelled as
// data, the rules that fire as `Triggered`, and
// the script's straight-line scoring as the method `ScoreRelevance`.

module Relevance {
  import opened Text
  import opened Seqs
  import opened Dataset
  import opened BillNumber
  import opened Candidates
  import opened DcPatterns
  import opened DiscoverBills

  /** The record `fetchCandidateDetails` returns for a bill. */
  datatype Details = Details(
    title: string,
    sponsors: seq<string>,
    latestAction: string,
    latestActionDate: Option<string>,
    introducedDate: Option<string>,
    committees: seq<string>,
    subjects: seq<string>,
    summary: string,
    cosponsorsCount: int,
    congressUrl: string)

  /** The scoring rules, in the order the script evaluates them. */
  datatype RuleKind =
    | TitleDistrict
    | TitleReference
    | SubjectDistrict
    | CommitteeReferral
    | SummaryMentions
    | HomeRule
    | NegativeSignal
    | MultiChannel

  /** A rule that fired: its weight and the reason line it pushes. */
  datatype Rule = Rule(kind: RuleKind, weight: int, reason: string)

  /** Committee name fragments that count as DC-relevant, lower case. */
  const DcCommitteeNames: seq<string> := ["oversight", "homeland security and governmental affairs", "hsgac"]

  /** `c.toLowerCase().includes(name)` for some DC committee name. */
  predicate DcCommittee(c: string) {
    exists i :: 0 <= i < |DcCommitteeNames| && Contains(Lower(c), DcCommitteeNames[i])
  }

  /** `subjects.some(s => /district\s+of\s+columbia/i.test(s))` */
  predicate SubjectNamesDistrict(subjects: seq<string>, pats: Patterns) {
    exists j :: 0 <= j < |subjects| && pats.districtOfColumbia(subjects[j])
  }

  /** `committees.some(c => dcCommitteeNames.some(...))` */
  predicate ReferredToDcCommittee(committees: seq<string>) {
    exists j :: 0 <= j < |committees| && DcCommittee(committees[j])
  }

  /** `DC_NEGATIVE_PATTERNS.some(p => p.test(title) || p.test(summary))` */
  predicate NegativeSignalIn(title: string, summary: string, pats: Patterns) {
    exists j :: 0 <= j < |pats.negative| && (pats.negative[j](title) || pats.negative[j](summary))
  }

  /** Total number of matches of the positive patterns in `s`, summed in
      pattern order. */
  function Mentions(counts: seq<string -> nat>, s: string): nat {
    if |counts| == 0 then 0 else Mentions(counts[..|counts| - 1], s) + counts[|counts| - 1](s)
  }

  /** `Math.min(mentions * 5, 20)` */
  function SummaryPoints(n: nat): (r: nat)
    ensures r <= 20 && r <= 5 * n
    ensures r == 20 || r == 5 * n
    ensures r > 0 <==> n > 0
  {
    if 5 * n < 20 then 5 * n else 20
  }

  /** The `else if` of the title rules: a DC abbreviation or "Washington,
      D.C." in a title that does not name the District in full. */
  predicate TitleRefersToDc(title: string, pats: Patterns) {
    !pats.districtOfColumbia(title) && (pats.dcAbbreviation(title) || pats.washingtonDc(title))
  }

  /** `/home\s+rule/i` in the summary or the title. */
  predicate MentionsHomeRule(title: string, summary: string, pats: Patterns) {
    pats.homeRule(summary) || pats.homeRule(title)
  }

  const TitleDistrictLine: string := "Title: \"District of Columbia\" (+30)"
  const TitleReferenceLine: string := "Title: DC reference (+20)"
  const SubjectLine: string := "Subject: \"District of Columbia\" (+25)"
  const CommitteeLine: string := "Committee: DC-relevant (+15)"
  const HomeRuleLine: string := "Mentions \"home rule\" (+15)"
  const NegativeLine: string := "Negative signal: likely not DC-targeted (-30)"

  /** `Summary: ${n} DC mentions (+${points})` */
  function SummaryLine(n: nat): string {
    "Summary: " + NatToString(n) + " DC mentions (+" + NatToString(SummaryPoints(n)) + ")"
  }

  /** `Multi-channel: ${n} sources (+5)` */
  function MultiChannelLine(n: nat): string {
    "Multi-channel: " + NatToString(n) + " sources (+5)"
  }

  /** `r` as a list when `fires`, nothing otherwise: what one rule
      contributes to the rules that fire. */
  function Opt(fires: bool, r: Rule): seq<Rule> {
    if fires then [r] else []
  }

  // Each rule of `scoreRelevance`, as the rules it fires: none, or itself.

  /** `/district\s+of\s+columbia/i` in the title: +30. */
  function TitleDistrictRule(d: Details, pats: Patterns): seq<Rule> {
    Opt(pats.districtOfColumbia(d.title), Rule(TitleDistrict, 30, TitleDistrictLine))
  }

  /** Otherwise a DC abbreviation or "Washington, D.C." in the title: +20. */
  function TitleReferenceRule(d: Details, pats: Patterns): seq<Rule> {
    Opt(TitleRefersToDc(d.title, pats), Rule(TitleReference, 20, TitleReferenceLine))
  }

  /** A subject naming the District: +25. */
  function SubjectRule(d: Details, pats: Patterns): seq<Rule> {
    Opt(SubjectNamesDistrict(d.subjects, pats), Rule(SubjectDistrict, 25, SubjectLine))
  }

  /** A referral to a DC-relevant committee: +15. */
  function CommitteeRule(d: Details): seq<Rule> {
    Opt(ReferredToDcCommittee(d.committees), Rule(CommitteeReferral, 15, CommitteeLine))
  }

  /** Positive-pattern matches in the summary: `min(5 * mentions, 20)`. */
  function SummaryRule(d: Details, pats: Patterns): seq<Rule> {
    var n := Mentions(pats.positiveCounts, d.summary);
    Opt(SummaryPoints(n) > 0, Rule(SummaryMentions, SummaryPoints(n), SummaryLine(n)))
  }

  /** "home rule" in the summary or the title: +15. */
  function HomeRuleMention(d: Details, pats: Patterns): seq<Rule> {
    Opt(MentionsHomeRule(d.title, d.summary, pats), Rule(HomeRule, 15, HomeRuleLine))
  }

  /** A negative pattern in the title or the summary: -30. */
  function NegativeRule(d: Details, pats: Patterns): seq<Rule> {
    Opt(NegativeSignalIn(d.title, d.summary, pats), Rule(NegativeSignal, -30, NegativeLine))
  }

  /** Found by more than one discovery channel: +5. */
  function MultiChannelRule(c: Candidate): seq<Rule> {
    Opt(|c.source| > 1, Rule(MultiChannel, 5, MultiChannelLine(|c.source|)))
  }

  /** The rules that fire for candidate `c` with details `d`, in evaluation
      order. */
  function Triggered(c: Candidate, d: Details, pats: Patterns): seq<Rule> {
    TitleDistrictRule(d, pats) + TitleReferenceRule(d, pats) + SubjectRule(d, pats) + CommitteeRule(d)
    + SummaryRule(d, pats) + HomeRuleMention(d, pats) + NegativeRule(d, pats) + MultiChannelRule(c)
  }

  /** The sum of the weights. */
  function Score(rules: seq<Rule>): int {
    if |rules| == 0 then 0 else Score(rules[..|rules| - 1]) + rules[|rules| - 1].weight
  }

  /** The reason lines, rule by rule. */
  function Reasons(rules: seq<Rule>): seq<string> {
    if |rules| == 0 then [] else Reasons(rules[..|rules| - 1]) + [rules[|rules| - 1].reason]
  }

  /** One reason line per rule, in the rules' order. */
  lemma {:induction false} ReasonsSpec(rules: seq<Rule>)
    ensures |Reasons(rules)| == |rules|
    ensures forall i :: 0 <= i < |rules| ==> Reasons(rules)[i] == rules[i].reason
  {
    if |rules| > 0 {
      ReasonsSpec(rules[..|rules| - 1]);
    }
  }

  /** The kinds of the rules, rule by rule. */
  function Kinds(rules: seq<Rule>): seq<RuleKind> {
    if |rules| == 0 then [] else Kinds(rules[..|rules| - 1]) + [rules[|rules| - 1].kind]
  }

  /** Score, reasons and kinds of two lists evaluated one after the other. */
  lemma {:induction false} ScoreAppend(a: seq<Rule>, b: seq<Rule>)
    ensures Score(a + b) == Score(a) + Score(b)
    ensures Reasons(a + b) == Reasons(a) + Reasons(b)
    ensures Kinds(a + b) == Kinds(a) + Kinds(b)
    decreases |b|
  {
    if |b| == 0 {
      assert a + b == a;
    } else {
      assert (a + b)[..|a + b| - 1] == a + b[..|b| - 1];
      ScoreAppend(a, b[..|b| - 1]);
    }
  }

  /** The score and the reasons of the fired rules, rule by rule. */
  lemma TriggeredSums(c: Candidate, d: Details, pats: Patterns)
    ensures Score(Triggered(c, d, pats))
      == Score(TitleDistrictRule(d, pats)) + Score(TitleReferenceRule(d, pats)) + Score(SubjectRule(d, pats))
         + Score(CommitteeRule(d)) + Score(SummaryRule(d, pats)) + Score(HomeRuleMention(d, pats))
         + Score(NegativeRule(d, pats)) + Score(MultiChannelRule(c))
    ensures Reasons(Triggered(c, d, pats))
      == Reasons(TitleDistrictRule(d, pats)) + Reasons(TitleReferenceRule(d, pats)) + Reasons(SubjectRule(d, pats))
         + Reasons(CommitteeRule(d)) + Reasons(SummaryRule(d, pats)) + Reasons(HomeRuleMention(d, pats))
         + Reasons(NegativeRule(d, pats)) + Reasons(MultiChannelRule(c))
  {
    var s := TitleDistrictRule(d, pats);
    ScoreAppend(s, TitleReferenceRule(d, pats)); s := s + TitleReferenceRule(d, pats);
    ScoreAppend(s, SubjectRule(d, pats)); s := s + SubjectRule(d, pats);
    ScoreAppend(s, CommitteeRule(d)); s := s + CommitteeRule(d);
    ScoreAppend(s, SummaryRule(d, pats)); s := s + SummaryRule(d, pats);
    ScoreAppend(s, HomeRuleMention(d, pats)); s := s + HomeRuleMention(d, pats);
    ScoreAppend(s, NegativeRule(d, pats)); s := s + NegativeRule(d, pats);
    ScoreAppend(s, MultiChannelRule(c));
  }

  // ------------------------------------------------------------------
  // Scoring
  // ------------------------------------------------------------------

  /** One `if (...) { score += weight; reasons.push(line); }` of
      `scoreRelevance`, for a rule that fired (`fired == [r]`) or did not
      (`fired == []`). */
  method Award(score: int, reasons: seq<string>, fired: seq<Rule>) returns (score': int, reasons': seq<string>)
    requires |fired| <= 1
    ensures score' == score + Score(fired)
    ensures reasons' == reasons + Reasons(fired)
  {
    score', reasons' := score, reasons;
    if |fired| == 1 {
      assert fired[..0] == [];
      score' := score' + fired[0].weight;
      reasons' := reasons' + [fired[0].reason];
    } else {
      assert reasons + [] == reasons;
    }
  }

  /** `scoreRelevance`: each rule in turn adds its weight and its reason
      line when its condition holds; the summary mentions are counted
      pattern by pattern. The score is the sum of the weights of
      the rules that fire and the reasons are their lines, in evaluation
      order. */
  method ScoreRelevance(c: Candidate, d: Details, pats: Patterns) returns (score: int, reasons: seq<string>)
    ensures score == Score(Triggered(c, d, pats))
    ensures reasons == Reasons(Triggered(c, d, pats))
  {
    score, reasons := Award(0, [], TitleDistrictRule(d, pats));
    assert [] + Reasons(TitleDistrictRule(d, pats)) == Reasons(TitleDistrictRule(d, pats));
    score, reasons := Award(score, reasons, TitleReferenceRule(d, pats));
    score, reasons := Award(score, reasons, SubjectRule(d, pats));
    score, reasons := Award(score, reasons, CommitteeRule(d));
    var mentions := CountMentions(pats.positiveCounts, d.summary);
    var summaryScore := SummaryPoints(mentions);
    score, reasons := Award(score, reasons, Opt(summaryScore > 0, Rule(SummaryMentions, summaryScore, SummaryLine(mentions))));
    assert Opt(summaryScore > 0, Rule(SummaryMentions, summaryScore, SummaryLine(mentions))) == SummaryRule(d, pats);
    score, reasons := Award(score, reasons, HomeRuleMention(d, pats));
    score, reasons := Award(score, reasons, NegativeRule(d, pats));
    score, reasons := Award(score, reasons, MultiChannelRule(c));
    TriggeredSums(c, d, pats);
  }

  /** The loop over the positive patterns summing their match counts. */
  method CountMentions(counts: seq<string -> nat>, s: string) returns (n: nat)
    ensures n == Mentions(counts, s)
  {
    n := 0;
    var i := 0;
    while i < |counts|
      invariant 0 <= i <= |counts|
      invariant n == Mentions(counts[..i], s)
    {
      assert counts[..i + 1][..i] == counts[..i];
      n := n + counts[i](s);
      i := i + 1;
    }
    assert counts[..|counts|] == counts;
  }

  // ------------------------------------------------------------------
  // Properties of the rules that fire
  // ------------------------------------------------------------------

  /** The kinds of the rules in the order `scoreRelevance` evaluates them. */
  const EvaluationOrder: seq<RuleKind> :=
    [TitleDistrict, TitleReference, SubjectDistrict, CommitteeReferral, SummaryMentions, HomeRule, NegativeSignal, MultiChannel]

  /** A single rule adds its weight when it fires and nothing otherwise. */
  lemma OptScore(fires: bool, r: Rule)
    ensures Score(Opt(fires, r)) == (if fires then r.weight else 0)
  {
    if fires {
      assert [r][..0] == [];
    }
  }

  /** A single rule contributes its own kind when it fires, and nothing
      otherwise. */
  lemma OptKinds(fires: bool, r: Rule)
    ensures Kinds(Opt(fires, r)) == (if fires then [r.kind] else [])
  {
    if fires {
      assert [r][..0] == [];
    }
  }

  /** The kinds of eight lists of rules, list by list. */
  lemma KindsEight(a1: seq<Rule>, a2: seq<Rule>, a3: seq<Rule>, a4: seq<Rule>,
                   a5: seq<Rule>, a6: seq<Rule>, a7: seq<Rule>, a8: seq<Rule>)
    ensures Kinds(a1 + a2 + a3 + a4 + a5 + a6 + a7 + a8)
      == Kinds(a1) + Kinds(a2) + Kinds(a3) + Kinds(a4) + Kinds(a5) + Kinds(a6) + Kinds(a7) + Kinds(a8)
  {
    ScoreAppend(a1, a2);
    ScoreAppend(a1 + a2, a3);
    ScoreAppend(a1 + a2 + a3, a4);
    ScoreAppend(a1 + a2 + a3 + a4, a5);
    ScoreAppend(a1 + a2 + a3 + a4 + a5, a6);
    ScoreAppend(a1 + a2 + a3 + a4 + a5 + a6, a7);
    ScoreAppend(a1 + a2 + a3 + a4 + a5 + a6 + a7, a8);
  }

  /** A rule that may fire contributes at most its own kind. */
  lemma OptOrder(fires: bool, r: Rule)
    ensures SubsequenceOf(Kinds(Opt(fires, r)), [r.kind])
  {
    OptKinds(fires, r);
    if fires {
      assert [r.kind][..0] == [];
    }
  }

  /** Eight rules that may fire, one of each kind in evaluation order, fire
      in that order. */
  lemma OrderedRules(b1: bool, r1: Rule, b2: bool, r2: Rule, b3: bool, r3: Rule, b4: bool, r4: Rule,
                     b5: bool, r5: Rule, b6: bool, r6: Rule, b7: bool, r7: Rule, b8: bool, r8: Rule)
    requires [r1.kind, r2.kind, r3.kind, r4.kind, r5.kind, r6.kind, r7.kind, r8.kind] == EvaluationOrder
    ensures SubsequenceOf(Kinds(Opt(b1, r1) + Opt(b2, r2) + Opt(b3, r3) + Opt(b4, r4)
                                + Opt(b5, r5) + Opt(b6, r6) + Opt(b7, r7) + Opt(b8, r8)), EvaluationOrder)
  {
    KindsEight(Opt(b1, r1), Opt(b2, r2), Opt(b3, r3), Opt(b4, r4), Opt(b5, r5), Opt(b6, r6), Opt(b7, r7), Opt(b8, r8));
    OptOrder(b1, r1); OptOrder(b2, r2); OptOrder(b3, r3); OptOrder(b4, r4);
    OptOrder(b5, r5); OptOrder(b6, r6); OptOrder(b7, r7); OptOrder(b8, r8);
    var ks, order := Kinds(Opt(b1, r1)), [r1.kind];
    SubsequenceConcat(ks, order, Kinds(Opt(b2, r2)), [r2.kind]);
    ks, order := ks + Kinds(Opt(b2, r2)), order + [r2.kind];
    SubsequenceConcat(ks, order, Kinds(Opt(b3, r3)), [r3.kind]);
    ks, order := ks + Kinds(Opt(b3, r3)), order + [r3.kind];
    SubsequenceConcat(ks, order, Kinds(Opt(b4, r4)), [r4.kind]);
    ks, order := ks + Kinds(Opt(b4, r4)), order + [r4.kind];
    SubsequenceConcat(ks, order, Kinds(Opt(b5, r5)), [r5.kind]);
    ks, order := ks + Kinds(Opt(b5, r5)), order + [r5.kind];
    SubsequenceConcat(ks, order, Kinds(Opt(b6, r6)), [r6.kind]);
    ks, order := ks + Kinds(Opt(b6, r6)), order + [r6.kind];
    SubsequenceConcat(ks, order, Kinds(Opt(b7, r7)), [r7.kind]);
    ks, order := ks + Kinds(Opt(b7, r7)), order + [r7.kind];
    SubsequenceConcat(ks, order, Kinds(Opt(b8, r8)), [r8.kind]);
    assert order + [r8.kind] == EvaluationOrder;
  }

  /** `scoreRelevance` evaluates the rules in a fixed order, so the rules
      that fire come in that order, each at most once. */
  lemma TriggeredOrder(c: Candidate, d: Details, pats: Patterns)
    ensures SubsequenceOf(Kinds(Triggered(c, d, pats)), EvaluationOrder)
  {
    var n := Mentions(pats.positiveCounts, d.summary);
    OrderedRules(
      pats.districtOfColumbia(d.title), Rule(TitleDistrict, 30, TitleDistrictLine),
      TitleRefersToDc(d.title, pats), Rule(TitleReference, 20, TitleReferenceLine),
      SubjectNamesDistrict(d.subjects, pats), Rule(SubjectDistrict, 25, SubjectLine),
      ReferredToDcCommittee(d.committees), Rule(CommitteeReferral, 15, CommitteeLine),
      SummaryPoints(n) > 0, Rule(SummaryMentions, SummaryPoints(n), SummaryLine(n)),
      MentionsHomeRule(d.title, d.summary, pats), Rule(HomeRule, 15, HomeRuleLine),
      NegativeSignalIn(d.title, d.summary, pats), Rule(NegativeSignal, -30, NegativeLine),
      |c.source| > 1, Rule(MultiChannel, 5, MultiChannelLine(|c.source|)));
  }

  /** A single rule's kinds hold a kind exactly when the rule fires with
      that kind. */
  lemma OptHas(fires: bool, r: Rule)
    ensures forall x :: x in Kinds(Opt(fires, r)) <==> fires && x == r.kind
  {
    OptKinds(fires, r);
  }

  /** Of eight rules that may fire, one of each kind in evaluation order,
      each kind is among those that fire exactly when its own rule fires. */
  lemma FiredEach(b1: bool, r1: Rule, b2: bool, r2: Rule, b3: bool, r3: Rule, b4: bool, r4: Rule,
                  b5: bool, r5: Rule, b6: bool, r6: Rule, b7: bool, r7: Rule, b8: bool, r8: Rule)
    requires r1.kind == TitleDistrict && r2.kind == TitleReference && r3.kind == SubjectDistrict
    requires r4.kind == CommitteeReferral && r5.kind == SummaryMentions && r6.kind == HomeRule
    requires r7.kind == NegativeSignal && r8.kind == MultiChannel
    ensures var ks := Kinds(Opt(b1, r1) + Opt(b2, r2) + Opt(b3, r3) + Opt(b4, r4)
                            + Opt(b5, r5) + Opt(b6, r6) + Opt(b7, r7) + Opt(b8, r8));
      (TitleDistrict in ks <==> b1) && (TitleReference in ks <==> b2) && (SubjectDistrict in ks <==> b3)
      && (CommitteeReferral in ks <==> b4) && (SummaryMentions in ks <==> b5) && (HomeRule in ks <==> b6)
      && (NegativeSignal in ks <==> b7) && (MultiChannel in ks <==> b8)
  {
    KindsEight(Opt(b1, r1), Opt(b2, r2), Opt(b3, r3), Opt(b4, r4), Opt(b5, r5), Opt(b6, r6), Opt(b7, r7), Opt(b8, r8));
    OptHas(b1, r1); OptHas(b2, r2); OptHas(b3, r3); OptHas(b4, r4);
    OptHas(b5, r5); OptHas(b6, r6); OptHas(b7, r7); OptHas(b8, r8);
    MemberEach(b1, b2, b3, b4, b5, b6, b7, b8,
      Kinds(Opt(b1, r1)), Kinds(Opt(b2, r2)), Kinds(Opt(b3, r3)), Kinds(Opt(b4, r4)),
      Kinds(Opt(b5, r5)), Kinds(Opt(b6, r6)), Kinds(Opt(b7, r7)), Kinds(Opt(b8, r8)));
  }

  /** Eight lists holding at most the kinds of the eight rules, in order:
      each kind is in their concatenation exactly when it is in its own
      list. */
  lemma MemberEach(b1: bool, b2: bool, b3: bool, b4: bool, b5: bool, b6: bool, b7: bool, b8: bool,
                   k1: seq<RuleKind>, k2: seq<RuleKind>, k3: seq<RuleKind>, k4: seq<RuleKind>,
                   k5: seq<RuleKind>, k6: seq<RuleKind>, k7: seq<RuleKind>, k8: seq<RuleKind>)
    requires forall x :: x in k1 <==> b1 && x == TitleDistrict
    requires forall x :: x in k2 <==> b2 && x == TitleReference
    requires forall x :: x in k3 <==> b3 && x == SubjectDistrict
    requires forall x :: x in k4 <==> b4 && x == CommitteeReferral
    requires forall x :: x in k5 <==> b5 && x == SummaryMentions
    requires forall x :: x in k6 <==> b6 && x == HomeRule
    requires forall x :: x in k7 <==> b7 && x == NegativeSignal
    requires forall x :: x in k8 <==> b8 && x == MultiChannel
    ensures var ks := k1 + k2 + k3 + k4 + k5 + k6 + k7 + k8;
      (TitleDistrict in ks <==> b1) && (TitleReference in ks <==> b2) && (SubjectDistrict in ks <==> b3)
      && (CommitteeReferral in ks <==> b4) && (SummaryMentions in ks <==> b5) && (HomeRule in ks <==> b6)
      && (NegativeSignal in ks <==> b7) && (MultiChannel in ks <==> b8)
  {
    forall x ensures x in k1 + k2 + k3 + k4 + k5 + k6 + k7 + k8
      <==> x in k1 || x in k2 || x in k3 || x in k4 || x in k5 || x in k6 || x in k7 || x in k8
    {
      InParts(x, k1 + k2 + k3 + k4 + k5 + k6 + k7 + k8, k1, k2, k3, k4, k5, k6, k7, k8);
    }
  }

  /** Membership in a concatenation of eight lists. */
  lemma InParts(x: RuleKind, ks: seq<RuleKind>, k1: seq<RuleKind>, k2: seq<RuleKind>, k3: seq<RuleKind>, k4: seq<RuleKind>,
                k5: seq<RuleKind>, k6: seq<RuleKind>, k7: seq<RuleKind>, k8: seq<RuleKind>)
    requires ks == k1 + k2 + k3 + k4 + k5 + k6 + k7 + k8
    ensures x in ks <==> x in k1 || x in k2 || x in k3 || x in k4 || x in k5 || x in k6 || x in k7 || x in k8
  {
  }

  /** A rule is among the fired ones exactly when its condition holds; in
      particular the summary rule fires iff some positive pattern matched the
      summary, the `-30` signal iff some negative pattern matches the title
      or the summary, and the multi-channel bonus iff the candidate came from
      more than one channel. */
  lemma TriggeredSpec(c: Candidate, d: Details, pats: Patterns)
    ensures var ks := Kinds(Triggered(c, d, pats));
      (TitleDistrict in ks <==> pats.districtOfColumbia(d.title))
      && (TitleReference in ks <==> !pats.districtOfColumbia(d.title)
                                    && (pats.dcAbbreviation(d.title) || pats.washingtonDc(d.title)))
      && (SubjectDistrict in ks <==> SubjectNamesDistrict(d.subjects, pats))
      && (CommitteeReferral in ks <==> ReferredToDcCommittee(d.committees))
      && (SummaryMentions in ks <==> Mentions(pats.positiveCounts, d.summary) > 0)
      && (HomeRule in ks <==> MentionsHomeRule(d.title, d.summary, pats))
      && (NegativeSignal in ks <==> NegativeSignalIn(d.title, d.summary, pats))
      && (MultiChannel in ks <==> |c.source| > 1)
  {
    var n := Mentions(pats.positiveCounts, d.summary);
    var b1, b2, b3, b4 := pats.districtOfColumbia(d.title), TitleRefersToDc(d.title, pats), SubjectNamesDistrict(d.subjects, pats), ReferredToDcCommittee(d.committees);
    var b5, b6, b7, b8 := SummaryPoints(n) > 0, MentionsHomeRule(d.title, d.summary, pats), NegativeSignalIn(d.title, d.summary, pats), |c.source| > 1;
    var r1, r2, r3, r4 := Rule(TitleDistrict, 30, TitleDistrictLine), Rule(TitleReference, 20, TitleReferenceLine), Rule(SubjectDistrict, 25, SubjectLine), Rule(CommitteeReferral, 15, CommitteeLine);
    var r5, r6, r7, r8 := Rule(SummaryMentions, SummaryPoints(n), SummaryLine(n)), Rule(HomeRule, 15, HomeRuleLine), Rule(NegativeSignal, -30, NegativeLine), Rule(MultiChannel, 5, MultiChannelLine(|c.source|));
    FiredEach(b1, r1, b2, r2, b3, r3, b4, r4, b5, r5, b6, r6, b7, r7, b8, r8);
  }

  /** The two title rules never both fire. */
  lemma TitleRulesExclusive(c: Candidate, d: Details, pats: Patterns)
    ensures !(TitleDistrict in Kinds(Triggered(c, d, pats)) && TitleReference in Kinds(Triggered(c, d, pats)))
  {
    TriggeredSpec(c, d, pats);
  }

  /** The score lies between -30 (only the negative signal) and 110 (every
      positive rule with the larger title weight and a capped summary). */
  lemma ScoreBounds(c: Candidate, d: Details, pats: Patterns)
    ensures -30 <= Score(Triggered(c, d, pats)) <= 110
  {
    var n := Mentions(pats.positiveCounts, d.summary);
    TriggeredSums(c, d, pats);
    OptScore(pats.districtOfColumbia(d.title), Rule(TitleDistrict, 30, TitleDistrictLine));
    OptScore(TitleRefersToDc(d.title, pats), Rule(TitleReference, 20, TitleReferenceLine));
    OptScore(SubjectNamesDistrict(d.subjects, pats), Rule(SubjectDistrict, 25, SubjectLine));
    OptScore(ReferredToDcCommittee(d.committees), Rule(CommitteeReferral, 15, CommitteeLine));
    OptScore(SummaryPoints(n) > 0, Rule(SummaryMentions, SummaryPoints(n), SummaryLine(n)));
    OptScore(MentionsHomeRule(d.title, d.summary, pats), Rule(HomeRule, 15, HomeRuleLine));
    OptScore(NegativeSignalIn(d.title, d.summary, pats), Rule(NegativeSignal, -30, NegativeLine));
    OptScore(|c.source| > 1, Rule(MultiChannel, 5, MultiChannelLine(|c.source|)));
  }

  // ------------------------------------------------------------------
  // The auto-add record
  // ------------------------------------------------------------------

  /** Longest summary copied into a description, before `...`. */
  const SummaryLimit: nat := 300

  /** `typeSlugMap[billType] || billType` */
  function TypeSlug(billType: string): (r: string)
    ensures forall a :: 0 <= a < |Codes| && billType == Codes[a] ==> r == SlugTable[a]
    ensures billType !in Codes ==> r == billType
  {
    if billType == "hr" then "house-bill"
    else if billType == "s" then "senate-bill"
    else if billType == "hjres" then "house-joint-resolution"
    else if billType == "sjres" then "senate-joint-resolution"
    else if billType == "hconres" then "house-concurrent-resolution"
    else if billType == "sconres" then "senate-concurrent-resolution"
    else billType
  }

  /** The congress.gov path segment of each code of `Codes`, index for index. */
  const SlugTable: seq<string> := ["house-bill", "senate-bill", "house-joint-resolution",
                                   "senate-joint-resolution", "house-concurrent-resolution",
                                   "senate-concurrent-resolution"]

  /** The description of an auto-added bill: a fixed lead, then the summary
      when there is one, cut to 300 characters followed by `...` when longer. */
  function Description(summary: string): string {
    if summary == "" then "Auto-discovered."
    else if |summary| > SummaryLimit then "Auto-discovered. " + summary[..SummaryLimit] + "..."
    else "Auto-discovered. " + summary
  }

  /** The congress.gov page of a bill of the current congress. */
  function CongressLink(billType: string, number: string): string {
    "https://www.congress.gov/bill/" + NatToString(CongressNumber) + "th-congress/" + TypeSlug(billType) + "/" + number
  }

  /** For each known code, the link names the 119th congress and the code's
      path segment. */
  lemma CongressLinkSpec(a: nat, number: string)
    requires a < |Codes|
    ensures CongressLink(Codes[a], number) == "https://www.congress.gov/bill/119th-congress/" + SlugTable[a] + "/" + number
  {
    assert NatToString(CongressNumber) == "119" by {
      assert NatToString(11) == "11" by { assert NatToString(1) == "1"; }
    }
    assert TypeSlug(Codes[a]) == SlugTable[a];
    assert "https://www.congress.gov/bill/" + "119" + "th-congress/" == "https://www.congress.gov/bill/119th-congress/";
  }

  /** `buildBillEntry`, with the run date `today` as a parameter. */
  function BuildBillEntry(billType: string, number: string, d: Details, score: int, today: string): Bill {
    Bill(
      id := NormalizeBillId(billType, number),
      billNumbers := [FormatBillType(billType) + " " + number],
      title := if d.title != "" then d.title else "Unknown Title",
      description := Description(d.summary),
      sponsors := d.sponsors,
      category := "other",
      position := Some("oppose"),
      kind := Some("bill"),
      priority := Some("watching"),
      prioritySource := Some("auto-discovered"),
      highlight := None,
      fiscalYear := None,
      provisional := true,
      status := Some(Status(
        stage := None,
        lastAction := Some(if d.latestAction != "" then d.latestAction else "Unknown"),
        lastActionDate := Some(OrElse(d.latestActionDate, today)),
        hasCommitteeHearing := false,
        hasCommitteeMarkup := false,
        hasFloorVote := false,
        cosponsors := d.cosponsorsCount,
        committees := d.committees)),
      autoDiscovered := true,
      discoveredDate := Some(today),
      relevanceScore := Some(score),
      congressGovLink := Some(CongressLink(billType, number)),
      attackType := Some("unknown"))
  }

  /** The description keeps at most 300 characters of the summary: it is the
      lead alone when the summary is empty, and otherwise the lead, a space
      and either the whole summary or its first 300 characters and `...`. */
  lemma DescriptionSpec(summary: string)
    ensures var r := Description(summary);
      StartsWith(r, "Auto-discovered.")
      && |r| <= |"Auto-discovered. "| + SummaryLimit + 3
      && (summary == "" <==> r == "Auto-discovered.")
      && (summary != "" ==> r[|"Auto-discovered."|] == ' ')
      && (0 < |summary| <= SummaryLimit ==> r[|"Auto-discovered. "|..] == summary)
      && (|summary| > SummaryLimit ==> r[|"Auto-discovered. "|..] == summary[..SummaryLimit] + "...")
  {
    var lead := "Auto-discovered. ";
    var r := Description(summary);
    assert r[..|"Auto-discovered."|] == "Auto-discovered.";
    if summary != "" {
      assert |r| > |"Auto-discovered."|;
      assert r[|lead|..] == (if |summary| > SummaryLimit then summary[..SummaryLimit] + "..." else summary);
    }
  }

  /** An auto-added record is a provisional, auto-discovered watch item
      opposing the bill, with no stage, no hearing, markup or floor vote yet,
      scored as given; its one bill number is the display form, which parses
      back to the record's own id for each of the six known codes. */
  lemma BuildBillEntrySpec(a: nat, number: string, d: Details, score: int, today: string)
    requires a < |Codes| && |number| > 0 && AllDigits(number)
    ensures var b := BuildBillEntry(Codes[a], number, d, score, today);
      b.id == Codes[a] + number
      && |b.billNumbers| == 1
      && ParseBillNumber(b.billNumbers[0]) == Some(Parsed(Codes[a], number))
      && NormalizeBillId(ParseBillNumber(b.billNumbers[0]).value.billType,
                         ParseBillNumber(b.billNumbers[0]).value.number) == b.id
      && b.provisional && b.autoDiscovered && b.relevanceScore == Some(score)
      && b.status.Some? && b.status.value.stage.None?
      && !b.status.value.hasCommitteeHearing && !b.status.value.hasCommitteeMarkup && !b.status.value.hasFloorVote
      && b.congressGovLink == Some("https://www.congress.gov/bill/119th-congress/" + SlugTable[a] + "/" + number)
  {
    FormatParseRoundTrip(a, number);
    CongressLinkSpec(a, number);
  }
}
