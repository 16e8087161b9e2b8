// scripts/monitor-bills.js: for each tracked bill, parse its first bill
// number (with the chamber), read the bill, its actions and its cosponsor
// count from the API, derive activity flags, a simplified status and a
// priority, and record either a change or an error; then append the run to
// a history capped at 30 entries. The API and the history file are inputs
// (`StatusFetch`, `previous`); the clock is the `timestamp` argument.

module Monitor {
  import opened Text
  import opened Scan
  import opened Dataset
  import opened BillNumber

  // ------------------------------------------------------------------
  // parseBillNumber with the chamber
  // ------------------------------------------------------------------

  datatype ChamberParsed = ChamberParsed(billType: string, number: string, chamber: string)

  /** The monitor's cascade on the lower-cased prefix: the same tests as the
      discovery script's, also naming the chamber. */
  function ClassifyWithChamber(t: string): (string, string) {
    if Contains(t, "h.r.") then ("hr", "house")
    else if Contains(t, "s.") && !Contains(t, "res") then ("s", "senate")
    else if Contains(t, "h.j.res") then ("hjres", "house")
    else if Contains(t, "s.j.res") then ("sjres", "senate")
    else if Contains(t, "h.con.res") then ("hconres", "house")
    else if Contains(t, "s.con.res") then ("sconres", "senate")
    else ("", "")
  }

  /** The chamber a bill type belongs to. */
  function ChamberOf(code: string): string {
    if code == "hr" || code == "hjres" || code == "hconres" then "house"
    else if code == "s" || code == "sjres" || code == "sconres" then "senate"
    else ""
  }

  /** On every text the monitor's cascade picks the discovery script's code,
      and the chamber of that code. */
  lemma ClassifyWithChamberAgrees(t: string)
    ensures ClassifyWithChamber(t).0 == Classify(t)
    ensures ClassifyWithChamber(t).1 == ChamberOf(Classify(t))
  {
  }

  /** `parseBillNumber` of scripts/monitor-bills.js (and of
      scripts/test-monitor.js, which has the same text). */
  function ParseWithChamber(s: string): Option<ChamberParsed> {
    match Search(s, Prefixes)
    case None => None
    case Some(m) =>
      var (t, chamber) := ClassifyWithChamber(Lower(m.text));
      Some(ChamberParsed(t, m.digits, chamber))
  }

  /** The monitor's parser fails exactly when the discovery script's does,
      and otherwise agrees with it on type and number; the chamber is the
      house for hr, hjres and hconres and the senate for s, sjres and
      sconres. */
  lemma ParseWithChamberSpec(s: string)
    ensures ParseWithChamber(s).None? <==> ParseBillNumber(s).None?
    ensures ParseWithChamber(s).Some? ==>
      var p, q := ParseWithChamber(s).value, ParseBillNumber(s).value;
      && p.billType == q.billType && p.number == q.number
      && (p.chamber == "house" <==> p.billType in ["hr", "hjres", "hconres"])
      && (p.chamber == "senate" <==> p.billType in ["s", "sjres", "sconres"])
  {
    var r := Search(s, Prefixes);
    if r.Some? {
      var q := ParseBillNumber(s);
      assert q.value.billType == Classify(Lower(r.value.text));
      ClassifyWithChamberAgrees(Lower(r.value.text));
    }
  }

  // ------------------------------------------------------------------
  // Activity flags from the action list
  // ------------------------------------------------------------------

  /** An entry of the API's `actions` list; either field may be missing. */
  datatype Action = Action(text: Option<string>, kind: Option<string>)

  function TextOf(a: Action): string {
    Lower(OrElse(a.text, ""))
  }

  predicate HearingAction(a: Action) {
    Contains(TextOf(a), "hearing") || Contains(Lower(OrElse(a.kind, "")), "hearing")
  }

  predicate MarkupAction(a: Action) {
    Contains(TextOf(a), "markup") || Contains(TextOf(a), "ordered to be reported")
  }

  predicate FloorAction(a: Action) {
    || Contains(TextOf(a), "floor") || Contains(TextOf(a), "vote")
    || Contains(TextOf(a), "passed") || Contains(TextOf(a), "failed")
  }

  datatype Flags = Flags(hearing: bool, markup: bool, floorVote: bool)

  /** Whether some action satisfies `p`, scanning left to right. */
  function Seen(actions: seq<Action>, p: Action -> bool): bool {
    if |actions| == 0 then false
    else Seen(actions[..|actions| - 1], p) || p(actions[|actions| - 1])
  }

  /** The flags after the `forEach` over `actions`: each is set once any
      action shows it and never cleared. */
  function FlagsOf(actions: seq<Action>): Flags {
    Flags(Seen(actions, HearingAction), Seen(actions, MarkupAction), Seen(actions, FloorAction))
  }

  /** The `forEach` over the actions. */
  method AnalyzeActions(actions: seq<Action>) returns (f: Flags)
    ensures f == FlagsOf(actions)
  {
    var hasCommitteeHearing, hasCommitteeMarkup, hasFloorVote := false, false, false;
    var i := 0;
    while i < |actions|
      invariant 0 <= i <= |actions|
      invariant Flags(hasCommitteeHearing, hasCommitteeMarkup, hasFloorVote) == FlagsOf(actions[..i])
    {
      var action := actions[i];
      assert actions[..i + 1][..i] == actions[..i];
      var actionText := Lower(OrElse(action.text, ""));
      var actionType := Lower(OrElse(action.kind, ""));
      if Contains(actionText, "hearing") || Contains(actionType, "hearing") {
        hasCommitteeHearing := true;
      }
      if Contains(actionText, "markup") || Contains(actionText, "ordered to be reported") {
        hasCommitteeMarkup := true;
      }
      if Contains(actionText, "floor") || Contains(actionText, "vote")
         || Contains(actionText, "passed") || Contains(actionText, "failed") {
        hasFloorVote := true;
      }
      i := i + 1;
    }
    assert actions[..i] == actions;
    f := Flags(hasCommitteeHearing, hasCommitteeMarkup, hasFloorVote);
  }

  /** The scan finds an action exactly when there is one. */
  lemma {:induction false} SeenSpec(actions: seq<Action>, p: Action -> bool)
    ensures Seen(actions, p) <==> exists i :: 0 <= i < |actions| && p(actions[i])
  {
    if |actions| > 0 {
      var init := actions[..|actions| - 1];
      SeenSpec(init, p);
      assert forall i :: 0 <= i < |init| ==> init[i] == actions[i];
    }
  }

  /** Each flag is set exactly when some action shows it. */
  lemma FlagsOfSpec(actions: seq<Action>)
    ensures FlagsOf(actions).hearing <==> exists i :: 0 <= i < |actions| && HearingAction(actions[i])
    ensures FlagsOf(actions).markup <==> exists i :: 0 <= i < |actions| && MarkupAction(actions[i])
    ensures FlagsOf(actions).floorVote <==> exists i :: 0 <= i < |actions| && FloorAction(actions[i])
  {
    SeenSpec(actions, HearingAction);
    SeenSpec(actions, MarkupAction);
    SeenSpec(actions, FloorAction);
  }

  /** A scan of a concatenation finds what a scan of either part finds. */
  lemma {:induction false} SeenConcat(xs: seq<Action>, ys: seq<Action>, p: Action -> bool)
    ensures Seen(xs + ys, p) == (Seen(xs, p) || Seen(ys, p))
    decreases |ys|
  {
    if |ys| == 0 {
      assert xs + ys == xs;
    } else {
      assert (xs + ys)[..|xs + ys| - 1] == xs + ys[..|ys| - 1];
      SeenConcat(xs, ys[..|ys| - 1], p);
    }
  }

  /** The order of the actions does not matter: the flags of `xs + ys` are
      those of `ys + xs`. */
  lemma FlagsOrderFree(xs: seq<Action>, ys: seq<Action>)
    ensures FlagsOf(xs + ys) == FlagsOf(ys + xs)
  {
    SeenConcat(xs, ys, HearingAction);
    SeenConcat(ys, xs, HearingAction);
    SeenConcat(xs, ys, MarkupAction);
    SeenConcat(ys, xs, MarkupAction);
    SeenConcat(xs, ys, FloorAction);
    SeenConcat(ys, xs, FloorAction);
  }

  // ------------------------------------------------------------------
  // getSimplifiedStatus
  // ------------------------------------------------------------------

  datatype SimpleStatus = Enacted | PassedBoth | PassedOneChamber | InCommittee | Introduced | Unknown

  /** The first-match cascade on the lower-cased latest action text. */
  function SimplifiedStatus(latestAction: Option<string>): SimpleStatus {
    var action := Lower(OrElse(latestAction, ""));
    if Contains(action, "became public law") || Contains(action, "signed by president") then Enacted
    else if Contains(action, "passed senate") && Contains(action, "passed house") then PassedBoth
    else if Contains(action, "passed senate") || Contains(action, "passed house") then PassedOneChamber
    else if Contains(action, "reported") || Contains(action, "committee") then InCommittee
    else if Contains(action, "introduced") then Introduced
    else Unknown
  }

  predicate Enactment(a: string) {
    Contains(a, "became public law") || Contains(a, "signed by president")
  }

  /** Which label each text gets: enactment wins over passage, both
      chambers need both phrases, and so on down the cascade. */
  lemma SimplifiedStatusSpec(latestAction: Option<string>)
    ensures var a, r := Lower(OrElse(latestAction, "")), SimplifiedStatus(latestAction);
      && (r == Enacted <==> Enactment(a))
      && (r == PassedBoth <==> !Enactment(a) && Contains(a, "passed senate") && Contains(a, "passed house"))
      && (r == PassedOneChamber <==>
            !Enactment(a) && (Contains(a, "passed senate") != Contains(a, "passed house")))
      && (r == InCommittee <==>
            !Enactment(a) && !Contains(a, "passed senate") && !Contains(a, "passed house")
            && (Contains(a, "reported") || Contains(a, "committee")))
      && (r == Unknown ==> !Contains(a, "introduced"))
  {
  }

  // ------------------------------------------------------------------
  // calculatePriority
  // ------------------------------------------------------------------

  datatype Priority = High | Medium | Watching | Low

  /** The order high > medium > watching > low. */
  function Rank(p: Priority): nat {
    match p
    case High => 3
    case Medium => 2
    case Watching => 1
    case Low => 0
  }

  datatype PriorityInfo = PriorityInfo(priority: Priority, source: string, reason: string)

  /** The object `fetchBillStatus` returns. */
  datatype BillStatus = BillStatus(
    billNumber: string,
    title: string,
    latestAction: string,
    latestActionDate: Option<string>,
    status: SimpleStatus,
    sponsors: string,
    url: string,
    cosponsorsCount: int,
    hasCommitteeHearing: bool,
    hasCommitteeMarkup: bool,
    hasFloorVote: bool,
    committees: seq<string>,
    introducedDate: Option<string>)

  predicate ManualHigh(b: Bill) {
    b.priority == Some("high") && b.prioritySource == Some("manual")
  }

  predicate Active(st: BillStatus) {
    st.hasFloorVote || st.hasCommitteeMarkup || st.hasCommitteeHearing
  }

  function CosponsorsReason(n: int): string {
    IntToString(n) + " cosponsors"
  }

  /** The first rule that applies decides. */
  function CalculatePriority(st: BillStatus, b: Bill): PriorityInfo {
    if ManualHigh(b) then PriorityInfo(High, "manual", "Manually flagged")
    else if b.prioritySource == Some("freedc") then PriorityInfo(High, "freedc", "Listed on FreeDC")
    else if st.hasFloorVote then PriorityInfo(High, "legislative", "Floor vote occurred")
    else if st.hasCommitteeMarkup then PriorityInfo(High, "legislative", "Committee markup held")
    else if st.hasCommitteeHearing then PriorityInfo(High, "legislative", "Committee hearing held")
    else if st.cosponsorsCount >= 20 then PriorityInfo(High, "legislative", CosponsorsReason(st.cosponsorsCount))
    else if st.cosponsorsCount >= 5 then PriorityInfo(Medium, "legislative", CosponsorsReason(st.cosponsorsCount))
    else if st.status == InCommittee then PriorityInfo(Medium, "legislative", "In committee")
    else if st.status == Introduced then PriorityInfo(Watching, "legislative", "Recently introduced")
    else PriorityInfo(Low, "legislative", "No significant activity")
  }

  /** The tier each bill gets, stated tier by tier: high for the two
      overrides, any activity or 20 cosponsors; medium for 5 cosponsors or a
      bill in committee; watching for a freshly introduced bill; low
      otherwise. */
  lemma PriorityTiers(st: BillStatus, b: Bill)
    ensures var p, override := CalculatePriority(st, b).priority, ManualHigh(b) || b.prioritySource == Some("freedc");
      && (p == High <==> override || Active(st) || st.cosponsorsCount >= 20)
      && (p == Medium <==> !override && !Active(st) && st.cosponsorsCount < 20
                           && (st.cosponsorsCount >= 5 || st.status == InCommittee))
      && (p == Watching <==> !override && !Active(st) && st.cosponsorsCount < 5
                             && st.status == Introduced)
      && (p == Low <==> !override && !Active(st) && st.cosponsorsCount < 5
                        && st.status != InCommittee && st.status != Introduced)
  {
  }

  /** The source names an override only for the two override rules. */
  lemma PrioritySource(st: BillStatus, b: Bill)
    ensures var s := CalculatePriority(st, b).source;
      && (s == "manual" <==> ManualHigh(b))
      && (s == "freedc" <==> !ManualHigh(b) && b.prioritySource == Some("freedc"))
      && (s == "legislative" <==> !ManualHigh(b) && b.prioritySource != Some("freedc"))
  {
  }

  /** With everything else fixed, more cosponsors never lower the tier. */
  lemma CosponsorsMonotone(st: BillStatus, b: Bill, n: int)
    requires st.cosponsorsCount <= n
    ensures Rank(CalculatePriority(st, b).priority) <= Rank(CalculatePriority(st.(cosponsorsCount := n), b).priority)
  {
    PriorityTiers(st, b);
    PriorityTiers(st.(cosponsorsCount := n), b);
  }

  // ------------------------------------------------------------------
  // fetchBillStatus
  // ------------------------------------------------------------------

  /** The fields of the API's `bill` record the monitor reads. */
  datatype ApiBillInfo = ApiBillInfo(
    title: string,
    latestActionText: Option<string>,
    latestActionDate: Option<string>,
    sponsorNames: Option<seq<string>>,
    committeeNames: Option<seq<string>>,
    introducedDate: Option<string>)

  /** The three responses for one bill: `info` is `None` when the bill
      request fails (a 404 or another error), `actions` when the actions
      request fails, `cosponsors` when the cosponsors request fails or has
      no count. */
  datatype Responses = Responses(info: Option<ApiBillInfo>, actions: Option<seq<Action>>, cosponsors: Option<int>)

  /** The API, as a function of bill type and number. */
  type StatusFetch = (string, string) -> Responses

  /** `x || null` on an optional string. */
  function OrNull(s: Option<string>): (r: Option<string>)
    ensures r.Some? <==> Truthy(s)
    ensures r.Some? ==> r.value == s.value
  {
    if Truthy(s) then s else None
  }

  /** `bill.sponsors?.map(s => s.fullName).join(', ') || 'Unknown'` */
  function SponsorLine(names: Option<seq<string>>): string {
    var joined := if names.Some? then Join(names.value, ", ") else "";
    if joined == "" then "Unknown" else joined
  }

  function StatusUrl(billType: string, number: string): string {
    "https://www.congress.gov/bill/119th-congress/" + billType + "/" + number
  }

  /** The record `fetchBillStatus` returns, `None` for its `null`. */
  function StatusOf(billNumber: string, fetch: StatusFetch): Option<BillStatus> {
    match ParseWithChamber(billNumber)
    case None => None
    case Some(p) =>
      var r := fetch(p.billType, p.number);
      match r.info
      case None => None
      case Some(info) =>
        var f := if r.actions.Some? then FlagsOf(r.actions.value) else Flags(false, false, false);
        var count := if r.cosponsors.Some? then r.cosponsors.value else 0;
        Some(BillStatus(billNumber, info.title, OrElse(info.latestActionText, "No recent action"),
                        OrNull(info.latestActionDate), SimplifiedStatus(info.latestActionText),
                        SponsorLine(info.sponsorNames), StatusUrl(p.billType, p.number), count,
                        f.hearing, f.markup, f.floorVote,
                        if info.committeeNames.Some? then info.committeeNames.value else [],
                        OrNull(info.introducedDate)))
  }

  /** `fetchBillStatus`: parse, request, and read the actions. */
  method FetchBillStatus(billNumber: string, fetch: StatusFetch) returns (r: Option<BillStatus>)
    ensures r == StatusOf(billNumber, fetch)
  {
    var parsed := ParseWithChamber(billNumber);
    if parsed.None? {
      return None;
    }
    var billType, number := parsed.value.billType, parsed.value.number;
    var responses := fetch(billType, number);
    if responses.info.None? {
      return None;
    }
    var bill := responses.info.value;
    var flags := Flags(false, false, false);
    if responses.actions.Some? {
      flags := AnalyzeActions(responses.actions.value);
    }
    var cosponsorsCount := if responses.cosponsors.Some? then responses.cosponsors.value else 0;
    var committees := if bill.committeeNames.Some? then bill.committeeNames.value else [];
    r := Some(BillStatus(billNumber, bill.title, OrElse(bill.latestActionText, "No recent action"),
                         OrNull(bill.latestActionDate), SimplifiedStatus(bill.latestActionText),
                         SponsorLine(bill.sponsorNames), StatusUrl(billType, number), cosponsorsCount,
                         flags.hearing, flags.markup, flags.floorVote, committees, OrNull(bill.introducedDate)));
  }

  /** A status exists exactly when the number parses and the bill request
      succeeds; its flags are those of the actions (all false when the
      actions request failed) and its status the cascade's label. */
  lemma StatusOfSpec(billNumber: string, fetch: StatusFetch)
    ensures StatusOf(billNumber, fetch).Some? <==>
              ParseBillNumber(billNumber).Some?
              && fetch(ParseBillNumber(billNumber).value.billType, ParseBillNumber(billNumber).value.number).info.Some?
    ensures StatusOf(billNumber, fetch).Some? ==>
      var st, p := StatusOf(billNumber, fetch).value, ParseBillNumber(billNumber).value;
      var r := fetch(p.billType, p.number);
      && st.billNumber == billNumber
      && st.status == SimplifiedStatus(r.info.value.latestActionText)
      && (r.actions.None? ==> !st.hasCommitteeHearing && !st.hasCommitteeMarkup && !st.hasFloorVote)
      && (r.actions.Some? ==>
            (st.hasCommitteeHearing <==> exists i :: 0 <= i < |r.actions.value| && HearingAction(r.actions.value[i])))
      && (r.actions.Some? ==>
            (st.hasCommitteeMarkup <==> exists i :: 0 <= i < |r.actions.value| && MarkupAction(r.actions.value[i])))
      && (r.actions.Some? ==>
            (st.hasFloorVote <==> exists i :: 0 <= i < |r.actions.value| && FloorAction(r.actions.value[i])))
  {
    ParseWithChamberSpec(billNumber);
    var r := ParseWithChamber(billNumber);
    if r.Some? {
      var resp := fetch(r.value.billType, r.value.number);
      if resp.actions.Some? {
        FlagsOfSpec(resp.actions.value);
      }
    }
  }

  // ------------------------------------------------------------------
  // monitorBills
  // ------------------------------------------------------------------

  /** The `changes` record of one bill. */
  datatype Change = Change(
    id: string,
    bill: string,
    billNumber: string,
    status: SimpleStatus,
    latestAction: string,
    latestActionDate: Option<string>,
    url: string,
    priority: Priority,
    prioritySource: string,
    priorityReason: string,
    cosponsorsCount: int,
    hasCommitteeHearing: bool,
    hasCommitteeMarkup: bool,
    hasFloorVote: bool,
    committees: seq<string>,
    introducedDate: Option<string>)

  /** What one bill contributes: a change, or its primary number as an error. */
  datatype Checked = Ok(change: Change) | Failed(billNumber: string)

  function ChangeOf(b: Bill, st: BillStatus): Change {
    var info := CalculatePriority(st, b);
    Change(b.id, b.title, st.billNumber, st.status, st.latestAction, st.latestActionDate, st.url,
           info.priority, info.source, info.reason, st.cosponsorsCount,
           st.hasCommitteeHearing, st.hasCommitteeMarkup, st.hasFloorVote, st.committees, st.introducedDate)
  }

  /** The outcome for a bill with at least one bill number. */
  function CheckBill(b: Bill, fetch: StatusFetch): Checked
    requires |b.billNumbers| > 0
  {
    match StatusOf(b.billNumbers[0], fetch)
    case None => Failed(b.billNumbers[0])
    case Some(st) => Ok(ChangeOf(b, st))
  }

  /** A record with no bill number makes `billNumber.match` throw, which
      ends the run through the fatal-error handler. */
  predicate Crashes(bills: seq<Bill>) {
    exists i :: 0 <= i < |bills| && |bills[i].billNumbers| == 0
  }

  /** The outcomes of the bills, in order, when none crashes. */
  function CheckAll(bills: seq<Bill>, fetch: StatusFetch): (r: seq<Checked>)
    requires !Crashes(bills)
    ensures |r| == |bills|
  {
    if |bills| == 0 then []
    else
      NoCrashInit(bills);
      CheckAll(bills[..|bills| - 1], fetch) + [CheckBill(bills[|bills| - 1], fetch)]
  }

  lemma NoCrashInit(bills: seq<Bill>)
    requires |bills| > 0 && !Crashes(bills)
    ensures !Crashes(bills[..|bills| - 1])
  {
    var init := bills[..|bills| - 1];
    forall i | 0 <= i < |init| ensures |init[i].billNumbers| > 0 {
      assert init[i] == bills[i];
    }
  }

  function Changes(cs: seq<Checked>): seq<Change> {
    if |cs| == 0 then []
    else Changes(cs[..|cs| - 1]) + (if cs[|cs| - 1].Ok? then [cs[|cs| - 1].change] else [])
  }

  function Errors(cs: seq<Checked>): seq<string> {
    if |cs| == 0 then []
    else Errors(cs[..|cs| - 1]) + (if cs[|cs| - 1].Failed? then [cs[|cs| - 1].billNumber] else [])
  }

  /** The loop of `monitorBills`; `None` when the run crashes. */
  method MonitorBills(bills: seq<Bill>, fetch: StatusFetch) returns (r: Option<(seq<Change>, seq<string>)>)
    ensures r.None? <==> Crashes(bills)
    ensures r.Some? ==> r.value == (Changes(CheckAll(bills, fetch)), Errors(CheckAll(bills, fetch)))
  {
    var changes: seq<Change> := [];
    var errors: seq<string> := [];
    var i := 0;
    while i < |bills|
      invariant 0 <= i <= |bills|
      invariant !Crashes(bills[..i])
      invariant changes == Changes(CheckAll(bills[..i], fetch))
      invariant errors == Errors(CheckAll(bills[..i], fetch))
    {
      var bill := bills[i];
      if |bill.billNumbers| == 0 {
        assert bills[i].billNumbers == [];
        return None;
      }
      var billNumber := bill.billNumbers[0];
      var status := FetchBillStatus(billNumber, fetch);
      CheckAllStep(bills, i, fetch);
      if status.Some? {
        var priorityInfo := CalculatePriority(status.value, bill);
        changes := changes + [ChangeOf(bill, status.value)];
      } else {
        errors := errors + [billNumber];
      }
      i := i + 1;
    }
    assert bills[..i] == bills;
    r := Some((changes, errors));
  }

  lemma CheckAllStep(bills: seq<Bill>, i: nat, fetch: StatusFetch)
    requires i < |bills| && !Crashes(bills[..i]) && |bills[i].billNumbers| > 0
    ensures !Crashes(bills[..i + 1])
    ensures CheckAll(bills[..i + 1], fetch) == CheckAll(bills[..i], fetch) + [CheckBill(bills[i], fetch)]
  {
    var pre, pre1 := bills[..i], bills[..i + 1];
    assert pre1[..i] == pre;
    forall j | 0 <= j < |pre1| ensures |pre1[j].billNumbers| > 0 {
      if j < i { assert pre1[j] == pre[j]; }
    }
  }

  /** Every bill ends up in exactly one of the two lists: together the lists
      have as many entries as there are bills. */
  lemma {:induction false} ChangesErrorsSplit(cs: seq<Checked>)
    ensures |Changes(cs)| + |Errors(cs)| == |cs|
  {
    if |cs| > 0 {
      ChangesErrorsSplit(cs[..|cs| - 1]);
    }
  }

  /** An unparseable primary number is recorded as an error. */
  lemma UnparseableIsError(b: Bill, fetch: StatusFetch)
    requires |b.billNumbers| > 0 && ParseBillNumber(b.billNumbers[0]).None?
    ensures CheckBill(b, fetch) == Failed(b.billNumbers[0])
  {
    ParseWithChamberSpec(b.billNumbers[0]);
  }

  /** The `k`-th outcome is the `k`-th bill's. */
  lemma {:induction false} CheckAllIndex(bills: seq<Bill>, fetch: StatusFetch, k: nat)
    requires !Crashes(bills) && k < |bills|
    ensures CheckAll(bills, fetch)[k] == CheckBill(bills[k], fetch)
  {
    var init := bills[..|bills| - 1];
    NoCrashInit(bills);
    var rest := CheckAll(init, fetch);
    assert CheckAll(bills, fetch) == rest + [CheckBill(bills[|bills| - 1], fetch)];
    if k < |init| {
      CheckAllIndex(init, fetch, k);
      assert bills[k] == init[k];
    }
  }

  // ------------------------------------------------------------------
  // The history file
  // ------------------------------------------------------------------

  datatype Run = Run(timestamp: string, changes: seq<Change>, errors: seq<string>)

  const HistoryCap: nat := 30

  /** The history part of `generateReport`: the file's runs (none when it
      cannot be read), plus this run, cut to the last 30. */
  method AppendHistory(previous: Option<seq<Run>>, entry: Run) returns (history: seq<Run>)
    ensures var before := if previous.Some? then previous.value else [];
      && |history| == (if |before| + 1 > HistoryCap then HistoryCap else |before| + 1)
      && history[|history| - 1] == entry
      && history == (before + [entry])[|before| + 1 - |history|..]
  {
    history := [];
    if previous.Some? {
      history := previous.value;
    }
    history := history + [entry];
    if |history| > HistoryCap {
      history := history[|history| - HistoryCap..];
    }
  }
}
