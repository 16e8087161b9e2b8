// The discovery pipeline of scripts/discover-bills.js: the set of bill ids
// already tracked, the committee and title-scan channels, the merge of their
// candidates, the removal of tracked ids, relevance scoring, tiering, and the
// entries appended to the dataset. Congress.gov responses are inputs: a
// sequence of responses per committee, and functions from a request to its
// response for the paged title scan and the per-bill detail fetch.

module DiscoverBills {
  import opened Text
  import opened Seqs
  import opened Ordered
  import opened Dataset
  import opened BillNumber
  import opened Candidates
  import opened DcPatterns

  const CongressNumber: int := 119

  // ------------------------------------------------------------------
  // Tracked ids
  // ------------------------------------------------------------------

  /** The records whose ids count as tracked: bills, riders, support bills. */
  function AllBills(d: Data): seq<Bill> {
    OrEmpty(d.bills) + OrEmpty(d.riders) + OrEmpty(d.supportBills)
  }

  /** The tracked-set key of one bill number, when it parses. */
  function IdOf(bn: string): Option<string> {
    var p := ParseBillNumber(bn);
    if p.Some? then Some(NormalizeBillId(p.value.billType, p.value.number)) else None
  }

  /** `IdOf` of each bill number, index for index. */
  function IdsOf(numbers: seq<string>): (r: seq<Option<string>>)
    ensures |r| == |numbers|
  {
    if |numbers| == 0 then [] else IdsOf(numbers[..|numbers| - 1]) + [IdOf(numbers[|numbers| - 1])]
  }

  lemma {:induction false} IdsOfIndex(numbers: seq<string>, j: nat)
    requires j < |numbers|
    ensures IdsOf(numbers)[j] == IdOf(numbers[j])
  {
    if j < |numbers| - 1 {
      IdsOfIndex(numbers[..|numbers| - 1], j);
    }
  }

  /** The keys contributed by a bill's numbers. */
  function NumberIds(numbers: seq<string>): set<string> {
    set o | o in IdsOf(numbers) && o.Some? :: o.value
  }

  /** `x` is the key of one of `numbers`. */
  lemma NumberIdsIff(numbers: seq<string>, x: string)
    ensures x in NumberIds(numbers) <==> exists j :: 0 <= j < |numbers| && IdOf(numbers[j]) == Some(x)
  {
    var ids := IdsOf(numbers);
    if x in NumberIds(numbers) {
      var j :| 0 <= j < |ids| && ids[j] == Some(x);
      IdsOfIndex(numbers, j);
    }
    if exists j :: 0 <= j < |numbers| && IdOf(numbers[j]) == Some(x) {
      var j :| 0 <= j < |numbers| && IdOf(numbers[j]) == Some(x);
      IdsOfIndex(numbers, j);
      assert ids[j] in ids;
    }
  }

  /** `x` is tracked by record `b`: its id, or the normalised form of one of
      its parseable bill numbers. */
  ghost predicate TrackedByBill(b: Bill, x: string) {
    b.id == x || exists j :: 0 <= j < |b.billNumbers| && IdOf(b.billNumbers[j]) == Some(x)
  }

  /** `x` is tracked by some record. */
  ghost predicate TrackedBy(all: seq<Bill>, x: string) {
    exists i :: 0 <= i < |all| && TrackedByBill(all[i], x)
  }

  /** `buildTrackedSet`: a set holding exactly the tracked ids. */
  method BuildTrackedSet(d: Data) returns (tracked: set<string>)
    ensures forall x :: x in tracked <==> TrackedBy(AllBills(d), x)
  {
    var all := AllBills(d);
    tracked := CollectIds(all);
    TrackedSoFarAll(all);
  }

  /** The loop of `buildTrackedSet` over the concatenated lists. */
  method CollectIds(all: seq<Bill>) returns (tracked: set<string>)
    ensures tracked == TrackedSoFar(all, |all|)
  {
    tracked := {};
    var i := 0;
    while i < |all|
      invariant 0 <= i <= |all|
      invariant tracked == TrackedSoFar(all, i)
    {
      tracked := AddBillIds(tracked, all[i]);
      i := i + 1;
    }
  }

  /** One iteration of `buildTrackedSet`: the bill's id and the key of each
      of its bill numbers that parses. */
  method AddBillIds(tracked: set<string>, bill: Bill) returns (r: set<string>)
    ensures r == tracked + {bill.id} + NumberIds(bill.billNumbers)
  {
    r := tracked + {bill.id};
    r := AddNumberIds(r, bill.billNumbers);
  }

  /** The inner loop of `buildTrackedSet`: the key of each bill number that
      parses joins the set. */
  method AddNumberIds(tracked: set<string>, numbers: seq<string>) returns (r: set<string>)
    ensures r == tracked + NumberIds(numbers)
  {
    r := tracked;
    var j := 0;
    while j < |numbers|
      invariant 0 <= j <= |numbers|
      invariant r == tracked + NumberIds(numbers[..j])
    {
      var parsed := IdOf(numbers[j]);
      if parsed.Some? {
        r := r + {parsed.value};
      }
      NumberIdsStep(numbers, j);
      j := j + 1;
    }
    assert numbers[..j] == numbers;
  }

  lemma NumberIdsStep(numbers: seq<string>, j: nat)
    requires j < |numbers|
    ensures NumberIds(numbers[..j + 1]) == NumberIds(numbers[..j])
              + (if IdOf(numbers[j]).Some? then {IdOf(numbers[j]).value} else {})
  {
    assert numbers[..j + 1][..j] == numbers[..j];
    assert IdsOf(numbers[..j + 1]) == IdsOf(numbers[..j]) + [IdOf(numbers[j])];
  }

  /** The ids the first `i` records contribute. */
  ghost function TrackedSoFar(all: seq<Bill>, i: nat): (r: set<string>)
    requires i <= |all|
  {
    if i == 0 then {}
    else TrackedSoFar(all, i - 1) + BillIds(all[i - 1])
  }

  lemma {:induction false} TrackedSoFarAll(all: seq<Bill>)
    ensures forall x :: x in TrackedSoFar(all, |all|) <==> TrackedBy(all, x)
  {
    forall x ensures x in TrackedSoFar(all, |all|) <==> TrackedBy(all, x) {
      TrackedSoFarIff(all, |all|, x);
    }
  }

  /** `x` is tracked by one of the first `i` records. */
  ghost predicate TrackedBefore(all: seq<Bill>, i: nat, x: string)
    requires i <= |all|
  {
    exists k :: 0 <= k < i && TrackedByBill(all[k], x)
  }

  /** The ids one record contributes. */
  function BillIds(b: Bill): set<string> {
    {b.id} + NumberIds(b.billNumbers)
  }

  /** After `i` records the set holds what one of them contributed. */
  lemma TrackedSoFarGrows(all: seq<Bill>, i: nat, x: string)
    requires i <= |all|
    ensures x in TrackedSoFar(all, i) <==> exists k :: 0 <= k < i && x in BillIds(all[k])
  {
    var acc := (j: nat) => if j <= |all| then TrackedSoFar(all, j) else {};
    var step := (k: nat) => if k < |all| then BillIds(all[k]) else {};
    GrowIff(acc, step, i, x);
  }

  lemma TrackedSoFarIff(all: seq<Bill>, i: nat, x: string)
    requires i <= |all|
    ensures x in TrackedSoFar(all, i) <==> TrackedBefore(all, i, x)
  {
    TrackedSoFarGrows(all, i, x);
    forall k | 0 <= k < i ensures x in BillIds(all[k]) <==> TrackedByBill(all[k], x) {
      TrackedByBillIff(all[k], x);
    }
  }

  lemma TrackedByBillIff(b: Bill, x: string)
    ensures TrackedByBill(b, x) <==> x == b.id || x in NumberIds(b.billNumbers)
  {
    NumberIdsIff(b.billNumbers, x);
  }

  // ------------------------------------------------------------------
  // Channel 1: committee listings
  // ------------------------------------------------------------------

  /** A bill of a Congress.gov list response. `number` is the result of
      `bill.number?.toString()`. */
  datatype ApiBill = ApiBill(congress: Option<int>, kind: Option<string>, number: Option<string>, title: Option<string>)

  datatype Committee = Committee(code: string, name: string)

  /** The committees whose bill listings the first channel reads. */
  const DcCommittees: seq<Committee> := [
    Committee("hsgo10", "House Oversight - DC Subcommittee"),
    Committee("hsgo00", "House Oversight (parent)"),
    Committee("ssga00", "Senate HSGAC")
  ]

  /** What one listed bill contributes: nothing unless it belongs to the
      current Congress and has a non-empty type and number; otherwise its
      lower-cased type, number, title (`''` when missing) and the committee
      name as its one source. */
  function CommitteeHit(name: string, b: ApiBill): Option<Hit> {
    if b.congress != Some(CongressNumber) then None
    else if !Truthy(b.kind) || !Truthy(b.number) then None
    else
      var t := Lower(b.kind.value);
      var n := b.number.value;
      Some(Hit(NormalizeBillId(t, n), Candidate(t, n, OrElse(b.title, ""), [name])))
  }

  /** The hits of one committee listing, in listing order. */
  function CommitteeHits(name: string, bills: seq<ApiBill>): seq<Hit> {
    if |bills| == 0 then []
    else
      var h := CommitteeHit(name, bills[|bills| - 1]);
      CommitteeHits(name, bills[..|bills| - 1]) + (if h.Some? then [h.value] else [])
  }

  /** The hits of the channel. `responses[c]` is the `bills` array of
      committee `c`'s listing, `None` when the request failed, which skips
      the committee. */
  function CommitteeChannelHits(responses: seq<Option<seq<ApiBill>>>): seq<Hit>
    requires |responses| <= |DcCommittees|
  {
    if |responses| == 0 then []
    else
      var c := |responses| - 1;
      var r := responses[c];
      CommitteeChannelHits(responses[..c]) + (if r.Some? then CommitteeHits(DcCommittees[c].name, r.value) else [])
  }

  /** `discoverFromCommittees`: the candidate map after absorbing every hit
      of every listing; a repeated id gets the committee's name appended to
      its sources. */
  method DiscoverFromCommittees(responses: seq<Option<seq<ApiBill>>>) returns (candidates: OMap<Candidate>)
    requires |responses| == |DcCommittees|
    ensures candidates == AbsorbAll(Empty(), CommitteeChannelHits(responses))
  {
    candidates := Empty();
    var c := 0;
    while c < |DcCommittees|
      invariant 0 <= c <= |DcCommittees|
      invariant candidates == AbsorbAll(Empty(), CommitteeChannelHits(responses[..c]))
    {
      assert responses[..c + 1][..c] == responses[..c];
      var response := responses[c];
      ghost var before := CommitteeChannelHits(responses[..c]);
      if response.Some? {
        candidates := ReadListing(candidates, DcCommittees[c].name, response.value);
        AbsorbAllAppend(Empty(), before, CommitteeHits(DcCommittees[c].name, response.value));
        assert CommitteeChannelHits(responses[..c + 1]) == before + CommitteeHits(DcCommittees[c].name, response.value);
      } else {
        assert CommitteeChannelHits(responses[..c + 1]) == before + [];
        assert before + [] == before;
      }
      assert candidates == AbsorbAll(Empty(), CommitteeChannelHits(responses[..c + 1]));
      c := c + 1;
    }
    assert responses[..c] == responses;
  }

  /** The inner loop of `discoverFromCommittees`: one committee's listing. */
  method ReadListing(m: OMap<Candidate>, name: string, bills: seq<ApiBill>) returns (candidates: OMap<Candidate>)
    ensures candidates == AbsorbAll(m, CommitteeHits(name, bills))
  {
    candidates := m;
    var j := 0;
    while j < |bills|
      invariant 0 <= j <= |bills|
      invariant candidates == AbsorbAll(m, CommitteeHits(name, bills[..j]))
    {
      assert bills[..j + 1][..j] == bills[..j];
      ghost var hits := CommitteeHits(name, bills[..j]);
      ghost var h := CommitteeHit(name, bills[j]);
      assert CommitteeHits(name, bills[..j + 1]) == hits + (if h.Some? then [h.value] else []);
      candidates := ReadListingBill(candidates, name, bills[j]);
      if h.Some? {
        AbsorbAllSnoc(m, hits, h.value);
      } else {
        assert hits + [] == hits;
      }
      j := j + 1;
    }
    assert bills[..j] == bills;
  }

  /** One bill of a listing: a hit of the current Congress is absorbed, any
      other bill is passed over. */
  method ReadListingBill(m: OMap<Candidate>, name: string, bill: ApiBill) returns (candidates: OMap<Candidate>)
    ensures var h := CommitteeHit(name, bill);
            candidates == if h.Some? then Absorb(m, h.value) else m
  {
    candidates := m;
    if bill.congress == Some(CongressNumber) && Truthy(bill.kind) && Truthy(bill.number) {
      var billType := Lower(bill.kind.value);
      var number := bill.number.value;
      var id := NormalizeBillId(billType, number);
      if id !in candidates.entries {
        candidates := Put(candidates, id, Candidate(billType, number, OrElse(bill.title, ""), [name]));
      } else {
        var e := candidates.entries[id];
        candidates := Put(candidates, id, e.(source := e.source + [name]));
      }
    }
  }

  /** Absorbing one more hit is one more `Absorb` step. */
  lemma AbsorbAllSnoc(m: OMap<Candidate>, hs: seq<Hit>, h: Hit)
    ensures AbsorbAll(m, hs + [h]) == Absorb(AbsorbAll(m, hs), h)
  {
    assert (hs + [h])[..|hs|] == hs;
  }

  /** Absorbing one more hit under the first-hit-wins rule. */
  lemma AbsorbAllFirstSnoc(m: OMap<Candidate>, hs: seq<Hit>, h: Hit)
    ensures AbsorbAllFirst(m, hs + [h]) == AbsorbFirst(AbsorbAllFirst(m, hs), h)
  {
    assert (hs + [h])[..|hs|] == hs;
  }

  /** Every committee hit comes from a listed bill of the current Congress
      of a committee whose request succeeded; it has a non-empty type and
      number, is keyed by its normalised id, and has that committee's name as
      its only source. */
  lemma {:induction false} CommitteeHitsWellFormed(responses: seq<Option<seq<ApiBill>>>, k: nat)
    requires |responses| <= |DcCommittees|
    requires k < |CommitteeChannelHits(responses)|
    ensures var h := CommitteeChannelHits(responses)[k];
            && h.cand.billType != "" && h.cand.number != ""
            && h.id == NormalizeBillId(h.cand.billType, h.cand.number)
            && exists c, i :: 0 <= c < |responses| && responses[c].Some? && 0 <= i < |responses[c].value|
                 && responses[c].value[i].congress == Some(CongressNumber)
                 && CommitteeHit(DcCommittees[c].name, responses[c].value[i]) == Some(h)
                 && h.cand.source == [DcCommittees[c].name]
  {
    var c := |responses| - 1;
    var prefix := CommitteeChannelHits(responses[..c]);
    if k < |prefix| {
      CommitteeHitsWellFormed(responses[..c], k);
      assert CommitteeChannelHits(responses)[k] == prefix[k];
      var c', i :| 0 <= c' < |responses[..c]| && responses[..c][c'].Some? && 0 <= i < |responses[..c][c'].value|
                 && responses[..c][c'].value[i].congress == Some(CongressNumber)
                 && CommitteeHit(DcCommittees[c'].name, responses[..c][c'].value[i]) == Some(prefix[k])
                 && prefix[k].cand.source == [DcCommittees[c'].name];
      assert responses[c'] == responses[..c][c'];
    } else {
      var bills := responses[c].value;
      assert CommitteeChannelHits(responses)[k] == CommitteeHits(DcCommittees[c].name, bills)[k - |prefix|];
      ListingHitsWellFormed(DcCommittees[c].name, bills, k - |prefix|);
    }
  }

  lemma {:induction false} ListingHitsWellFormed(name: string, bills: seq<ApiBill>, k: nat)
    requires k < |CommitteeHits(name, bills)|
    ensures var h := CommitteeHits(name, bills)[k];
            && h.cand.billType != "" && h.cand.number != ""
            && h.id == NormalizeBillId(h.cand.billType, h.cand.number)
            && h.cand.source == [name]
            && exists i :: 0 <= i < |bills| && bills[i].congress == Some(CongressNumber)
                 && CommitteeHit(name, bills[i]) == Some(h)
  {
    var n := |bills| - 1;
    var prefix := CommitteeHits(name, bills[..n]);
    if k < |prefix| {
      ListingHitsWellFormed(name, bills[..n], k);
      assert CommitteeHits(name, bills)[k] == prefix[k];
      var i :| 0 <= i < |bills[..n]| && bills[..n][i].congress == Some(CongressNumber)
               && CommitteeHit(name, bills[..n][i]) == Some(prefix[k]);
      assert bills[i] == bills[..n][i];
    } else {
      assert bills[n].congress == Some(CongressNumber);
      assert Lower(bills[n].kind.value) != "";
    }
  }

  // ------------------------------------------------------------------
  // Channel 2: title scan
  // ------------------------------------------------------------------

  /** The bill types whose listings are scanned. */
  const BillTypes: seq<string> := ["hr", "s", "hjres", "sjres"]

  /** The page size requested, and the last offset a page is fetched at. */
  const PageLimit: nat := 250
  const MaxOffset: nat := 1000

  /** A request of the paged listing: the bill type and the offset to the
      `bills` array of the response, `None` when the request throws. */
  type Fetch = (string, nat) -> Option<seq<ApiBill>>

  /** What one listed bill contributes: nothing without a number; otherwise a
      hit exactly when some positive pattern and no negative pattern accepts
      its title (`''` when missing). */
  function TitleHit(pats: Patterns, billType: string, b: ApiBill): Option<Hit> {
    if !Truthy(b.number) then None
    else
      var title := OrElse(b.title, "");
      if AnyTest(pats.positive, title) && !AnyTest(pats.negative, title) then
        Some(Hit(NormalizeBillId(billType, b.number.value), Candidate(billType, b.number.value, title, ["title-scan"])))
      else None
  }

  /** The hits of one page, in listing order. */
  function TitleHits(pats: Patterns, billType: string, bills: seq<ApiBill>): seq<Hit> {
    if |bills| == 0 then []
    else
      var h := TitleHit(pats, billType, bills[|bills| - 1]);
      TitleHits(pats, billType, bills[..|bills| - 1]) + (if h.Some? then [h.value] else [])
  }

  /** The hits of a sequence of pages. */
  function PageHits(pats: Patterns, billType: string, pages: seq<seq<ApiBill>>): seq<Hit> {
    if |pages| == 0 then []
    else PageHits(pats, billType, pages[..|pages| - 1]) + TitleHits(pats, billType, pages[|pages| - 1])
  }

  /** The pages the scan of one bill type reads, from `offset` on: it stops
      at a failed request or an empty page, and after a page that is short
      or was read at offset 1000 or more. */
  function PagesFrom(fetch: Fetch, billType: string, offset: nat): seq<seq<ApiBill>>
    decreases if offset <= MaxOffset then MaxOffset - offset else 0
  {
    match fetch(billType, offset)
    case None => []
    case Some(bills) =>
      if |bills| == 0 then []
      else if |bills| < PageLimit || offset >= MaxOffset then [bills]
      else [bills] + PagesFrom(fetch, billType, offset + PageLimit)
  }

  /** At most five pages per bill type: offsets 0, 250, 500, 750 and 1000. */
  lemma {:induction false} PagesFromBound(fetch: Fetch, billType: string, offset: nat)
    requires offset % PageLimit == 0 && offset <= MaxOffset
    ensures |PagesFrom(fetch, billType, offset)| <= (MaxOffset - offset) / PageLimit + 1
    decreases MaxOffset - offset
  {
    var r := fetch(billType, offset);
    if r.Some? && |r.value| >= PageLimit && offset < MaxOffset {
      PagesFromBound(fetch, billType, offset + PageLimit);
    }
  }

  /** The hits of the whole title scan: each bill type's pages in turn. */
  function TitleScanHits(pats: Patterns, fetch: Fetch, n: nat): seq<Hit>
    requires n <= |BillTypes|
  {
    if n == 0 then []
    else TitleScanHits(pats, fetch, n - 1) + PageHits(pats, BillTypes[n - 1], PagesFrom(fetch, BillTypes[n - 1], 0))
  }

  /** The candidate map after scanning the first `n` bill types. */
  function TitleScan(pats: Patterns, fetch: Fetch, n: nat): OMap<Candidate>
    requires n <= |BillTypes|
  {
    if n == 0 then Empty() else ScanFrom(TitleScan(pats, fetch, n - 1), pats, fetch, BillTypes[n - 1], 0)
  }

  /** The title scan absorbs, first hit winning, the hits of every page of
      every bill type, in order. */
  lemma {:induction false} TitleScanHitsFold(pats: Patterns, fetch: Fetch, n: nat)
    requires n <= |BillTypes|
    ensures TitleScan(pats, fetch, n) == AbsorbAllFirst(Empty(), TitleScanHits(pats, fetch, n))
  {
    if n > 0 {
      TitleScanHitsFold(pats, fetch, n - 1);
      var t := BillTypes[n - 1];
      var before := TitleScanHits(pats, fetch, n - 1);
      ScanFromPages(TitleScan(pats, fetch, n - 1), pats, fetch, t, 0);
      AbsorbAllFirstAppend(Empty(), before, PageHits(pats, t, PagesFrom(fetch, t, 0)));
    }
  }

  /** `discoverFromTitleScan`: every bill type's pages are read in turn and
      the first hit of an id wins. `requests` counts the listing requests,
      at most five per bill type. */
  method DiscoverFromTitleScan(pats: Patterns, fetch: Fetch) returns (candidates: OMap<Candidate>, requests: nat)
    ensures candidates == AbsorbAllFirst(Empty(), TitleScanHits(pats, fetch, |BillTypes|))
    ensures requests <= 5 * |BillTypes|
  {
    candidates := Empty();
    requests := 0;
    var n := 0;
    while n < |BillTypes|
      invariant 0 <= n <= |BillTypes|
      invariant candidates == TitleScan(pats, fetch, n)
      invariant requests <= 5 * n
    {
      var made;
      candidates, made := ScanBillType(candidates, pats, fetch, BillTypes[n]);
      requests := requests + made;
      n := n + 1;
    }
    TitleScanHitsFold(pats, fetch, n);
  }

  /** The candidate map after scanning one bill type's pages from `offset`
      on, starting from `m`: the paging loop read as a recursion. */
  function ScanFrom(m: OMap<Candidate>, pats: Patterns, fetch: Fetch, billType: string, offset: nat): OMap<Candidate>
    decreases if offset <= MaxOffset then MaxOffset - offset else 0
  {
    match fetch(billType, offset)
    case None => m
    case Some(bills) =>
      if |bills| == 0 then m
      else
        var next := AbsorbAllFirst(m, TitleHits(pats, billType, bills));
        if |bills| < PageLimit || offset >= MaxOffset then next
        else ScanFrom(next, pats, fetch, billType, offset + PageLimit)
  }

  /** Scanning from `offset` absorbs the hits of the pages `PagesFrom` lists. */
  lemma {:induction false} ScanFromPages(m: OMap<Candidate>, pats: Patterns, fetch: Fetch, billType: string, offset: nat)
    ensures ScanFrom(m, pats, fetch, billType, offset)
            == AbsorbAllFirst(m, PageHits(pats, billType, PagesFrom(fetch, billType, offset)))
    decreases if offset <= MaxOffset then MaxOffset - offset else 0
  {
    var r := fetch(billType, offset);
    if r.Some? && |r.value| > 0 {
      var bills := r.value;
      if |bills| < PageLimit || offset >= MaxOffset {
        LastPage(m, pats, fetch, billType, offset);
      } else {
        var next := AbsorbAllFirst(m, TitleHits(pats, billType, bills));
        ScanFromPages(next, pats, fetch, billType, offset + PageLimit);
        FullPage(m, pats, fetch, billType, offset);
      }
    }
  }

  lemma LastPage(m: OMap<Candidate>, pats: Patterns, fetch: Fetch, billType: string, offset: nat)
    requires fetch(billType, offset).Some? && |fetch(billType, offset).value| > 0
    requires |fetch(billType, offset).value| < PageLimit || offset >= MaxOffset
    ensures ScanFrom(m, pats, fetch, billType, offset)
            == AbsorbAllFirst(m, PageHits(pats, billType, PagesFrom(fetch, billType, offset)))
  {
    var bills := fetch(billType, offset).value;
    assert PagesFrom(fetch, billType, offset) == [bills];
    assert [bills][..0] == [];
    assert PageHits(pats, billType, [bills]) == TitleHits(pats, billType, bills);
  }

  lemma FullPage(m: OMap<Candidate>, pats: Patterns, fetch: Fetch, billType: string, offset: nat)
    requires fetch(billType, offset).Some? && |fetch(billType, offset).value| >= PageLimit && offset < MaxOffset
    requires var next := AbsorbAllFirst(m, TitleHits(pats, billType, fetch(billType, offset).value));
             ScanFrom(next, pats, fetch, billType, offset + PageLimit)
             == AbsorbAllFirst(next, PageHits(pats, billType, PagesFrom(fetch, billType, offset + PageLimit)))
    ensures ScanFrom(m, pats, fetch, billType, offset)
            == AbsorbAllFirst(m, PageHits(pats, billType, PagesFrom(fetch, billType, offset)))
  {
    var bills := fetch(billType, offset).value;
    var hits := TitleHits(pats, billType, bills);
    var rest := PagesFrom(fetch, billType, offset + PageLimit);
    assert PagesFrom(fetch, billType, offset) == [bills] + rest;
    assert [bills][..0] == [];
    assert PageHits(pats, billType, [bills]) == hits;
    PageHitsAppend(pats, billType, [bills], rest);
    AbsorbAllFirstAppend(m, hits, PageHits(pats, billType, rest));
  }

  lemma {:induction false} PageHitsAppend(pats: Patterns, billType: string, xs: seq<seq<ApiBill>>, ys: seq<seq<ApiBill>>)
    ensures PageHits(pats, billType, xs + ys) == PageHits(pats, billType, xs) + PageHits(pats, billType, ys)
  {
    if |ys| > 0 {
      PageHitsAppend(pats, billType, xs, ys[..|ys| - 1]);
      assert (xs + ys)[..|xs + ys| - 1] == xs + ys[..|ys| - 1];
    } else {
      assert xs + ys == xs;
    }
  }

  /** The paging loop for one bill type. */
  method ScanBillType(m: OMap<Candidate>, pats: Patterns, fetch: Fetch, billType: string)
    returns (candidates: OMap<Candidate>, requests: nat)
    ensures candidates == ScanFrom(m, pats, fetch, billType, 0)
    ensures 1 <= requests <= 5
  {
    candidates := m;
    requests := 0;
    var offset: nat := 0;
    var hasMore := true;
    ghost var page: nat := 0;
    ghost var goal := ScanFrom(m, pats, fetch, billType, offset);
    while hasMore
      invariant page <= 4 && offset == page * PageLimit
      invariant hasMore ==> requests == page
      invariant !hasMore ==> 1 <= requests <= page + 1
      invariant hasMore ==> goal == ScanFrom(candidates, pats, fetch, billType, offset)
      invariant !hasMore ==> goal == candidates
      decreases hasMore, MaxOffset - offset
    {
      requests := requests + 1;
      candidates, hasMore := ScanPage(candidates, pats, fetch, billType, offset);
      if hasMore {
        offset := offset + PageLimit;
        page := page + 1;
      }
    }
  }

  /** One request of the paging loop: read the page at `offset` and say
      whether another request follows. */
  method ScanPage(m: OMap<Candidate>, pats: Patterns, fetch: Fetch, billType: string, offset: nat)
    returns (candidates: OMap<Candidate>, hasMore: bool)
    ensures hasMore ==> offset < MaxOffset
                        && ScanFrom(m, pats, fetch, billType, offset) == ScanFrom(candidates, pats, fetch, billType, offset + PageLimit)
    ensures !hasMore ==> ScanFrom(m, pats, fetch, billType, offset) == candidates
  {
    candidates := m;
    hasMore := false;
    var response := fetch(billType, offset);
    if response.Some? {
      var bills := response.value;
      if |bills| > 0 {
        candidates := ReadTitles(candidates, pats, billType, bills);
        hasMore := |bills| >= PageLimit && offset < MaxOffset;
      }
    }
  }

  /** The inner loop over one page's bills. */
  method ReadTitles(m: OMap<Candidate>, pats: Patterns, billType: string, bills: seq<ApiBill>)
    returns (candidates: OMap<Candidate>)
    ensures candidates == AbsorbAllFirst(m, TitleHits(pats, billType, bills))
  {
    candidates := m;
    var j := 0;
    while j < |bills|
      invariant 0 <= j <= |bills|
      invariant candidates == AbsorbAllFirst(m, TitleHits(pats, billType, bills[..j]))
    {
      var bill := bills[j];
      assert bills[..j + 1][..j] == bills[..j];
      ghost var hits := TitleHits(pats, billType, bills[..j]);
      ghost var h := TitleHit(pats, billType, bill);
      if Truthy(bill.number) {
        var title := OrElse(bill.title, "");
        var number := bill.number.value;
        var matchesPositive := AnyTest(pats.positive, title);
        var matchesNegative := AnyTest(pats.negative, title);
        if matchesPositive && !matchesNegative {
          var id := NormalizeBillId(billType, number);
          if id !in candidates.entries {
            candidates := Put(candidates, id, Candidate(billType, number, title, ["title-scan"]));
          }
          AbsorbAllFirstSnoc(m, hits, h.value);
          assert TitleHits(pats, billType, bills[..j + 1]) == hits + [h.value];
        } else {
          assert TitleHits(pats, billType, bills[..j + 1]) == hits;
        }
      } else {
        assert TitleHits(pats, billType, bills[..j + 1]) == hits;
      }
      j := j + 1;
    }
    assert bills[..j] == bills;
  }

  /** A page's hits are exactly the hits of its bills, in order. */
  lemma {:induction false} TitleHitsIff(pats: Patterns, billType: string, bills: seq<ApiBill>, h: Hit)
    ensures h in TitleHits(pats, billType, bills) <==> exists i :: 0 <= i < |bills| && TitleHit(pats, billType, bills[i]) == Some(h)
  {
    if |bills| > 0 {
      var n := |bills| - 1;
      TitleHitsIff(pats, billType, bills[..n], h);
      if exists i :: 0 <= i < |bills| && TitleHit(pats, billType, bills[i]) == Some(h) {
        var i :| 0 <= i < |bills| && TitleHit(pats, billType, bills[i]) == Some(h);
        if i < n {
          assert bills[..n][i] == bills[i];
        }
      }
      if h in TitleHits(pats, billType, bills[..n]) {
        var i :| 0 <= i < n && TitleHit(pats, billType, bills[..n][i]) == Some(h);
        assert bills[..n][i] == bills[i];
      }
    }
  }

  // ------------------------------------------------------------------
  // Merge and tracked filter in `main`
  // ------------------------------------------------------------------

  /** The two merge loops of `main`: each channel's entries, committee
      channel first, are absorbed into `allCandidates`; a known id gets the
      channel's sources appended. */
  method MergeChannels(committee: OMap<Candidate>, title: OMap<Candidate>) returns (all: OMap<Candidate>)
    requires Valid(committee) && Valid(title)
    ensures all == Merged(committee, title)
  {
    all := Empty();
    all := AbsorbEntries(all, committee);
    all := AbsorbEntries(all, title);
  }

  /** `for (const [id, candidate] of from) { ... }` with the merge's update. */
  method AbsorbEntries(m: OMap<Candidate>, from: OMap<Candidate>) returns (all: OMap<Candidate>)
    requires Valid(from)
    ensures all == AbsorbAll(m, EntriesOf(from.keys, from.entries))
  {
    all := m;
    var i := 0;
    while i < |from.keys|
      invariant 0 <= i <= |from.keys|
      invariant all == AbsorbAll(m, EntriesOf(from.keys[..i], from.entries))
    {
      var id := from.keys[i];
      var candidate := from.entries[id];
      if id in all.entries {
        var e := all.entries[id];
        all := Put(all, id, e.(source := e.source + candidate.source));
      } else {
        all := Put(all, id, candidate);
      }
      EntriesOfStep(from.keys, from.entries, i);
      AbsorbAllSnoc(m, EntriesOf(from.keys[..i], from.entries), Hit(id, candidate));
      i := i + 1;
    }
    assert from.keys[..i] == from.keys;
  }

  /** The test `trackedSet.has(id)`, and its negation, as values. */
  function IsTracked(tracked: set<string>): string -> bool {
    id => id in tracked
  }

  function IsNew(tracked: set<string>): string -> bool {
    id => id !in tracked
  }

  /** The filter loop of `main`: candidates whose id is tracked are counted,
      the others are copied, in order, into `newCandidates`. */
  method FilterTracked(all: OMap<Candidate>, tracked: set<string>)
    returns (newCandidates: OMap<Candidate>, alreadyTrackedCount: nat)
    requires Valid(all)
    ensures Valid(newCandidates)
    ensures newCandidates.keys == Filter(all.keys, IsNew(tracked))
    ensures forall k :: k in newCandidates.entries <==> k in all.entries && k !in tracked
    ensures forall k :: k in newCandidates.entries ==> newCandidates.entries[k] == all.entries[k]
    ensures alreadyTrackedCount == |Filter(all.keys, IsTracked(tracked))|
    ensures alreadyTrackedCount + Size(newCandidates) == Size(all)
  {
    newCandidates := Empty();
    alreadyTrackedCount := 0;
    var i := 0;
    while i < |all.keys|
      invariant 0 <= i <= |all.keys|
      invariant Valid(newCandidates)
      invariant newCandidates.keys == Filter(all.keys[..i], IsNew(tracked))
      invariant forall k :: k in newCandidates.entries <==> k in all.keys[..i] && k !in tracked
      invariant forall k :: k in newCandidates.entries ==> newCandidates.entries[k] == all.entries[k]
      invariant alreadyTrackedCount + |newCandidates.keys| == i
    {
      var id := all.keys[i];
      FilterStep(all.keys, i, IsNew(tracked));
      assert id !in all.keys[..i] by {
        forall j | 0 <= j < i ensures all.keys[j] != id {
        }
      }
      if id in tracked {
        alreadyTrackedCount := alreadyTrackedCount + 1;
      } else {
        PutValid(newCandidates, id, all.entries[id]);
        newCandidates := Put(newCandidates, id, all.entries[id]);
      }
      PrefixMembership(all.keys, i);
      i := i + 1;
    }
    assert all.keys[..i] == all.keys;
    FilterPartitionSize(all.keys, IsTracked(tracked), IsNew(tracked));
  }

  /** Membership in a prefix one longer. */
  lemma PrefixMembership(keys: seq<string>, i: nat)
    requires i < |keys|
    ensures forall k :: k in keys[..i + 1] <==> k in keys[..i] || k == keys[i]
  {
    assert keys[..i + 1] == keys[..i] + [keys[i]];
  }
}
