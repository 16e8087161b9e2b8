// The end of `main` in scripts/discover-bills.js: each new candidate whose
// details can be fetched is scored and put in one of three tiers, and, on a
// live run, the auto-add tier is appended to a freshly read copy of the
// dataset. The details request is a parameter (`DetailsFetch`); the file
// read and write are the `reread` argument and the returned `Outcome`.

module DiscoverReport {
  import opened Text
  import opened Seqs
  import opened Ordered
  import opened Dataset
  import opened BillNumber
  import opened Candidates
  import opened DcPatterns
  import opened DiscoverBills
  import opened Relevance

  /** `fetchCandidateDetails(billType, number)`; `None` is its `null`. */
  type DetailsFetch = (string, string) -> Option<Details>

  /** The `entry` record `main` builds for a scored candidate. */
  datatype Entry = Entry(
    id: string,
    billType: string,
    number: string,
    displayNumber: string,
    title: string,
    score: int,
    reasons: seq<string>,
    details: Details,
    candidate: Candidate)

  datatype Tier = AutoAdd | Review | Skipped

  /** Score 40 and up is added automatically, 20 to 39 needs review, the
      rest is skipped. */
  const AutoAddScore: int := 40
  const ReviewScore: int := 20

  function TierOf(score: int): Tier {
    if score >= AutoAddScore then AutoAdd
    else if score >= ReviewScore then Review
    else Skipped
  }

  /** Each score falls in exactly the tier its range names. */
  lemma TierRanges(score: int)
    ensures TierOf(score) == AutoAdd <==> 40 <= score
    ensures TierOf(score) == Review <==> 20 <= score < 40
    ensures TierOf(score) == Skipped <==> score < 20
  {
  }

  /** The entries of `all` in tier `t`, in order: the list `main` pushes
      them onto. */
  function Bucket(all: seq<Entry>, t: Tier): seq<Entry> {
    if |all| == 0 then []
    else
      var e := all[|all| - 1];
      Bucket(all[..|all| - 1], t) + (if TierOf(e.score) == t then [e] else [])
  }

  /** The entry of a candidate whose details arrived: its score and reasons
      are those of the rules that fire. */
  function MakeEntry(id: string, c: Candidate, d: Details, pats: Patterns): Entry {
    var rules := Triggered(c, d, pats);
    Entry(id, c.billType, c.number, FormatBillType(c.billType) + " " + c.number, d.title,
          Score(rules), Reasons(rules), d, c)
  }

  /** The entry of one candidate: none when its details are `null`. */
  function EvalOne(id: string, c: Candidate, fetch: DetailsFetch, pats: Patterns): seq<Entry> {
    match fetch(c.billType, c.number)
    case None => []
    case Some(d) => [MakeEntry(id, c, d, pats)]
  }

  /** The entries of the candidates listed in `keys`, in that order. */
  function Evaluated(keys: seq<string>, entries: map<string, Candidate>, fetch: DetailsFetch, pats: Patterns): seq<Entry>
    requires forall k :: k in keys ==> k in entries
  {
    if |keys| == 0 then []
    else
      var id := keys[|keys| - 1];
      Evaluated(keys[..|keys| - 1], entries, fetch, pats) + EvalOne(id, entries[id], fetch, pats)
  }

  /** The scoring loop of `main`: a candidate without details is skipped
      with a warning; the others are scored and pushed onto the list of
      their tier. */
  method TierCandidates(newCandidates: OMap<Candidate>, fetch: DetailsFetch, pats: Patterns)
    returns (autoAdd: seq<Entry>, review: seq<Entry>, skipped: seq<Entry>)
    requires Valid(newCandidates)
    ensures var all := Evaluated(newCandidates.keys, newCandidates.entries, fetch, pats);
      && autoAdd == Bucket(all, AutoAdd)
      && review == Bucket(all, Review)
      && skipped == Bucket(all, Skipped)
  {
    var keys, entries := newCandidates.keys, newCandidates.entries;
    autoAdd, review, skipped := [], [], [];
    ghost var done: seq<Entry> := [];
    var i := 0;
    while i < |keys|
      invariant 0 <= i <= |keys|
      invariant done == Evaluated(keys[..i], entries, fetch, pats)
      invariant autoAdd == Bucket(done, AutoAdd)
      invariant review == Bucket(done, Review)
      invariant skipped == Bucket(done, Skipped)
    {
      var id := keys[i];
      EvaluatedSnoc(keys, entries, fetch, pats, i);
      var entry := Evaluate(id, entries[id], fetch, pats);
      if entry.Some? {
        var e := entry.value;
        TierStep(done, e);
        if e.score >= 40 {
          autoAdd := autoAdd + [e];
        } else if e.score >= 20 {
          review := review + [e];
        } else {
          skipped := skipped + [e];
        }
        done := done + [e];
      }
      i := i + 1;
    }
    assert keys[..i] == keys;
  }

  lemma EvaluatedSnoc(keys: seq<string>, entries: map<string, Candidate>, fetch: DetailsFetch, pats: Patterns, i: nat)
    requires forall k :: k in keys ==> k in entries
    requires i < |keys|
    ensures Evaluated(keys[..i + 1], entries, fetch, pats)
            == Evaluated(keys[..i], entries, fetch, pats) + EvalOne(keys[i], entries[keys[i]], fetch, pats)
  {
    assert keys[..i + 1][..i] == keys[..i];
  }

  /** One candidate of the loop: fetch its details and, when they arrive,
      score it. */
  method Evaluate(id: string, candidate: Candidate, fetch: DetailsFetch, pats: Patterns) returns (entry: Option<Entry>)
    ensures entry.None? ==> EvalOne(id, candidate, fetch, pats) == []
    ensures entry.Some? ==> EvalOne(id, candidate, fetch, pats) == [entry.value]
  {
    var details := fetch(candidate.billType, candidate.number);
    if details.None? {
      return None;
    }
    var score, reasons := ScoreRelevance(candidate, details.value, pats);
    entry := Some(Entry(id, candidate.billType, candidate.number,
                        FormatBillType(candidate.billType) + " " + candidate.number,
                        details.value.title, score, reasons, details.value, candidate));
  }

  /** One more entry joins exactly the tier its score names. */
  lemma TierStep(done: seq<Entry>, e: Entry)
    ensures Bucket(done + [e], AutoAdd) == Bucket(done, AutoAdd) + (if e.score >= 40 then [e] else [])
    ensures Bucket(done + [e], Review) == Bucket(done, Review) + (if 20 <= e.score < 40 then [e] else [])
    ensures Bucket(done + [e], Skipped) == Bucket(done, Skipped) + (if e.score < 20 then [e] else [])
  {
    assert (done + [e])[..|done|] == done;
  }

  /** A candidate has an entry exactly when its details arrived, and then
      the entry is the one built from them. */
  lemma {:induction false} EvaluatedIff(keys: seq<string>, entries: map<string, Candidate>, fetch: DetailsFetch, pats: Patterns, e: Entry)
    requires forall k :: k in keys ==> k in entries
    ensures e in Evaluated(keys, entries, fetch, pats) <==>
              e.id in keys && fetch(entries[e.id].billType, entries[e.id].number).Some?
              && e == MakeEntry(e.id, entries[e.id], fetch(entries[e.id].billType, entries[e.id].number).value, pats)
  {
    if |keys| > 0 {
      var init, id := keys[..|keys| - 1], keys[|keys| - 1];
      EvaluatedIff(init, entries, fetch, pats, e);
      InSnoc(keys, e.id);
    }
  }

  lemma InSnoc(s: seq<string>, x: string)
    requires |s| > 0
    ensures x in s <==> x in s[..|s| - 1] || x == s[|s| - 1]
  {
    assert s == s[..|s| - 1] + [s[|s| - 1]];
  }

  /** No more entries than candidates. */
  lemma {:induction false} EvaluatedSize(keys: seq<string>, entries: map<string, Candidate>, fetch: DetailsFetch, pats: Patterns)
    requires forall k :: k in keys ==> k in entries
    ensures |Evaluated(keys, entries, fetch, pats)| <= |keys|
  {
    if |keys| > 0 {
      EvaluatedSize(keys[..|keys| - 1], entries, fetch, pats);
    }
  }

  /** The three tiers split the scored candidates: together they hold each
      entry as often as the scoring produced it, and each entry's tier is
      the one its score names. */
  lemma TiersPartition(all: seq<Entry>)
    ensures multiset(Bucket(all, AutoAdd)) + multiset(Bucket(all, Review))
            + multiset(Bucket(all, Skipped)) == multiset(all)
    ensures |Bucket(all, AutoAdd)| + |Bucket(all, Review)| + |Bucket(all, Skipped)| == |all|
    ensures forall e :: e in Bucket(all, AutoAdd) ==> e.score >= 40
    ensures forall e :: e in Bucket(all, Review) ==> 20 <= e.score < 40
    ensures forall e :: e in Bucket(all, Skipped) ==> e.score < 20
  {
    TiersSplit(all);
    var a, r, k := Bucket(all, AutoAdd), Bucket(all, Review), Bucket(all, Skipped);
    calc {
      |a| + |r| + |k|;
      |multiset(a)| + |multiset(r)| + |multiset(k)|;
      |multiset(a) + multiset(r) + multiset(k)|;
      |multiset(all)|;
      |all|;
    }
    BucketTier(all, AutoAdd);
    BucketTier(all, Review);
    BucketTier(all, Skipped);
    forall e | e in a ensures e.score >= 40 {
      TierRanges(e.score);
    }
    forall e | e in r ensures 20 <= e.score < 40 {
      TierRanges(e.score);
    }
    forall e | e in k ensures e.score < 20 {
      TierRanges(e.score);
    }
  }

  /** Every entry of a bucket has the bucket's tier. */
  lemma {:induction false} BucketTier(all: seq<Entry>, t: Tier)
    ensures forall e :: e in Bucket(all, t) ==> TierOf(e.score) == t
  {
    if |all| > 0 {
      BucketTier(all[..|all| - 1], t);
    }
  }

  lemma {:induction false} TiersSplit(all: seq<Entry>)
    ensures multiset(Bucket(all, AutoAdd)) + multiset(Bucket(all, Review))
            + multiset(Bucket(all, Skipped)) == multiset(all)
  {
    if |all| > 0 {
      var init, last := all[..|all| - 1], all[|all| - 1];
      TiersSplit(init);
      var a0, r0, k0 := Bucket(init, AutoAdd), Bucket(init, Review), Bucket(init, Skipped);
      assert a0 + [] == a0 && r0 + [] == r0 && k0 + [] == k0;
      MultisetLast(all);
      match TierOf(last.score)
      case AutoAdd => ThreeWayStep(a0, r0, k0, init, last, a0 + [last], r0, k0);
      case Review => ThreeWayStep(a0, r0, k0, init, last, a0, r0 + [last], k0);
      case Skipped => ThreeWayStep(a0, r0, k0, init, last, a0, r0, k0 + [last]);
    }
  }

  // ------------------------------------------------------------------
  // Persisting the auto-add tier
  // ------------------------------------------------------------------

  /** What the run does to `bills.json`: nothing, a rewrite with the given
      contents, or a crash before writing (pushing onto a missing `bills`
      array throws). */
  datatype Outcome = Unchanged | Written(data: Data) | Crashed

  /** The records built for the auto-add entries, in tier order. */
  function NewRecords(autoAdd: seq<Entry>, today: string): (r: seq<Bill>)
    ensures |r| == |autoAdd|
  {
    if |autoAdd| == 0 then []
    else
      var e := autoAdd[|autoAdd| - 1];
      NewRecords(autoAdd[..|autoAdd| - 1], today) + [BuildBillEntry(e.billType, e.number, e.details, e.score, today)]
  }

  lemma {:induction false} NewRecordsIndex(autoAdd: seq<Entry>, today: string, k: nat)
    requires k < |autoAdd|
    ensures NewRecords(autoAdd, today)[k]
            == BuildBillEntry(autoAdd[k].billType, autoAdd[k].number, autoAdd[k].details, autoAdd[k].score, today)
  {
    if k < |autoAdd| - 1 {
      NewRecordsIndex(autoAdd[..|autoAdd| - 1], today, k);
    }
  }

  /** The persist step of `main`. A dry run, or an empty auto-add tier,
      leaves the file alone; otherwise each auto-add entry's record is pushed
      onto the re-read file's `bills`, in order, and `lastUpdated` becomes
      the run date. */
  method AppendAutoAdds(dryRun: bool, autoAdd: seq<Entry>, reread: Data, today: string) returns (out: Outcome)
    ensures dryRun || |autoAdd| == 0 ==> out == Unchanged
    ensures !dryRun && |autoAdd| > 0 && reread.bills.None? ==> out == Crashed
    ensures !dryRun && |autoAdd| > 0 && reread.bills.Some? ==>
              out == Written(reread.(bills := Some(reread.bills.value + NewRecords(autoAdd, today)), lastUpdated := today))
  {
    if dryRun || |autoAdd| == 0 {
      return Unchanged;
    }
    if reread.bills.None? {
      return Crashed;
    }
    var bills := PushRecords(reread.bills.value, autoAdd, today);
    out := Written(reread.(bills := Some(bills), lastUpdated := today));
  }

  /** The push loop: one record per auto-add entry, in order. */
  method PushRecords(bills: seq<Bill>, autoAdd: seq<Entry>, today: string) returns (r: seq<Bill>)
    ensures r == bills + NewRecords(autoAdd, today)
  {
    r := bills;
    var i := 0;
    while i < |autoAdd|
      invariant 0 <= i <= |autoAdd|
      invariant r == bills + NewRecords(autoAdd[..i], today)
    {
      var entry := autoAdd[i];
      var record := BuildBillEntry(entry.billType, entry.number, entry.details, entry.score, today);
      NewRecordsSnoc(autoAdd, today, i);
      AppendLast(bills, NewRecords(autoAdd[..i], today), record);
      r := r + [record];
      i := i + 1;
    }
    assert autoAdd[..i] == autoAdd;
  }

  lemma NewRecordsSnoc(autoAdd: seq<Entry>, today: string, i: nat)
    requires i < |autoAdd|
    ensures NewRecords(autoAdd[..i + 1], today)
            == NewRecords(autoAdd[..i], today) + [BuildBillEntry(autoAdd[i].billType, autoAdd[i].number, autoAdd[i].details, autoAdd[i].score, today)]
  {
    assert autoAdd[..i + 1][..i] == autoAdd[..i];
  }

  /** A rewrite keeps every record the file had, in place, and the riders,
      support bills and categories as they were. */
  lemma WrittenKeepsRecords(autoAdd: seq<Entry>, reread: Data, today: string, d: Data)
    requires reread.bills.Some?
    requires d == reread.(bills := Some(reread.bills.value + NewRecords(autoAdd, today)), lastUpdated := today)
    ensures d.bills.Some? && |d.bills.value| == |reread.bills.value| + |autoAdd|
    ensures d.bills.value[..|reread.bills.value|] == reread.bills.value
    ensures d.riders == reread.riders && d.supportBills == reread.supportBills && d.categories == reread.categories
  {
    var before := reread.bills.value;
    assert (before + NewRecords(autoAdd, today))[..|before|] == before;
  }

  /** The records after them are the auto-add entries' records, in order,
      each keyed by its entry's id and carrying its entry's score. */
  lemma NewRecordsIds(autoAdd: seq<Entry>, today: string)
    ensures forall k :: 0 <= k < |autoAdd| ==>
              && NewRecords(autoAdd, today)[k].id == NormalizeBillId(autoAdd[k].billType, autoAdd[k].number)
              && NewRecords(autoAdd, today)[k].relevanceScore == Some(autoAdd[k].score)
  {
    forall k | 0 <= k < |autoAdd|
      ensures && NewRecords(autoAdd, today)[k].id == NormalizeBillId(autoAdd[k].billType, autoAdd[k].number)
              && NewRecords(autoAdd, today)[k].relevanceScore == Some(autoAdd[k].score)
    {
      NewRecordsIndex(autoAdd, today, k);
    }
  }

  /** After a rewrite every id tracked before is still tracked, and so is
      the id of every auto-added entry: a second run counts them as already
      tracked instead of adding them again. */
  lemma WrittenTracksAdded(autoAdd: seq<Entry>, reread: Data, today: string, d: Data)
    requires reread.bills.Some?
    requires d == reread.(bills := Some(reread.bills.value + NewRecords(autoAdd, today)), lastUpdated := today)
    ensures forall x :: TrackedBy(AllBills(reread), x) ==> TrackedBy(AllBills(d), x)
    ensures forall k :: 0 <= k < |autoAdd| ==> TrackedBy(AllBills(d), NormalizeBillId(autoAdd[k].billType, autoAdd[k].number))
  {
    var before, added := reread.bills.value, NewRecords(autoAdd, today);
    var tail := OrEmpty(reread.riders) + OrEmpty(reread.supportBills);
    BillsInFront(reread);
    BillsInFront(d);
    assert AllBills(d) == (before + added) + tail;
    TrackedAfterInsert(before, added, tail);
    forall k | 0 <= k < |autoAdd|
      ensures TrackedBy(AllBills(d), NormalizeBillId(autoAdd[k].billType, autoAdd[k].number))
    {
      NewRecordsIndex(autoAdd, today, k);
    }
  }

  /** Records inserted after the bills keep every id tracked and are
      tracked themselves. */
  lemma TrackedAfterInsert(before: seq<Bill>, added: seq<Bill>, tail: seq<Bill>)
    ensures forall x :: TrackedBy(before + tail, x) ==> TrackedBy((before + added) + tail, x)
    ensures forall k :: 0 <= k < |added| ==> TrackedBy((before + added) + tail, added[k].id)
  {
    var after := before + added;
    assert after[..|before|] == before;
    forall x | TrackedBy(before + tail, x) ensures TrackedBy(after + tail, x) {
      TrackedGrows(before, after, tail, x);
    }
    forall k | 0 <= k < |added| ensures TrackedBy(after + tail, added[k].id) {
      TrackedInFront(after, tail, |before| + k);
    }
  }

  lemma BillsInFront(d: Data)
    requires d.bills.Some?
    ensures AllBills(d) == d.bills.value + (OrEmpty(d.riders) + OrEmpty(d.supportBills))
  {
  }

  /** The id of a record in front of the rest is tracked. */
  lemma TrackedInFront(bills: seq<Bill>, tail: seq<Bill>, j: nat)
    requires j < |bills|
    ensures TrackedBy(bills + tail, bills[j].id)
  {
    TrackedAt(bills + tail, j);
  }

  /** Records inserted between the bills and the rest keep every tracked id. */
  lemma TrackedGrows(before: seq<Bill>, after: seq<Bill>, tail: seq<Bill>, x: string)
    requires |before| <= |after| && after[..|before|] == before
    requires TrackedBy(before + tail, x)
    ensures TrackedBy(after + tail, x)
  {
    var all, all' := before + tail, after + tail;
    var i :| 0 <= i < |all| && TrackedByBill(all[i], x);
    if i < |before| {
      assert all'[i] == after[i] == before[i] == all[i];
    } else {
      var j := i + |after| - |before|;
      assert all'[j] == tail[i - |before|] == all[i];
    }
  }

  /** A record's own id is tracked. */
  lemma TrackedAt(all: seq<Bill>, j: nat)
    requires j < |all|
    ensures TrackedBy(all, all[j].id)
  {
    assert TrackedByBill(all[j], all[j].id);
  }
}
