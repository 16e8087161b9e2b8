// scripts/generate-stats.js: the summary the public site fetches. The
// regular bills are split into passed and pending by their stage; riders
// always count as pending opposition. Writing the file is left out.

module Stats {
  import opened Text
  import opened Seqs
  import opened Dataset

  /** A stage that counts as passed: `passed-...` or `enacted`. */
  predicate PassedStage(stage: string) {
    StartsWith(stage, "passed-") || stage == "enacted"
  }

  /** The first filter: a truthy stage that counts as passed. */
  predicate IsPassed(b: Bill) {
    Truthy(StageOf(b)) && PassedStage(StageOf(b).value)
  }

  /** The second filter, written out as the script writes it. */
  predicate IsPending(b: Bill) {
    !Truthy(StageOf(b)) || (!StartsWith(StageOf(b).value, "passed-") && StageOf(b).value != "enacted")
  }

  /** One `passed` entry; `number` is absent when the bill has no number. */
  datatype PassedEntry = PassedEntry(id: string, number: Option<string>, title: string, stage: string)

  datatype Breakdown = Breakdown(bills: nat, riders: nat, supportBills: nat)

  datatype Summary = Summary(
    lastUpdated: string,
    totalBills: nat,
    pendingBills: nat,
    passedBills: nat,
    breakdown: Breakdown,
    passed: seq<PassedEntry>)

  function EntryOf(b: Bill): PassedEntry
    requires IsPassed(b)
  {
    PassedEntry(b.id, First(b.billNumbers), b.title, StageOf(b).value)
  }

  /** `passedBills.map(...)` */
  function Entries(bills: seq<Bill>): (r: seq<PassedEntry>)
    requires forall k :: 0 <= k < |bills| ==> IsPassed(bills[k])
    ensures |r| == |bills|
  {
    if |bills| == 0 then []
    else Entries(bills[..|bills| - 1]) + [EntryOf(bills[|bills| - 1])]
  }

  /** The `stats` object. */
  function GenerateStats(d: Data): Summary {
    var bills, riders, supportBills := OrEmpty(d.bills), OrEmpty(d.riders), OrEmpty(d.supportBills);
    var passedBills, pendingBills := Filter(bills, IsPassed), Filter(bills, IsPending);
    Summary(d.lastUpdated, |bills| + |riders|, |pendingBills| + |riders|, |passedBills|,
            Breakdown(|bills|, |riders|, |supportBills|), Entries(passedBills))
  }

  /** The two filters are complements: every bill is passed or pending,
      never both. */
  lemma PendingIsNotPassed(b: Bill)
    ensures IsPending(b) <==> !IsPassed(b)
  {
  }

  /** Passed and pending split the regular bills without loss. */
  lemma PassedPendingPartition(bills: seq<Bill>)
    ensures multiset(Filter(bills, IsPassed)) + multiset(Filter(bills, IsPending)) == multiset(bills)
    ensures |Filter(bills, IsPassed)| + |Filter(bills, IsPending)| == |bills|
  {
    forall b ensures IsPending(b) == !IsPassed(b) {
      PendingIsNotPassed(b);
    }
    FilterPartition(bills, IsPassed, IsPending);
    FilterPartitionSize(bills, IsPassed, IsPending);
  }

  /** The totals: every opposed bill is pending or passed, the breakdown
      counts missing arrays as empty, and the date is copied. */
  lemma StatsTotals(d: Data)
    ensures var s := GenerateStats(d);
      && s.totalBills == s.pendingBills + s.passedBills
      && s.breakdown.bills == |OrEmpty(d.bills)|
      && s.breakdown.riders == |OrEmpty(d.riders)|
      && s.breakdown.supportBills == |OrEmpty(d.supportBills)|
      && s.totalBills == s.breakdown.bills + s.breakdown.riders
      && s.pendingBills >= s.breakdown.riders
      && s.lastUpdated == d.lastUpdated
  {
    PassedPendingPartition(OrEmpty(d.bills));
  }

  /** The `k`-th passed entry describes the `k`-th passed bill. */
  lemma {:induction false} EntriesIndex(bills: seq<Bill>, k: nat)
    requires forall j :: 0 <= j < |bills| ==> IsPassed(bills[j])
    requires k < |bills|
    ensures Entries(bills)[k] == EntryOf(bills[k])
  {
    var init := bills[..|bills| - 1];
    var rest := Entries(init);
    assert Entries(bills) == rest + [EntryOf(bills[|bills| - 1])];
    if k < |init| {
      EntriesIndex(init, k);
      assert bills[k] == init[k];
    }
  }

  /** Each `passed` entry carries the id, first number, title and stage of a
      passed bill, in the order of the bills. */
  lemma PassedEntries(d: Data, k: nat)
    requires k < GenerateStats(d).passedBills
    ensures var p := Filter(OrEmpty(d.bills), IsPassed);
      && |GenerateStats(d).passed| == |p|
      && GenerateStats(d).passed[k] == PassedEntry(p[k].id, First(p[k].billNumbers), p[k].title, StageOf(p[k]).value)
      && StageOf(p[k]).value != "" && PassedStage(StageOf(p[k]).value)
      && SubsequenceOf(p, OrEmpty(d.bills))
  {
    var p := Filter(OrEmpty(d.bills), IsPassed);
    EntriesIndex(p, k);
    FilterIsSubsequence(OrEmpty(d.bills), IsPassed);
  }
}
