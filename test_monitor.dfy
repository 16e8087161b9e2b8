// scripts/test-monitor.js: the dry run of the monitor. It parses four sample
// numbers, groups the tracked bills by category, picks the bills
// highlighted for a floor vote and counts how many primary numbers parse.
// Its `parseBillNumber` has the same text as the monitor's and is
// `Monitor.ParseWithChamber`.

module TestMonitor {
  import opened Text
  import opened Seqs
  import opened Ordered
  import opened Dataset
  import opened BillNumber
  import opened Monitor

  // ------------------------------------------------------------------
  // The sample numbers
  // ------------------------------------------------------------------

  /** A display prefix, a space and digits parse to that prefix's code and
      chamber and to the digits. */
  lemma DisplayFormParses(a: nat, p: string, n: string)
    requires a < |Prefixes| && p == Prefixes[a] && |n| > 0 && AllDigits(n)
    ensures ParseWithChamber(p + " " + n) == Some(ChamberParsed(Codes[a], n, ChamberOf(Codes[a])))
  {
    var m := MatchOfDisplayForm(a, n);
    ClassifyPrefix(a);
    ClassifyWithChamberAgrees(Lower(m.text));
  }

  /** The first sample, a House bill. */
  lemma SampleHouseBill()
    ensures ParseWithChamber("H.R. 5214") == Some(ChamberParsed("hr", "5214", "house"))
  {
    assert "H.R." + " " + "5214" == "H.R. 5214";
    DisplayFormParses(0, "H.R.", "5214");
  }

  /** The second sample, a Senate bill. */
  lemma SampleSenateBill()
    ensures ParseWithChamber("S. 1234") == Some(ChamberParsed("s", "1234", "senate"))
  {
    assert "S." + " " + "1234" == "S. 1234";
    DisplayFormParses(1, "S.", "1234");
  }

  /** The third sample, a House joint resolution. */
  lemma SampleHouseJoint()
    ensures ParseWithChamber("H.J.Res. 45") == Some(ChamberParsed("hjres", "45", "house"))
  {
    assert "H.J.Res." + " " + "45" == "H.J.Res. 45";
    DisplayFormParses(2, "H.J.Res.", "45");
  }

  /** The fourth sample, a Senate concurrent resolution. */
  lemma SampleSenateConcurrent()
    ensures ParseWithChamber("S.Con.Res. 12") == Some(ChamberParsed("sconres", "12", "senate"))
  {
    assert "S.Con.Res." + " " + "12" == "S.Con.Res. 12";
    DisplayFormParses(5, "S.Con.Res.", "12");
  }

  // ------------------------------------------------------------------
  // byCategory
  // ------------------------------------------------------------------

  function InCategory(c: string): Bill -> bool {
    (b: Bill) => b.category == c
  }

  /** The object `byCategory`: for each category, in the order first seen,
      the bills of that category in file order. */
  function ByCategory(bills: seq<Bill>): OMap<seq<Bill>> {
    if |bills| == 0 then Empty()
    else
      var g := ByCategory(bills[..|bills| - 1]);
      var b := bills[|bills| - 1];
      Put(g, b.category, (if b.category in g.entries then g.entries[b.category] else []) + [b])
  }

  /** The `forEach` that fills `byCategory`. */
  method GroupByCategory(bills: seq<Bill>) returns (byCategory: OMap<seq<Bill>>)
    ensures byCategory == ByCategory(bills)
  {
    byCategory := Empty();
    for i := 0 to |bills|
      invariant byCategory == ByCategory(bills[..i])
    {
      assert bills[..i + 1][..i] == bills[..i];
      var category := bills[i].category;
      var group := if category in byCategory.entries then byCategory.entries[category] else [];
      byCategory := Put(byCategory, category, group + [bills[i]]);
    }
    assert bills[..|bills|] == bills;
  }

  predicate HasCategory(bills: seq<Bill>, c: string) {
    exists i :: 0 <= i < |bills| && bills[i].category == c
  }

  /** The groups: each category is listed once, exactly the categories of
      some bill are listed, and each group is the bills of its category, in
      file order. */
  lemma {:induction false} ByCategorySpec(bills: seq<Bill>)
    ensures Valid(ByCategory(bills))
    ensures forall c :: c in ByCategory(bills).entries <==> HasCategory(bills, c)
    ensures forall c :: c in ByCategory(bills).entries ==> ByCategory(bills).entries[c] == Filter(bills, InCategory(c))
  {
    if |bills| > 0 {
      var init, b := bills[..|bills| - 1], bills[|bills| - 1];
      var g := ByCategory(init);
      ByCategorySpec(init);
      var group := (if b.category in g.entries then g.entries[b.category] else []) + [b];
      PutValid(g, b.category, group);
      var r := ByCategory(bills);
      assert r == Put(g, b.category, group);
      forall c ensures c in r.entries <==> HasCategory(bills, c) {
        HasCategoryStep(bills, c);
      }
      forall c | c in r.entries ensures r.entries[c] == Filter(bills, InCategory(c)) {
        GroupStep(bills, c);
      }
    }
  }

  lemma HasCategoryStep(bills: seq<Bill>, c: string)
    requires |bills| > 0
    ensures HasCategory(bills, c) <==>
              HasCategory(bills[..|bills| - 1], c) || bills[|bills| - 1].category == c
  {
    var init := bills[..|bills| - 1];
    if HasCategory(bills, c) && bills[|bills| - 1].category != c {
      var i :| 0 <= i < |bills| && bills[i].category == c;
      assert init[i] == bills[i];
    }
    if HasCategory(init, c) {
      var i :| 0 <= i < |init| && init[i].category == c;
      assert bills[i] == init[i];
    }
  }

  /** One more bill extends its own category's group and no other. */
  lemma GroupStep(bills: seq<Bill>, c: string)
    requires |bills| > 0
    requires var g := ByCategory(bills[..|bills| - 1]);
      forall c :: c in g.entries ==> g.entries[c] == Filter(bills[..|bills| - 1], InCategory(c))
    requires var g := ByCategory(bills[..|bills| - 1]);
      forall c :: c in g.entries <==> HasCategory(bills[..|bills| - 1], c)
    requires c in ByCategory(bills).entries
    ensures ByCategory(bills).entries[c] == Filter(bills, InCategory(c))
  {
    var init, b := bills[..|bills| - 1], bills[|bills| - 1];
    var g := ByCategory(init);
    assert Filter(bills, InCategory(c)) == Filter(init, InCategory(c)) + (if b.category == c then [b] else []);
    if c !in g.entries {
      NoneInCategory(init, c);
    }
  }

  lemma {:induction false} NoneInCategory(bills: seq<Bill>, c: string)
    requires !HasCategory(bills, c)
    ensures Filter(bills, InCategory(c)) == []
  {
    if |bills| > 0 {
      var init := bills[..|bills| - 1];
      forall i | 0 <= i < |init| ensures init[i].category != c {
        assert init[i] == bills[i];
      }
      NoneInCategory(init, c);
    }
  }

  /** Sum of the group sizes over `keys`. */
  function GroupSizes(keys: seq<string>, entries: map<string, seq<Bill>>): nat
    requires forall k :: k in keys ==> k in entries
  {
    if |keys| == 0 then 0
    else GroupSizes(keys[..|keys| - 1], entries) + |entries[keys[|keys| - 1]]|
  }

  /** The counts printed per category add up to the number of bills. */
  lemma {:induction false} ByCategoryCounts(bills: seq<Bill>)
    ensures Valid(ByCategory(bills))
    ensures GroupSizes(ByCategory(bills).keys, ByCategory(bills).entries) == |bills|
  {
    ByCategorySpec(bills);
    if |bills| > 0 {
      var init, b := bills[..|bills| - 1], bills[|bills| - 1];
      var g := ByCategory(init);
      ByCategoryCounts(init);
      var group := (if b.category in g.entries then g.entries[b.category] else []) + [b];
      PutValid(g, b.category, group);
      var r := ByCategory(bills);
      if b.category in g.entries {
        GroupSizesUpdate(g.keys, g.entries, b.category, group);
        assert r.keys == g.keys;
      } else {
        GroupSizesFresh(g.keys, g.entries, b.category, group);
        assert r.keys == g.keys + [b.category];
      }
    }
  }

  /** Growing one listed group by one element grows the sum by one. */
  lemma {:induction false} GroupSizesUpdate(keys: seq<string>, entries: map<string, seq<Bill>>, k: string, v: seq<Bill>)
    requires forall x :: x in keys ==> x in entries
    requires k in entries && |v| == |entries[k]| + 1
    requires k in keys && forall i, j :: 0 <= i < j < |keys| ==> keys[i] != keys[j]
    ensures GroupSizes(keys, entries[k := v]) == GroupSizes(keys, entries) + 1
  {
    var init, last := keys[..|keys| - 1], keys[|keys| - 1];
    if last == k {
      forall i | 0 <= i < |init| ensures init[i] != k {
        assert init[i] == keys[i];
      }
      GroupSizesSame(init, entries, k, v);
    } else {
      assert k in init;
      GroupSizesUpdate(init, entries, k, v);
    }
  }

  /** A value for a key not listed does not change the sum. */
  lemma {:induction false} GroupSizesSame(keys: seq<string>, entries: map<string, seq<Bill>>, k: string, v: seq<Bill>)
    requires forall x :: x in keys ==> x in entries
    requires k !in keys
    ensures GroupSizes(keys, entries[k := v]) == GroupSizes(keys, entries)
  {
    if |keys| > 0 {
      GroupSizesSame(keys[..|keys| - 1], entries, k, v);
    }
  }

  /** A new key with a one-element group adds one to the sum. */
  lemma GroupSizesFresh(keys: seq<string>, entries: map<string, seq<Bill>>, k: string, v: seq<Bill>)
    requires forall x :: x in keys ==> x in entries
    requires k !in keys && |v| == 1
    ensures GroupSizes(keys + [k], entries[k := v]) == GroupSizes(keys, entries) + 1
  {
    assert (keys + [k])[..|keys|] == keys;
    GroupSizesSame(keys, entries, k, v);
  }

  // ------------------------------------------------------------------
  // The highlighted bills
  // ------------------------------------------------------------------

  predicate FloorVoteHighlight(b: Bill) {
    b.highlight == Some("floor-vote")
  }

  /** `bills.filter(b => b.highlight === 'floor-vote')`: exactly the
      highlighted bills, in file order. */
  lemma HighlightedBills(bills: seq<Bill>)
    ensures var r := Filter(bills, FloorVoteHighlight);
      && (forall k :: 0 <= k < |r| ==> FloorVoteHighlight(r[k]))
      && (forall k :: 0 <= k < |bills| && FloorVoteHighlight(bills[k]) ==> bills[k] in r)
      && SubsequenceOf(r, bills)
  {
    FilterIsSubsequence(bills, FloorVoteHighlight);
  }

  // ------------------------------------------------------------------
  // Parsing every primary number
  // ------------------------------------------------------------------

  /** The primary numbers of a list of bills none of which crashes. */
  function Primaries(bills: seq<Bill>): (r: seq<string>)
    requires !Crashes(bills)
    ensures |r| == |bills|
    ensures forall i :: 0 <= i < |bills| ==> r[i] == bills[i].billNumbers[0]
  {
    if |bills| == 0 then []
    else
      NoCrashInit(bills);
      Primaries(bills[..|bills| - 1]) + [bills[|bills| - 1].billNumbers[0]]
  }

  predicate Parses(n: string) {
    ParseWithChamber(n).Some?
  }

  predicate FailsToParse(n: string) {
    ParseWithChamber(n).None?
  }

  /** The counting loop: `None` when a bill has no number (the script then
      stops on the `match` of `undefined`); otherwise the two counters and
      the unparseable numbers in file order. */
  method CountParses(bills: seq<Bill>) returns (r: Option<(nat, nat, seq<string>)>)
    ensures r.None? <==> Crashes(bills)
    ensures r.Some? ==>
      && r.value.2 == Filter(Primaries(bills), FailsToParse)
      && r.value.0 == |Filter(Primaries(bills), Parses)|
      && r.value.1 == |r.value.2|
  {
    var parseSuccessCount, parseFailCount := 0, 0;
    var parseErrors: seq<string> := [];
    var i := 0;
    while i < |bills|
      invariant 0 <= i <= |bills|
      invariant !Crashes(bills[..i])
      invariant parseErrors == Filter(Primaries(bills[..i]), FailsToParse)
      invariant parseSuccessCount == |Filter(Primaries(bills[..i]), Parses)|
      invariant parseFailCount == |parseErrors|
    {
      if |bills[i].billNumbers| == 0 {
        return None;
      }
      var billNumber := bills[i].billNumbers[0];
      PrimariesStep(bills, i);
      FilterSnoc(Primaries(bills[..i]), billNumber, Parses);
      FilterSnoc(Primaries(bills[..i]), billNumber, FailsToParse);
      if ParseWithChamber(billNumber).Some? {
        parseSuccessCount := parseSuccessCount + 1;
      } else {
        parseFailCount := parseFailCount + 1;
        parseErrors := parseErrors + [billNumber];
      }
      i := i + 1;
    }
    assert bills[..i] == bills;
    r := Some((parseSuccessCount, parseFailCount, parseErrors));
  }

  lemma PrimariesStep(bills: seq<Bill>, i: nat)
    requires i < |bills| && !Crashes(bills[..i]) && |bills[i].billNumbers| > 0
    ensures !Crashes(bills[..i + 1])
    ensures Primaries(bills[..i + 1]) == Primaries(bills[..i]) + [bills[i].billNumbers[0]]
  {
    var pre, pre1 := bills[..i], bills[..i + 1];
    assert pre1[..i] == pre;
    forall j | 0 <= j < |pre1| ensures |pre1[j].billNumbers| > 0 {
      if j < i { assert pre1[j] == pre[j]; }
    }
  }

  /** Every bill is counted once: the two counters add up to the number of
      bills, and a number is listed as failed exactly when the discovery
      script's parser also rejects it. */
  lemma CountsCoverAll(bills: seq<Bill>)
    requires !Crashes(bills)
    ensures |Filter(Primaries(bills), Parses)| + |Filter(Primaries(bills), FailsToParse)| == |bills|
    ensures forall n :: n in Filter(Primaries(bills), FailsToParse) ==> ParseBillNumber(n).None?
  {
    FilterPartitionSize(Primaries(bills), Parses, FailsToParse);
    forall n | n in Filter(Primaries(bills), FailsToParse) ensures ParseBillNumber(n).None? {
      var r := Filter(Primaries(bills), FailsToParse);
      var k :| 0 <= k < |r| && r[k] == n;
      ParseWithChamberSpec(n);
    }
  }
}
