// scripts/update-bill-structure.js: a one-off rewrite of the data file. Each
// bill gets default position, type and priority fields and is then sent to
// the riders, the support bills or the regular bills, by three fixed id
// lists; regular bills also get an empty status. The clock is the `today`
// argument; reading and writing the file are left to the caller.

module BillStructure {
  import opened Text
  import opened Seqs
  import opened Dataset

  /** FreeDC's high-priority list. */
  const FreedcHighPriority: seq<string> := [
    "hr4922-s2686", "hr5140", "hr5125-s2854", "hr5143", "hr5242-secondchance", "hr2056-s1522",
    "hr884-s2636", "hr2096", "hr5103", "hr5107-s2687", "hr5163", "hr5172", "hr5179", "hr5181",
    "hr5183", "hr5214"]

  /** The riders of H.R. 5166. */
  const RiderIds: seq<string> := [
    "hr5166-police", "hr5166-youth", "hr5166-noncitizen", "hr5166-emissions", "hr5166-oilgas",
    "hr5166-abortion", "hr5166-reprohealth", "hr5166-deathwithdignity", "hr5166-covid",
    "hr5166-insurance", "hr5166-marijuana", "hr5166-rightturn", "hr5166-cameras", "hr5166-slapp",
    "hr5166-guns", "hr5166-sistercity", "hr5166-shield"]

  /** The bills the site supports. */
  const SupportBillIds: seq<string> := [
    "hr51-s51", "hr5093-s2688", "hr5092-s2689", "hr5070", "hr5051", "hr2693"]

  /** `ids.includes(id)`, scanned from the end. */
  predicate Includes(ids: seq<string>, id: string) {
    |ids| > 0 && (Includes(ids[..|ids| - 1], id) || ids[|ids| - 1] == id)
  }

  lemma {:induction false} IncludesIff(ids: seq<string>, id: string)
    ensures Includes(ids, id) <==> id in ids
  {
    if |ids| > 0 {
      var init := ids[..|ids| - 1];
      IncludesIff(init, id);
      assert ids == init + [ids[|ids| - 1]];
    }
  }

  datatype Role = Rider | Support | Regular

  /** The rider list is checked first, then the support list. */
  function RoleOf(b: Bill): Role {
    if Includes(RiderIds, b.id) then Rider
    else if Includes(SupportBillIds, b.id) then Support
    else Regular
  }

  /** The status object every regular bill starts with. */
  const DefaultStatus: Status := Status(None, None, None, false, false, false, 0, [])

  /** The defaults spread over every bill. */
  function WithDefaults(b: Bill): Bill {
    b.(position := Some("oppose"), kind := Some("bill"), priority := Some("low"), prioritySource := Some("manual"))
  }

  /** `updatedBill` once its list is known. */
  function Restructured(b: Bill): Bill {
    var base := WithDefaults(b);
    match RoleOf(b)
    case Rider =>
      base.(kind := Some("rider"), priority := Some("high"), prioritySource := Some("freedc"), fiscalYear := Some("2026"))
    case Support =>
      base.(position := Some("support"), priority := Some("high"))
    case Regular =>
      var freedc := Includes(FreedcHighPriority, b.id);
      base.(priority := Some(if freedc then "high" else "low"),
            prioritySource := Some(if freedc then "freedc" else "manual"),
            status := Some(DefaultStatus))
  }

  /** The restructured bills of role `r`, in input order. */
  function Placed(bills: seq<Bill>, r: Role): seq<Bill> {
    Map(Where(bills, RoleOf, r), Restructured)
  }

  /** The whole run: `None` when the file has no `bills` array (the
      `forEach` then throws before anything is written), otherwise the new
      file contents. */
  method UpdateStructure(data: Data, today: string) returns (r: Option<Data>)
    ensures data.bills.None? <==> r.None?
    ensures r.Some? ==>
      var bills := data.bills.value;
      r.value == Data(today, data.categories, Some(Placed(bills, Regular)),
                      Some(Placed(bills, Rider)), Some(Placed(bills, Support)))
  {
    if data.bills.None? {
      return None;
    }
    var bills := data.bills.value;
    var updatedBills: seq<Bill> := [];
    var riders: seq<Bill> := [];
    var supportBills: seq<Bill> := [];
    for i := 0 to |bills|
      invariant updatedBills == Placed(bills[..i], Regular)
      invariant riders == Placed(bills[..i], Rider)
      invariant supportBills == Placed(bills[..i], Support)
    {
      var role, updatedBill := Sort(bills[i]);
      PlacedStep(bills, i);
      if role == Rider {
        riders := riders + [updatedBill];
      } else if role == Support {
        supportBills := supportBills + [updatedBill];
      } else {
        updatedBills := updatedBills + [updatedBill];
      }
    }
    assert bills[..|bills|] == bills;
    r := Some(Data(today, data.categories, Some(updatedBills), Some(riders), Some(supportBills)));
  }

  /** The body of the `forEach`: the defaults, then the first list that
      names the bill decides its role and its fields. */
  method Sort(bill: Bill) returns (role: Role, updatedBill: Bill)
    ensures role == RoleOf(bill) && updatedBill == Restructured(bill)
  {
    updatedBill := bill.(position := Some("oppose"), kind := Some("bill"),
                         priority := Some("low"), prioritySource := Some("manual"));
    if Includes(RiderIds, bill.id) {
      updatedBill := updatedBill.(kind := Some("rider"), priority := Some("high"),
                                  prioritySource := Some("freedc"), fiscalYear := Some("2026"));
      return Rider, updatedBill;
    }
    if Includes(SupportBillIds, bill.id) {
      updatedBill := updatedBill.(position := Some("support"), priority := Some("high"));
      return Support, updatedBill;
    }
    if Includes(FreedcHighPriority, bill.id) {
      updatedBill := updatedBill.(priority := Some("high"), prioritySource := Some("freedc"));
    }
    updatedBill := updatedBill.(status := Some(DefaultStatus));
    role := Regular;
  }

  lemma PlacedStep(bills: seq<Bill>, i: nat)
    requires i < |bills|
    ensures forall r :: Placed(bills[..i + 1], r) ==
              Placed(bills[..i], r) + (if RoleOf(bills[i]) == r then [Restructured(bills[i])] else [])
  {
    var pre := bills[..i + 1];
    assert pre[..|pre| - 1] == bills[..i] && pre[|pre| - 1] == bills[i];
    forall r ensures Placed(pre, r) == Placed(bills[..i], r) + (if RoleOf(bills[i]) == r then [Restructured(bills[i])] else []) {
      WhereStep(pre, RoleOf, r);
      var w := Where(bills[..i], RoleOf, r);
      if RoleOf(bills[i]) == r {
        assert Where(pre, RoleOf, r) == w + [bills[i]];
        MapSnoc(w, bills[i], Restructured);
      } else {
        assert Where(pre, RoleOf, r) == w;
      }
    }
  }

  /** Each output list keeps the input order of its bills, which all have
      its role. */
  lemma PlacedInOrder(bills: seq<Bill>, r: Role)
    ensures Placed(bills, r) == Map(Where(bills, RoleOf, r), Restructured)
    ensures SubsequenceOf(Where(bills, RoleOf, r), bills)
    ensures forall k :: 0 <= k < |Where(bills, RoleOf, r)| ==> RoleOf(Where(bills, RoleOf, r)[k]) == r
  {
    WhereInOrder(bills, RoleOf, r);
  }

  /** Every input bill lands in exactly one of the three lists: as a
      multiset, the bills of the three roles are the input. */
  lemma RolesPartition(bills: seq<Bill>)
    ensures multiset(Where(bills, RoleOf, Regular)) + multiset(Where(bills, RoleOf, Rider))
            + multiset(Where(bills, RoleOf, Support)) == multiset(bills)
  {
    WhereSplit3(bills, RoleOf, Regular, Rider, Support);
  }

  /** The three lists together are as long as the input. */
  lemma PlacedSizes(bills: seq<Bill>)
    ensures |Placed(bills, Regular)| + |Placed(bills, Rider)| + |Placed(bills, Support)| == |bills|
  {
    RolesPartition(bills);
    assert |multiset(bills)| == |bills|;
  }

  /** Every role copies the bill's own fields. */
  lemma RestructuredCopies(b: Bill)
    ensures var u := Restructured(b);
      && u.id == b.id && u.billNumbers == b.billNumbers && u.title == b.title
      && u.description == b.description && u.sponsors == b.sponsors && u.category == b.category
      && u.highlight == b.highlight && u.provisional == b.provisional
      && (RoleOf(b) != Rider ==> u.fiscalYear == b.fiscalYear)
      && (RoleOf(b) != Regular ==> u.status == b.status)
  {
    var base := WithDefaults(b);
    assert base.id == b.id && base.billNumbers == b.billNumbers && base.title == b.title
      && base.description == b.description && base.sponsors == b.sponsors && base.category == b.category
      && base.highlight == b.highlight && base.provisional == b.provisional
      && base.fiscalYear == b.fiscalYear && base.status == b.status;
    match RoleOf(b)
    case Rider =>
    case Support =>
    case Regular =>
  }

  /** A rider is a high-priority FreeDC rider of fiscal year 2026, opposed;
      only riders get the type 'rider'. */
  lemma RiderFields(b: Bill)
    ensures var u := Restructured(b);
      && (RoleOf(b) == Rider <==> u.kind == Some("rider"))
      && (RoleOf(b) == Rider ==>
            u.priority == Some("high") && u.prioritySource == Some("freedc")
            && u.fiscalYear == Some("2026") && u.position == Some("oppose"))
  {
  }

  /** A support bill is a supported high-priority bill whose source stays
      'manual'. */
  lemma SupportFields(b: Bill)
    requires RoleOf(b) == Support
    ensures var u := Restructured(b);
      && u.position == Some("support") && u.priority == Some("high")
      && u.prioritySource == Some("manual") && u.kind == Some("bill")
  {
  }

  /** A regular bill is opposed, gets the empty status, and is high/freedc
      exactly when FreeDC lists it, low/manual otherwise. */
  lemma RegularFields(b: Bill)
    requires RoleOf(b) == Regular
    ensures var u := Restructured(b);
      && u.position == Some("oppose") && u.kind == Some("bill") && u.status == Some(DefaultStatus)
      && (u.priority == Some("high") <==> b.id in FreedcHighPriority)
      && (u.prioritySource == Some("freedc") <==> b.id in FreedcHighPriority)
      && (u.priority == Some("low") <==> b.id !in FreedcHighPriority)
      && (u.prioritySource == Some("manual") <==> b.id !in FreedcHighPriority)
  {
    IncludesIff(FreedcHighPriority, b.id);
  }

  /** The rider list wins over the other two, and the support list over the
      FreeDC list. */
  lemma RolePrecedence(b: Bill)
    ensures RoleOf(b) == Rider <==> b.id in RiderIds
    ensures RoleOf(b) == Support <==> b.id !in RiderIds && b.id in SupportBillIds
    ensures RoleOf(b) == Regular <==> b.id !in RiderIds && b.id !in SupportBillIds
  {
    IncludesIff(RiderIds, b.id);
    IncludesIff(SupportBillIds, b.id);
  }
}
