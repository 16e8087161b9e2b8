// src/components/RecentActivity.jsx: the "recent activity" feed. Every bill
// and rider whose last action falls in the last 30 days yields at most one
// entry, classified by the first rule that applies; the entries are sorted
// newest first and the first ten are shown.
//
// Dates: a date string becomes a day number through `dayOf`, which stands
// for `parseLocalDate` (`None` for a string that does not parse). `today`
// is the day number of the current local date. The cutoff
// `now - 30 days` keeps the time of day of `now`, and a parsed date is
// local midnight, so a date is after the cutoff exactly when its day number
// is greater than `today - 30`. Daylight-saving shifts are not modelled.

module RecentActivity {
  import opened Text
  import opened Dataset
  import Seqs

  /** `isRecent`: a present, non-empty date that parses to a day after the
      cutoff. */
  predicate IsRecent(date: Option<string>, today: int, dayOf: string -> Option<int>) {
    Truthy(date) && dayOf(date.value).Some? && dayOf(date.value).value > today - 30
  }

  /** `item.status?.stage?.startsWith('passed-')` */
  predicate StagePassed(b: Bill) {
    StageOf(b).Some? && StartsWith(StageOf(b).value, "passed-")
  }

  function LastAction(b: Bill): Option<string> {
    if b.status.Some? then b.status.value.lastAction else None
  }

  datatype Kind = Passed | Introduced | Markup | Hearing | StatusChange | Unclassified

  /** The cascade, first rule first. */
  function KindOf(b: Bill): Kind {
    if StagePassed(b) then Passed
    else if LastAction(b) == Some("Introduced") || b.provisional then Introduced
    else if b.status.Some? && b.status.value.hasCommitteeMarkup then Markup
    else if b.status.Some? && b.status.value.hasCommitteeHearing then Hearing
    else if Truthy(LastAction(b)) then StatusChange
    else Unclassified
  }

  function TypeName(k: Kind): string {
    match k
    case Passed => "passed"
    case Introduced => "introduced"
    case Markup => "markup"
    case Hearing => "hearing"
    case StatusChange => "status-change"
    case Unclassified => ""
  }

  /** The description the cascade sets; "" drops the item. */
  function DescriptionOf(b: Bill): string {
    match KindOf(b)
    case Passed =>
      var stage := StageOf(b).value;
      if stage == "passed-house" then "Passed the House"
      else if stage == "passed-senate" then "Passed the Senate"
      else if stage == "passed-both" then "Passed both chambers"
      else ""
    case Introduced => "Introduced"
    case Markup => "Committee markup"
    case Hearing => "Committee hearing held"
    case StatusChange => LastAction(b).value
    case Unclassified => ""
  }

  /** One pushed entry; `day` is the day number of `date`. */
  datatype Activity = Activity(
    date: string, day: int, kind: string, icon: string, billNumbers: string, title: string,
    description: string, priority: Option<string>, category: string, isPassed: bool)

  function IconOf(k: Kind): string {
    match k
    case Passed => "⚠️"
    case Introduced => "🆕"
    case Markup => "📝"
    case Hearing => "👂"
    case StatusChange => "🔄"
    case Unclassified => "📋"
  }

  function LastActionDate(b: Bill): Option<string> {
    if b.status.Some? then b.status.value.lastActionDate else None
  }

  /** What one item adds to the feed, if anything. */
  function ActivityOf(b: Bill, today: int, dayOf: string -> Option<int>): Option<Activity> {
    var date := LastActionDate(b);
    if !IsRecent(date, today, dayOf) || DescriptionOf(b) == "" then None
    else
      var k := KindOf(b);
      Some(Activity(date.value, dayOf(date.value).value, TypeName(k), IconOf(k), Join(b.billNumbers, ", "),
                    b.title, DescriptionOf(b), b.priority, b.category, StagePassed(b)))
  }

  /** The feed before sorting, over the items in order. */
  function Activities(items: seq<Bill>, today: int, dayOf: string -> Option<int>): seq<Activity> {
    if |items| == 0 then []
    else
      var a := ActivityOf(items[|items| - 1], today, dayOf);
      Activities(items[..|items| - 1], today, dayOf) + (if a.Some? then [a.value] else [])
  }

  /** The body of the `forEach`: the cascade on mutable variables. */
  method Describe(item: Bill) returns (activityType: string, description: string, icon: string)
    ensures activityType == TypeName(KindOf(item)) && description == DescriptionOf(item)
    ensures icon == IconOf(KindOf(item))
  {
    activityType, description, icon := "", "", "📋";
    var stage := StageOf(item);
    if stage.Some? && StartsWith(stage.value, "passed-") {
      activityType, icon := "passed", "⚠️";
      if stage.value == "passed-house" {
        description := "Passed the House";
      } else if stage.value == "passed-senate" {
        description := "Passed the Senate";
      } else if stage.value == "passed-both" {
        description := "Passed both chambers";
      }
    } else if LastAction(item) == Some("Introduced") || item.provisional {
      activityType, icon, description := "introduced", "🆕", "Introduced";
    } else if item.status.Some? && item.status.value.hasCommitteeMarkup {
      activityType, icon, description := "markup", "📝", "Committee markup";
    } else if item.status.Some? && item.status.value.hasCommitteeHearing {
      activityType, icon, description := "hearing", "👂", "Committee hearing held";
    } else if Truthy(LastAction(item)) {
      activityType, icon, description := "status-change", "🔄", LastAction(item).value;
    }
  }

  /** The `forEach` over `[...allBills, ...allRiders]`. */
  method CollectActivities(allBills: seq<Bill>, allRiders: seq<Bill>, today: int, dayOf: string -> Option<int>)
    returns (activities: seq<Activity>)
    ensures activities == Activities(allBills + allRiders, today, dayOf)
  {
    var allItems := allBills + allRiders;
    activities := [];
    for i := 0 to |allItems|
      invariant activities == Activities(allItems[..i], today, dayOf)
    {
      var item := allItems[i];
      assert allItems[..i + 1][..i] == allItems[..i];
      var lastActionDate := LastActionDate(item);
      if IsRecent(lastActionDate, today, dayOf) {
        var activityType, description, icon := Describe(item);
        if description != "" {
          activities := activities + [Activity(lastActionDate.value, dayOf(lastActionDate.value).value,
                                               activityType, icon, Join(item.billNumbers, ", "), item.title,
                                               description, item.priority, item.category, StagePassed(item))];
        }
      }
    }
    assert allItems[..|allItems|] == allItems;
  }

  /** An item yields an entry exactly when its last action is recent and
      the cascade gives it a description; a recent item is dropped only when
      no rule applies or its `passed-` stage is none of the three known. */
  lemma ActivityOfSpec(b: Bill, today: int, dayOf: string -> Option<int>)
    ensures ActivityOf(b, today, dayOf).Some? <==> IsRecent(LastActionDate(b), today, dayOf) && DescriptionOf(b) != ""
    ensures DescriptionOf(b) == "" <==>
      KindOf(b) == Unclassified
      || (KindOf(b) == Passed && StageOf(b).value !in ["passed-house", "passed-senate", "passed-both"])
  {
  }

  /** The cascade is first-match: each kind holds exactly when its rule
      applies and no earlier rule does. */
  lemma KindOfSpec(b: Bill)
    ensures KindOf(b) == Passed <==> StagePassed(b)
    ensures KindOf(b) == Introduced <==> !StagePassed(b) && (LastAction(b) == Some("Introduced") || b.provisional)
    ensures KindOf(b) == Markup <==>
      !StagePassed(b) && !(LastAction(b) == Some("Introduced") || b.provisional)
      && b.status.Some? && b.status.value.hasCommitteeMarkup
    ensures KindOf(b) == Hearing <==>
      !StagePassed(b) && !(LastAction(b) == Some("Introduced") || b.provisional)
      && !(b.status.Some? && b.status.value.hasCommitteeMarkup)
      && b.status.Some? && b.status.value.hasCommitteeHearing
    ensures KindOf(b) == StatusChange ==> Truthy(LastAction(b)) && DescriptionOf(b) == LastAction(b).value
  {
  }

  /** The feed has at most one entry per item; every entry is recent, has a
      description, and is marked passed exactly when its type is `passed`. */
  lemma {:induction false} ActivitiesSpec(items: seq<Bill>, today: int, dayOf: string -> Option<int>)
    ensures |Activities(items, today, dayOf)| <= |items|
    ensures forall a :: a in Activities(items, today, dayOf) ==>
      a.day > today - 30 && a.description != "" && (a.isPassed <==> a.kind == "passed")
  {
    if |items| > 0 {
      ActivitiesSpec(items[..|items| - 1], today, dayOf);
    }
  }

  /** Newest first: no entry is older than one after it. */
  predicate NewestFirst(s: seq<Activity>) {
    forall i, j :: 0 <= i < j < |s| ==> s[i].day >= s[j].day
  }

  /** Insertion after every entry at least as new, which keeps equal dates
      in their input order. */
  function Insert(a: Activity, sorted: seq<Activity>): seq<Activity> {
    if |sorted| == 0 then [a]
    else if sorted[0].day >= a.day then [sorted[0]] + Insert(a, sorted[1..])
    else [a] + sorted
  }

  /** `.sort((a, b) => new Date(b.date) - new Date(a.date))` */
  function SortNewestFirst(s: seq<Activity>): seq<Activity> {
    if |s| == 0 then [] else Insert(s[|s| - 1], SortNewestFirst(s[..|s| - 1]))
  }

  /** No entry of `s` is newer than day `d`. */
  predicate DaysAtMost(s: seq<Activity>, d: int) {
    forall k :: 0 <= k < |s| ==> s[k].day <= d
  }

  lemma NewestFirstCons(x: Activity, r: seq<Activity>)
    requires NewestFirst(r) && DaysAtMost(r, x.day)
    ensures NewestFirst([x] + r)
  {
    var s := [x] + r;
    forall i, j | 0 <= i < j < |s| ensures s[i].day >= s[j].day {
      assert s[j] == r[j - 1];
      if i > 0 {
        assert s[i] == r[i - 1];
      }
    }
  }

  lemma NewestFirstTail(s: seq<Activity>)
    requires |s| > 0 && NewestFirst(s)
    ensures NewestFirst(s[1..]) && DaysAtMost(s[1..], s[0].day)
  {
    var r := s[1..];
    forall k | 0 <= k < |r| ensures r[k].day <= s[0].day {
      assert r[k] == s[k + 1];
    }
    forall i, j | 0 <= i < j < |r| ensures r[i].day >= r[j].day {
      assert r[i] == s[i + 1] && r[j] == s[j + 1];
    }
  }

  lemma {:induction false} InsertDays(a: Activity, sorted: seq<Activity>, d: int)
    requires DaysAtMost(sorted, d) && a.day <= d
    ensures DaysAtMost(Insert(a, sorted), d)
  {
    if |sorted| > 0 && sorted[0].day >= a.day {
      InsertDays(a, sorted[1..], d);
      var r := Insert(a, sorted[1..]);
      forall k | 0 <= k < |r| + 1 ensures ([sorted[0]] + r)[k].day <= d {
        if k > 0 {
          assert ([sorted[0]] + r)[k] == r[k - 1];
        }
      }
    } else if |sorted| > 0 {
      forall k | 0 <= k < |sorted| + 1 ensures ([a] + sorted)[k].day <= d {
        if k > 0 {
          assert ([a] + sorted)[k] == sorted[k - 1];
        }
      }
    }
  }

  /** Inserting into a newest-first list keeps it newest first. */
  lemma {:induction false} InsertSorted(a: Activity, sorted: seq<Activity>)
    requires NewestFirst(sorted)
    ensures NewestFirst(Insert(a, sorted))
  {
    if |sorted| == 0 {
    } else if sorted[0].day >= a.day {
      NewestFirstTail(sorted);
      InsertSorted(a, sorted[1..]);
      InsertDays(a, sorted[1..], sorted[0].day);
      NewestFirstCons(sorted[0], Insert(a, sorted[1..]));
    } else {
      NewestFirstTail(sorted);
      assert DaysAtMost(sorted, a.day) by {
        forall k | 0 <= k < |sorted| ensures sorted[k].day <= a.day {
          if k > 0 {
            assert sorted[1..][k - 1] == sorted[k];
          }
        }
      }
      NewestFirstCons(a, sorted);
    }
  }

  /** Inserting adds the one entry and loses none. */
  lemma {:induction false} InsertMultiset(a: Activity, sorted: seq<Activity>)
    ensures multiset(Insert(a, sorted)) == multiset(sorted) + multiset{a}
  {
    if |sorted| > 0 && sorted[0].day >= a.day {
      InsertMultiset(a, sorted[1..]);
      assert sorted == [sorted[0]] + sorted[1..];
    }
  }

  /** The sort returns the entries newest first, none lost or added. */
  lemma {:induction false} SortNewestFirstSpec(s: seq<Activity>)
    ensures NewestFirst(SortNewestFirst(s))
    ensures multiset(SortNewestFirst(s)) == multiset(s)
  {
    if |s| > 0 {
      var init := s[..|s| - 1];
      SortNewestFirstSpec(init);
      InsertSorted(s[|s| - 1], SortNewestFirst(init));
      InsertMultiset(s[|s| - 1], SortNewestFirst(init));
      Seqs.MultisetLast(s);
    }
  }

  /** The feed: sorted, then `.slice(0, 10)`. */
  function RecentActivities(allBills: seq<Bill>, allRiders: seq<Bill>, today: int, dayOf: string -> Option<int>): seq<Activity> {
    var sorted := SortNewestFirst(Activities(allBills + allRiders, today, dayOf));
    if |sorted| <= 10 then sorted else sorted[..10]
  }

  /** At most ten entries, newest first, all of them entries of the feed;
      every entry when there are ten or fewer, and otherwise no left-out
      entry newer than the last one shown. */
  lemma RecentActivitiesSpec(allBills: seq<Bill>, allRiders: seq<Bill>, today: int, dayOf: string -> Option<int>)
    ensures var all, shown := Activities(allBills + allRiders, today, dayOf), RecentActivities(allBills, allRiders, today, dayOf);
      && |shown| == (if |all| < 10 then |all| else 10)
      && NewestFirst(shown)
      && multiset(shown) <= multiset(all)
      && (|all| <= 10 ==> multiset(shown) == multiset(all))
      && (|all| > 10 ==> DaysAtMost(SortNewestFirst(all)[10..], shown[9].day))
      && (|all| > 10 ==> multiset(SortNewestFirst(all)[10..]) == multiset(all) - multiset(shown))
  {
    var all := Activities(allBills + allRiders, today, dayOf);
    var sorted := SortNewestFirst(all);
    SortNewestFirstSpec(all);
    assert |sorted| == |multiset(sorted)| == |multiset(all)| == |all|;
    if |sorted| > 10 {
      var shown := sorted[..10];
      assert sorted == shown + sorted[10..];
      assert multiset(sorted) == multiset(shown) + multiset(sorted[10..]);
      forall k | 0 <= k < |sorted[10..]| ensures sorted[10..][k].day <= shown[9].day {
        assert sorted[10..][k] == sorted[10 + k] && shown[9] == sorted[9];
      }
    }
  }

  /** `isPassed` on the entry: the stage starts with `passed-`. */
  lemma IsPassedSpec(b: Bill, today: int, dayOf: string -> Option<int>)
    requires ActivityOf(b, today, dayOf).Some?
    ensures ActivityOf(b, today, dayOf).value.isPassed <==> StageOf(b).Some? && StartsWith(StageOf(b).value, "passed-")
  {
  }

  /** What `formatDate` shows: nothing for a missing or empty string;
      `Today`, `Yesterday`, `N days ago` up to a week; a calendar date (its
      locale formatting is not modelled) otherwise, also for a date in the
      future; and JavaScript's `Invalid Date` text for a string that does
      not parse, since only an empty string is turned away before the date
      is formatted. */
  datatype DateText = Label(text: string) | Calendar(day: int) | Blank

  function FormatDate(dateString: Option<string>, today: int, dayOf: string -> Option<int>): DateText {
    if !Truthy(dateString) then Blank
    else if dayOf(dateString.value).None? then Label("Invalid Date")
    else
      var diffDays := today - dayOf(dateString.value).value;
      if diffDays == 0 then Label("Today")
      else if diffDays == 1 then Label("Yesterday")
      else if 1 < diffDays <= 7 then Label(NatToString(diffDays) + " days ago")
      else Calendar(dayOf(dateString.value).value)
  }

  /** The buckets: each label for exactly its range of day differences, and
      the number shown reads back as the difference. */
  lemma FormatDateSpec(dateString: Option<string>, today: int, dayOf: string -> Option<int>)
    ensures FormatDate(dateString, today, dayOf).Blank? <==> !Truthy(dateString)
    ensures Truthy(dateString) && dayOf(dateString.value).Some? ==>
      var day, r := dayOf(dateString.value).value, FormatDate(dateString, today, dayOf);
      && (r == Label("Today") <==> day == today)
      && (r == Label("Yesterday") <==> day == today - 1)
      && (r.Calendar? <==> today - day < 0 || today - day > 7)
      && (r.Calendar? ==> r.day == day)
      && (2 <= today - day <= 7 ==>
            |r.text| == 10 && r.text[1..] == " days ago" && AllDigits(r.text[..1]) && DigitsValue(r.text[..1]) == today - day)
  {
    if Truthy(dateString) && dayOf(dateString.value).Some? {
      var d := today - dayOf(dateString.value).value;
      if 2 <= d <= 7 {
        DigitsValueOfNatToString(d);
        var t := FormatDate(dateString, today, dayOf).text;
        assert t[..1] == NatToString(d);
      }
    }
  }
}
