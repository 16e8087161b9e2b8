// src/App.jsx: the bills the page lists for the selected categories and the
// search box, grouped under the categories in their order, and the two
// handlers that change the selection. The React state is the pair of
// arguments these functions take.

module AppFilters {
  import opened Text
  import opened Seqs
  import opened Dataset

  /** `list.some(x => x.toLowerCase().includes(term))` */
  predicate SomeContains(xs: seq<string>, term: string) {
    |xs| > 0 && (SomeContains(xs[..|xs| - 1], term) || Contains(Lower(xs[|xs| - 1]), term))
  }

  lemma {:induction false} SomeContainsIff(xs: seq<string>, term: string)
    ensures SomeContains(xs, term) <==> exists k :: 0 <= k < |xs| && Contains(Lower(xs[k]), term)
  {
    if |xs| > 0 {
      var init := xs[..|xs| - 1];
      SomeContainsIff(init, term);
      if SomeContains(init, term) {
        var k :| 0 <= k < |init| && Contains(Lower(init[k]), term);
        assert xs[k] == init[k];
      }
      if exists k :: 0 <= k < |xs| && Contains(Lower(xs[k]), term) {
        var k :| 0 <= k < |xs| && Contains(Lower(xs[k]), term);
        if k < |init| {
          assert init[k] == xs[k];
        }
      }
    }
  }

  /** The search test on a lower-cased term. */
  predicate MatchesSearch(b: Bill, term: string) {
    || Contains(Lower(b.title), term)
    || Contains(Lower(b.description), term)
    || SomeContains(b.sponsors, term)
    || SomeContains(b.billNumbers, term)
  }

  /** `filteredBills`: the category filter applies only to a non-empty
      selection, the search filter only to a term that is not blank after
      trimming; the term itself is lower-cased but not trimmed. */
  function FilteredBills(bills: seq<Bill>, selectedCategories: seq<string>, searchTerm: string): seq<Bill> {
    var byCategory := if |selectedCategories| > 0 then Filter(bills, (b: Bill) => b.category in selectedCategories) else bills;
    if Trim(searchTerm) != "" then
      var term := Lower(searchTerm);
      Filter(byCategory, b => MatchesSearch(b, term))
    else byCategory
  }

  /** Whether a bill survives both filters. */
  predicate Kept(b: Bill, selectedCategories: seq<string>, searchTerm: string) {
    && (|selectedCategories| == 0 || b.category in selectedCategories)
    && (IsBlank(searchTerm) || MatchesSearch(b, Lower(searchTerm)))
  }

  /** The two filters in a row are one filter by `Kept`. */
  lemma FilteredIsFilter(bills: seq<Bill>, selectedCategories: seq<string>, searchTerm: string)
    ensures FilteredBills(bills, selectedCategories, searchTerm) == Filter(bills, b => Kept(b, selectedCategories, searchTerm))
  {
    TrimEmptyIff(searchTerm);
    var sel, term := selectedCategories, Lower(searchTerm);
    var kept := b => Kept(b, sel, searchTerm);
    var inSel := (b: Bill) => b.category in sel;
    var found := (b: Bill) => MatchesSearch(b, term);
    if |sel| > 0 && Trim(searchTerm) != "" {
      FilterCompose(bills, inSel, found, kept);
    } else if |sel| > 0 {
      FilterExt(bills, inSel, kept);
    } else if Trim(searchTerm) != "" {
      FilterExt(bills, found, kept);
    } else {
      FilterAll(bills, kept);
    }
  }

  /** The listed bills keep the data file's order, and a bill is listed
      exactly when its category is selected (or nothing is) and the search
      term, unless blank, occurs in its title, description, a sponsor or a
      bill number, ignoring case. */
  lemma FilteredSpec(bills: seq<Bill>, selectedCategories: seq<string>, searchTerm: string)
    ensures SubsequenceOf(FilteredBills(bills, selectedCategories, searchTerm), bills)
    ensures forall b :: b in FilteredBills(bills, selectedCategories, searchTerm) <==>
      b in bills && Kept(b, selectedCategories, searchTerm)
  {
    FilteredIsFilter(bills, selectedCategories, searchTerm);
    FilterIsSubsequence(bills, b => Kept(b, selectedCategories, searchTerm));
  }

  /** With nothing selected and a blank search every bill is listed. */
  lemma NoFilters(bills: seq<Bill>, searchTerm: string)
    requires IsBlank(searchTerm)
    ensures FilteredBills(bills, [], searchTerm) == bills
  {
    TrimEmptyIff(searchTerm);
  }

  function CategoryOf(b: Bill): string {
    b.category
  }

  /** One entry of `groupedByCategory`. */
  datatype Group = Group(category: Category, bills: seq<Bill>)

  /** `categories.map(c => ({category: c, bills: filtered.filter(...)}))
      .filter(g => g.bills.length > 0)`, the two passes fused. */
  function Grouped(categories: seq<Category>, filtered: seq<Bill>): seq<Group> {
    if |categories| == 0 then []
    else
      var c := categories[|categories| - 1];
      var bills := Where(filtered, CategoryOf, c.id);
      Grouped(categories[..|categories| - 1], filtered) + (if |bills| > 0 then [Group(c, bills)] else [])
  }

  function CategoriesOf(groups: seq<Group>): seq<Category> {
    if |groups| == 0 then [] else CategoriesOf(groups[..|groups| - 1]) + [groups[|groups| - 1].category]
  }

  /** The groups follow the category order. */
  lemma {:induction false} GroupedInOrder(categories: seq<Category>, filtered: seq<Bill>)
    ensures |CategoriesOf(Grouped(categories, filtered))| == |Grouped(categories, filtered)|
    ensures SubsequenceOf(CategoriesOf(Grouped(categories, filtered)), categories)
  {
    if |categories| > 0 {
      var init, c := categories[..|categories| - 1], categories[|categories| - 1];
      GroupedInOrder(init, filtered);
      var gs0, gs := Grouped(init, filtered), Grouped(categories, filtered);
      var cs0 := CategoriesOf(gs0);
      if |Where(filtered, CategoryOf, c.id)| > 0 {
        assert gs[..|gs| - 1] == gs0 && gs[|gs| - 1].category == c;
        assert CategoriesOf(gs) == cs0 + [c];
        assert CategoriesOf(gs)[..|cs0|] == cs0;
      } else {
        assert gs == gs0;
        SubsequenceExtend(cs0, categories);
      }
    }
  }

  /** Each group is non-empty and holds exactly the listed bills of its
      category, a category of the data file. */
  lemma {:induction false} GroupedContents(categories: seq<Category>, filtered: seq<Bill>)
    ensures forall g :: g in Grouped(categories, filtered) ==>
      |g.bills| > 0 && g.bills == Where(filtered, CategoryOf, g.category.id) && g.category in categories
  {
    if |categories| > 0 {
      var init, c := categories[..|categories| - 1], categories[|categories| - 1];
      GroupedContents(init, filtered);
      assert categories == init + [c];
    }
  }

  /** Every category with a listed bill has its group. */
  lemma {:induction false} GroupedComplete(categories: seq<Category>, filtered: seq<Bill>, c: Category)
    requires c in categories && |Where(filtered, CategoryOf, c.id)| > 0
    ensures Group(c, Where(filtered, CategoryOf, c.id)) in Grouped(categories, filtered)
  {
    var init, last := categories[..|categories| - 1], categories[|categories| - 1];
    if c != last {
      assert categories == init + [last];
      GroupedComplete(init, filtered, c);
    }
  }

  /** Every bill of a group has the group's category, and a group's bills
      keep the listed order. */
  lemma GroupMembers(filtered: seq<Bill>, id: string)
    ensures SubsequenceOf(Where(filtered, CategoryOf, id), filtered)
    ensures forall k :: 0 <= k < |Where(filtered, CategoryOf, id)| ==> Where(filtered, CategoryOf, id)[k].category == id
  {
    WhereInOrder(filtered, CategoryOf, id);
  }

  /** Some category has id `id`. */
  predicate HasId(categories: seq<Category>, id: string) {
    |categories| > 0 && (HasId(categories[..|categories| - 1], id) || categories[|categories| - 1].id == id)
  }

  /** No two categories share an id. */
  predicate DistinctIds(categories: seq<Category>) {
    |categories| == 0 ||
    (DistinctIds(categories[..|categories| - 1]) && !HasId(categories[..|categories| - 1], categories[|categories| - 1].id))
  }

  function GroupTotal(groups: seq<Group>): nat {
    if |groups| == 0 then 0 else GroupTotal(groups[..|groups| - 1]) + |groups[|groups| - 1].bills|
  }

  /** The sizes of all the category buckets, empty ones included. */
  function BucketTotal(categories: seq<Category>, filtered: seq<Bill>): nat {
    if |categories| == 0 then 0
    else BucketTotal(categories[..|categories| - 1], filtered) + |Where(filtered, CategoryOf, categories[|categories| - 1].id)|
  }

  lemma {:induction false} GroupTotalIsBucketTotal(categories: seq<Category>, filtered: seq<Bill>)
    ensures GroupTotal(Grouped(categories, filtered)) == BucketTotal(categories, filtered)
  {
    if |categories| > 0 {
      var init, c := categories[..|categories| - 1], categories[|categories| - 1];
      GroupTotalIsBucketTotal(init, filtered);
      var gs0, gs := Grouped(init, filtered), Grouped(categories, filtered);
      if |Where(filtered, CategoryOf, c.id)| > 0 {
        assert gs[..|gs| - 1] == gs0;
      } else {
        assert gs == gs0;
      }
    }
  }

  /** One more listed bill adds one to the bucket total when its category
      is one of the (distinct) categories, and nothing otherwise. */
  lemma {:induction false} BucketTotalSnoc(categories: seq<Category>, filtered: seq<Bill>, x: Bill)
    requires DistinctIds(categories)
    ensures BucketTotal(categories, filtered + [x]) == BucketTotal(categories, filtered) + (if HasId(categories, x.category) then 1 else 0)
  {
    if |categories| > 0 {
      var init, c := categories[..|categories| - 1], categories[|categories| - 1];
      BucketTotalSnoc(init, filtered, x);
      var s := filtered + [x];
      assert s[..|s| - 1] == filtered && s[|s| - 1] == x;
      WhereStep(s, CategoryOf, c.id);
    }
  }

  /** With distinct category ids, the groups together hold exactly the
      listed bills whose category is one of the categories, so never more
      bills than are listed. */
  lemma {:induction false} GroupSizes(categories: seq<Category>, filtered: seq<Bill>)
    requires DistinctIds(categories)
    ensures GroupTotal(Grouped(categories, filtered)) == |Filter(filtered, (b: Bill) => HasId(categories, b.category))|
    ensures GroupTotal(Grouped(categories, filtered)) <= |filtered|
  {
    GroupTotalIsBucketTotal(categories, filtered);
    BucketTotalCounts(categories, filtered);
  }

  lemma {:induction false} BucketTotalCounts(categories: seq<Category>, filtered: seq<Bill>)
    requires DistinctIds(categories)
    ensures BucketTotal(categories, filtered) == |Filter(filtered, (b: Bill) => HasId(categories, b.category))|
  {
    if |filtered| == 0 {
      BucketTotalEmpty(categories);
    } else {
      var init, x := filtered[..|filtered| - 1], filtered[|filtered| - 1];
      BucketTotalCounts(categories, init);
      assert filtered == init + [x];
      BucketTotalSnoc(categories, init, x);
    }
  }

  lemma {:induction false} BucketTotalEmpty(categories: seq<Category>)
    ensures BucketTotal(categories, []) == 0
  {
    if |categories| > 0 { BucketTotalEmpty(categories[..|categories| - 1]); }
  }

  /** `toggleCategory`: remove every occurrence of a selected id, append an
      unselected one. */
  function ToggleCategory(prev: seq<string>, categoryId: string): seq<string> {
    if categoryId in prev then Filter(prev, id => id != categoryId) else prev + [categoryId]
  }

  /** Toggling flips the id's membership and leaves every other id as it
      was, in order; toggling an unselected id twice restores the
      selection. */
  lemma ToggleSpec(prev: seq<string>, categoryId: string)
    ensures categoryId in ToggleCategory(prev, categoryId) <==> categoryId !in prev
    ensures forall id :: id != categoryId ==> (id in ToggleCategory(prev, categoryId) <==> id in prev)
    ensures categoryId !in prev ==> ToggleCategory(prev, categoryId) == prev + [categoryId]
    ensures categoryId in prev ==> SubsequenceOf(ToggleCategory(prev, categoryId), prev)
    ensures categoryId !in prev ==> ToggleCategory(ToggleCategory(prev, categoryId), categoryId) == prev
  {
    var drop := (id: string) => id != categoryId;
    if categoryId in prev {
      FilterIsSubsequence(prev, drop);
    } else {
      var next := prev + [categoryId];
      assert next[..|next| - 1] == prev;
      FilterAll(prev, drop);
    }
  }

  /** `clearFilters`: no category stays selected and the search term is
      emptied. */
  function ClearFilters(): (r: (seq<string>, string))
    ensures |r.0| == 0 && |r.1| == 0
  {
    ([], "")
  }

  /** After clearing, every bill is listed again. */
  lemma ClearShowsAll(bills: seq<Bill>)
    ensures var (sel, term) := ClearFilters(); FilteredBills(bills, sel, term) == bills
  {
    NoFilters(bills, "");
  }
}
