// src/components/BillCard.jsx: the congress.gov link of each cited bill
// number, the colour and type classes of the card, and the ` / ` between
// the numbers in its header. src/components/PassedBillsSection.jsx carries
// a character-for-character copy of the link builder, which this module
// models once.

module BillCard {
  import opened Text
  import opened Scan
  import opened Dataset
  import opened BillNumber

  /** `const congress = 119` */
  const Congress: nat := 119

  /** The link before its type segment, cut where the template puts the
      congress number: `https://www.congress.gov/bill/119th-congress`. */
  const Site: string := "https://www.congress.gov/bill/"
  const Session: string := "th-congress"
  const Base: string := Site + "119" + Session

  /** No `c` stands right before a `d` in `s`. */
  predicate NoPair(s: string, c: char, d: char) {
    forall i :: 0 <= i < |s| - 1 ==> !(s[i] == c && s[i + 1] == d)
  }

  lemma NoPairAppend(a: string, b: string, c: char, d: char)
    requires NoPair(a, c, d) && NoPair(b, c, d)
    requires |a| == 0 || |b| == 0 || !(a[|a| - 1] == c && b[0] == d)
    ensures NoPair(a + b, c, d)
  {
    var s := a + b;
    forall i | 0 <= i < |s| - 1 ensures !(s[i] == c && s[i + 1] == d) {
      if i + 1 < |a| {
        assert s[i] == a[i] && s[i + 1] == a[i + 1];
      } else if i >= |a| {
        assert s[i] == b[i - |a|] && s[i + 1] == b[i + 1 - |a|];
      }
    }
  }

  /** Digits hold neither letter of a pair. */
  lemma NoPairDigits(n: string, c: char, d: char)
    requires AllDigits(n) && !IsDigit(c)
    ensures NoPair(n, c, d)
  {
    forall i | 0 <= i < |n| - 1 ensures n[i] != c {
      assert IsDigit(n[i]);
    }
  }

  /** When two adjacent characters of `pat` never stand together in `a` or
      across its end into `pat`, the first copy of `pat` is the one after
      `a`, and `replace` swaps it. */
  lemma ReplaceAfter(a: string, pat: string, b: string, rep: string, k: nat)
    requires k + 1 < |pat| && NoPair(a + pat[..k + 1], pat[k], pat[k + 1])
    ensures ReplaceFirst(a + pat + b, pat, rep) == a + rep + b
  {
    var s := a + pat + b;
    var h := a + pat[..k + 1];
    forall j: nat | j < |a| ensures !OccursAt(s, pat, j) {
      assert h[j + k] == s[j + k] && h[j + k + 1] == s[j + k + 1];
      if j + |pat| <= |s| {
        assert s[j..j + |pat|][k] == s[j + k] && s[j..j + |pat|][k + 1] == s[j + k + 1];
      }
    }
    ReplaceFirstAt(a, pat, b, rep);
  }

  /** `replace` changes nothing when two adjacent characters of `pat` never
      stand together in `s`. */
  lemma ReplaceAbsent(s: string, pat: string, rep: string, k: nat)
    requires k + 1 < |pat| && NoPair(s, pat[k], pat[k + 1])
    ensures ReplaceFirst(s, pat, rep) == s
  {
    forall j: nat | j + |pat| <= |s| ensures !OccursAt(s, pat, j) {
      assert s[j..j + |pat|][k] == s[j + k] && s[j..j + |pat|][k + 1] == s[j + k + 1];
    }
    ReplaceFirstAbsent(s, pat, rep);
  }

  /** The codes the first replacement sends to `senate-bill`. */
  predicate SenateCode(billType: string) {
    billType == "s" || billType == "sjres" || billType == "sconres"
  }

  /** The two chamber words of congress.gov paths. */
  const HouseWord: string := "house-bill"
  const SenateWord: string := "senate-bill"

  /** The replacement chosen for `house-bill`. */
  function ChamberName(billType: string): string {
    if SenateCode(billType) then SenateWord else HouseWord
  }

  /** The template and its three `replace` calls, in order; `/house-bill/`
      and `/senate-bill/` are written as the word between two slashes. */
  function LinkChain(billType: string, number: string): string {
    var url := "https://www.congress.gov/bill/" + NatToString(Congress) + "th-congress/" + HouseWord + "/" + number;
    var chamber := ReplaceFirst(url, HouseWord, ChamberName(billType));
    var typed := ReplaceFirst(chamber, "/" + HouseWord + "/", "/" + billType + "/");
    ReplaceFirst(typed, "/" + SenateWord + "/", "/" + billType + "/")
  }

  /** Neither letter pair occurs in a string that lacks one of its letters. */
  lemma NoPairChar(s: string, c: char, d: char)
    requires c !in s || d !in s
    ensures NoPair(s, c, d)
  {
    forall i | 0 <= i < |s| - 1 ensures !(s[i] == c && s[i + 1] == d) {
      assert s[i] in s && s[i + 1] in s;
    }
  }

  lemma SiteCutAtHo()
    ensures Site == "https://www.c" + "ongress.gov/bill/"
  {
  }

  lemma SessionCutAtHo()
    ensures Session == "th-c" + "ongress"
  {
  }

  lemma SiteCutAtSe()
    ensures Site == "https://www.congr" + "e" + "ss.gov/bill/"
  {
  }

  lemma SessionCutAtSe()
    ensures Session == "th-congr" + "e" + "ss"
  {
  }

  /** `h` never precedes `o` in the base: cut it between the two letters
      wherever they stand close. */
  lemma BaseHasNoHo()
    ensures NoPair(Base, 'h', 'o')
  {
    SiteCutAtHo();
    NoPairChar("https://www.c", 'h', 'o');
    NoPairChar("ongress.gov/bill/", 'h', 'o');
    NoPairAppend("https://www.c", "ongress.gov/bill/", 'h', 'o');
    SessionCutAtHo();
    NoPairChar("th-c", 'h', 'o');
    NoPairChar("ongress", 'h', 'o');
    NoPairAppend("th-c", "ongress", 'h', 'o');
    NoPairChar("119", 'h', 'o');
    NoPairAppend(Site, "119", 'h', 'o');
    NoPairAppend(Site + "119", Session, 'h', 'o');
  }

  /** `s` never precedes `e` in the base. */
  lemma BaseHasNoSe()
    ensures NoPair(Base, 's', 'e')
  {
    SiteCutAtSe();
    NoPairChar("https://www.congr", 's', 'e');
    NoPairChar("e", 's', 'e');
    NoPairChar("ss.gov/bill/", 's', 'e');
    NoPairAppend("https://www.congr", "e", 's', 'e');
    NoPairAppend("https://www.congr" + "e", "ss.gov/bill/", 's', 'e');
    SessionCutAtSe();
    NoPairChar("th-congr", 's', 'e');
    NoPairChar("ss", 's', 'e');
    NoPairAppend("th-congr", "e", 's', 'e');
    NoPairAppend("th-congr" + "e", "ss", 's', 'e');
    NoPairChar("119", 's', 'e');
    NoPairAppend(Site, "119", 's', 'e');
    NoPairAppend(Site + "119", Session, 's', 'e');
  }

  lemma CodesHaveNoSe(billType: string)
    requires billType in Codes
    ensures NoPair("/" + billType + "/", 's', 'e')
  {
  }

  /** The template with the congress number written out. */
  lemma TemplateText(number: string)
    ensures "https://www.congress.gov/bill/" + NatToString(Congress) + "th-congress/" + HouseWord + "/" + number
            == Base + "/" + HouseWord + "/" + number
  {
    assert NatToString(Congress) == "119" by {
      assert NatToString(11) == "11" by { assert NatToString(1) == "1"; }
    }
    assert "th-congress/" == Session + "/";
  }

  /** The first replacement puts `rep` in place of the template's chamber
      word `hw`. */
  lemma ChamberStep(base: string, hw: string, rep: string, number: string)
    requires |hw| >= 2 && NoPair(base, hw[0], hw[1]) && hw[0] != '/' && hw[1] != '/'
    ensures ReplaceFirst(base + "/" + hw + "/" + number, hw, rep) == base + "/" + rep + "/" + number
  {
    assert base + "/" + hw + "/" + number == (base + "/") + hw + ("/" + number);
    assert (base + "/") + hw[..1] == base + "/" + [hw[0]];
    NoPairAppend(base, "/" + [hw[0]], hw[0], hw[1]);
    ReplaceAfter(base + "/", hw, "/" + number, rep, 0);
    assert (base + "/") + rep + ("/" + number) == base + "/" + rep + "/" + number;
  }

  /** A path segment between two slashes, grouped either way. */
  lemma Regroup(base: string, word: string, number: string)
    ensures base + ("/" + word + "/") + number == base + "/" + word + "/" + number
  {
  }

  /** A senate code: the second replacement finds no `/hw/`, the third puts
      the code in place of `/sw/`. */
  lemma SenateSteps(base: string, hw: string, sw: string, billType: string, number: string)
    requires |hw| >= 2 && |sw| >= 2 && hw[0] != '/' && sw[0] != '/' && hw[1] != '/' && sw[1] != '/'
    requires NoPair(base, hw[0], hw[1]) && NoPair(base, sw[0], sw[1]) && NoPair(sw, hw[0], hw[1])
    requires AllDigits(number) && !IsDigit(hw[0]) && sw[|sw| - 1] != hw[0]
    ensures var slash := "/" + billType + "/";
      ReplaceFirst(ReplaceFirst(base + "/" + sw + "/" + number, "/" + hw + "/", slash), "/" + sw + "/", slash)
      == base + "/" + billType + "/" + number
  {
    var slash := "/" + billType + "/";
    var s := base + "/" + sw + "/" + number;
    NoPairDigits(number, hw[0], hw[1]);
    NoPairAppend(base, "/", hw[0], hw[1]);
    NoPairAppend(base + "/", sw, hw[0], hw[1]);
    NoPairAppend(base + "/" + sw, "/", hw[0], hw[1]);
    NoPairAppend(base + "/" + sw + "/", number, hw[0], hw[1]);
    assert ("/" + hw + "/")[1] == hw[0] && ("/" + hw + "/")[2] == hw[1];
    ReplaceAbsent(s, "/" + hw + "/", slash, 1);
    Regroup(base, sw, number);
    assert ("/" + sw + "/")[1] == sw[0] && ("/" + sw + "/")[2] == sw[1];
    assert ("/" + sw + "/")[..2] == "/" + [sw[0]];
    NoPairAppend(base, "/" + [sw[0]], sw[0], sw[1]);
    ReplaceAfter(base, "/" + sw + "/", number, slash, 1);
    Regroup(base, billType, number);
  }

  /** A house code: the second replacement puts the code in place of
      `/hw/`, the third finds no `/sw/`. */
  lemma HouseSteps(base: string, hw: string, sw: string, billType: string, number: string)
    requires |hw| >= 2 && |sw| >= 2 && hw[0] != '/' && sw[0] != '/' && hw[1] != '/' && sw[1] != '/'
    requires NoPair(base, hw[0], hw[1]) && NoPair(base, sw[0], sw[1]) && NoPair("/" + billType + "/", sw[0], sw[1])
    requires AllDigits(number) && !IsDigit(sw[0])
    ensures var slash := "/" + billType + "/";
      ReplaceFirst(ReplaceFirst(base + "/" + hw + "/" + number, "/" + hw + "/", slash), "/" + sw + "/", slash)
      == base + "/" + billType + "/" + number
  {
    var slash := "/" + billType + "/";
    Regroup(base, hw, number);
    assert ("/" + hw + "/")[1] == hw[0] && ("/" + hw + "/")[2] == hw[1];
    assert ("/" + hw + "/")[..2] == "/" + [hw[0]];
    NoPairAppend(base, "/" + [hw[0]], hw[0], hw[1]);
    ReplaceAfter(base, "/" + hw + "/", number, slash, 1);
    NoPairDigits(number, sw[0], sw[1]);
    NoPairAppend(base, slash, sw[0], sw[1]);
    NoPairAppend(base + slash, number, sw[0], sw[1]);
    assert ("/" + sw + "/")[1] == sw[0] && ("/" + sw + "/")[2] == sw[1];
    ReplaceAbsent(base + slash + number, "/" + sw + "/", slash, 1);
    Regroup(base, billType, number);
  }

  /** The `house-bill` / `senate-bill` choice of the first replacement is
      undone by the other two: for every code and digit string the link is
      the base, the code and the number. */
  lemma LinkChainCancels(billType: string, number: string)
    requires billType in Codes && AllDigits(number)
    ensures LinkChain(billType, number) == Base + "/" + billType + "/" + number
  {
    TemplateText(number);
    BaseHasNoHo();
    BaseHasNoSe();
    CodesHaveNoSe(billType);
    var hw, sw := HouseWord, SenateWord;
    assert hw[0] == 'h' && hw[1] == 'o' && sw[0] == 's' && sw[1] == 'e' && sw[|sw| - 1] == 'l';
    NoPairChar(sw, 'h', 'o');
    ChamberStep(Base, hw, ChamberName(billType), number);
    if SenateCode(billType) {
      SenateSteps(Base, hw, sw, billType, number);
    } else {
      HouseSteps(Base, hw, sw, billType, number);
    }
  }

  /** `getCongressLink`: null when no citation is found, otherwise the
      replaced template for the leftmost citation. */
  function GetCongressLink(billNumber: string): Option<string> {
    match ParseBillNumber(billNumber)
    case None => None
    case Some(p) => Some(LinkChain(p.billType, p.number))
  }

  /** No link exactly when no prefix followed by digits occurs; otherwise
      the link of the leftmost citation's code and digits. */
  lemma GetCongressLinkSpec(billNumber: string)
    ensures GetCongressLink(billNumber).None? <==> forall j :: 0 <= j ==> !AnyAltAt(billNumber, j, Prefixes)
    ensures GetCongressLink(billNumber).Some? ==>
      exists m :: IsLeftmostMatch(billNumber, Prefixes, m)
                  && GetCongressLink(billNumber).value == Base + "/" + Codes[m.alt] + "/" + m.digits
  {
    ParseBillNumberMatches(billNumber);
    var p := ParseBillNumber(billNumber);
    if p.Some? {
      LinkChainCancels(p.value.billType, p.value.number);
    }
  }

  /** `priorityClass` */
  function PriorityClass(priority: Option<string>): string {
    if Truthy(priority) then "priority-" + priority.value else "priority-low"
  }

  /** `typeClass` */
  function TypeClass(kind: Option<string>): string {
    if kind == Some("rider") then "type-rider" else ""
  }

  /** Every priority class starts with `priority-`; a missing or empty
      priority looks exactly like priority `low`; two different non-empty
      priorities never share a class; and only riders are marked. */
  lemma CardClassesSpec(b: Bill, other: Bill)
    ensures StartsWith(PriorityClass(b.priority), "priority-")
    ensures !Truthy(b.priority) ==> PriorityClass(b.priority) == PriorityClass(Some("low"))
    ensures Truthy(b.priority) && Truthy(other.priority) && b.priority != other.priority ==>
              PriorityClass(b.priority) != PriorityClass(other.priority)
    ensures TypeClass(b.kind) != "" <==> b.kind == Some("rider")
  {
    if Truthy(b.priority) && Truthy(other.priority) && PriorityClass(b.priority) == PriorityClass(other.priority) {
      assert PriorityClass(b.priority)[9..] == b.priority.value;
      assert PriorityClass(other.priority)[9..] == other.priority.value;
    }
  }

  /** One bill number in the header: the text shown, its link if any, and
      what follows it. */
  datatype NumberEntry = NumberEntry(text: string, link: Option<string>, separator: string)

  /** The header's `billNumbers.map(...)`. */
  function NumberEntries(billNumbers: seq<string>): seq<NumberEntry> {
    seq(|billNumbers|, i requires 0 <= i < |billNumbers| =>
      NumberEntry(billNumbers[i], GetCongressLink(billNumbers[i]), if i < |billNumbers| - 1 then " / " else ""))
  }

  /** The header's text, entry after entry. */
  function Rendered(entries: seq<NumberEntry>): string {
    if |entries| == 0 then "" else entries[0].text + entries[0].separator + Rendered(entries[1..])
  }

  lemma {:induction false} RenderedJoin(nums: seq<string>)
    ensures Rendered(NumberEntries(nums)) == Join(nums, " / ")
  {
    var e := NumberEntries(nums);
    if |nums| == 1 {
      assert Rendered(e[1..]) == "";
    } else if |nums| > 1 {
      RenderedJoin(nums[1..]);
      assert e[1..] == NumberEntries(nums[1..]);
    }
  }

  /** Each number keeps its text and gets its own link; ` / ` follows every
      number but the last, so the header reads as the numbers joined by
      ` / `. */
  lemma NumberEntriesSpec(nums: seq<string>)
    ensures |NumberEntries(nums)| == |nums|
    ensures forall i :: 0 <= i < |nums| ==>
      var e := NumberEntries(nums)[i];
      && e.text == nums[i] && e.link == GetCongressLink(nums[i])
      && (e.separator == " / " <==> i < |nums| - 1)
      && (e.separator != " / " ==> e.separator == "")
    ensures Rendered(NumberEntries(nums)) == Join(nums, " / ")
  {
    RenderedJoin(nums);
  }
}
