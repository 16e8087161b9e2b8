// scripts/generate-sponsors.js: builds the sponsor lookup from a roster in
// CSV form (name, state, district, party, chamber). Each usable row adds
// two or three lookup keys, all mapped to the same member record; a later
// row overwrites an earlier one with the same key. The CSV text is the
// input; reading and writing files are left out.

module Sponsors {
  import opened Text
  import opened Ordered

  /** One member record of sponsors.json. */
  datatype Member = Member(name: string, state: string, district: Option<string>, party: string, chamber: string)

  /** `s.charAt(0)`: the first character, or "" for "". */
  function CharAt0(s: string): (r: string)
    ensures |r| <= 1
    ensures |s| > 0 ==> r == [s[0]]
  {
    if |s| > 0 then [s[0]] else ""
  }

  /** The party letter: D and R for the two parties, else the first character. */
  function PartyCode(party: string): string {
    if party == "Democratic" then "D" else if party == "Republican" then "R" else CharAt0(party)
  }

  function PrefixOf(chamber: string): string {
    if chamber == "Senate" then "Sen" else "Rep"
  }

  /** The lookup keys of one member: full name, first and last, and, for a
      name of more than two words, first, middle initial and last. */
  function KeysOf(memberName: string, chamber: string): (keys: seq<string>)
    ensures 2 <= |keys| <= 3
  {
    var nameParts := Split(memberName, ' ');
    var lastName := nameParts[|nameParts| - 1];
    var head := PrefixOf(chamber) + " ";
    var keys := [head + memberName, head + (nameParts[0] + " " + lastName)];
    if |nameParts| > 2 then
      keys + [head + (nameParts[0] + " " + CharAt0(nameParts[1]) + ". " + lastName)]
    else keys
  }

  /** What a line yields: nothing for a blank line or one with fewer than
      five fields, otherwise the keys and the member record. */
  function RowOf(line: string): Option<(seq<string>, Member)> {
    var trimmed := Trim(line);
    if trimmed == "" then None
    else
      var values := Split(trimmed, ',');
      if |values| < 5 then None
      else
        var memberName, state, district, party, chamber := values[0], values[1], values[2], values[3], values[4];
        Some((KeysOf(memberName, chamber),
              Member(memberName, state, if district == "Statewide" then None else Some(district),
                     PartyCode(party), chamber)))
  }

  /** `keys.forEach(key => sponsors[key] = sponsorData)` as a value. */
  function PutAll(m: OMap<Member>, keys: seq<string>, v: Member): OMap<Member> {
    if |keys| == 0 then m else Put(PutAll(m, keys[..|keys| - 1], v), keys[|keys| - 1], v)
  }

  /** What one line adds to the dictionary, given what it yields. */
  function AddRow(m: OMap<Member>, row: Option<(seq<string>, Member)>): OMap<Member> {
    match row
    case None => m
    case Some((keys, member)) => PutAll(m, keys, member)
  }

  /** The dictionary after the lines `1 .. n-1` when each line yields
      `rowOf(line)`; the header line is never read. The lemmas below are
      proved for any `rowOf`, so that the parsing of a line stays out of
      them. */
  function LoadedWith(lines: seq<string>, rowOf: string -> Option<(seq<string>, Member)>): OMap<Member> {
    if |lines| <= 1 then Empty()
    else AddRow(LoadedWith(lines[..|lines| - 1], rowOf), rowOf(lines[|lines| - 1]))
  }

  /** The dictionary the script builds from the lines of the CSV text. */
  function Loaded(lines: seq<string>): OMap<Member> {
    LoadedWith(lines, RowOf)
  }

  /** The whole script on the CSV text. */
  method GenerateSponsors(csvContent: string) returns (sponsors: OMap<Member>)
    ensures sponsors == Loaded(Split(csvContent, '\n'))
  {
    var lines := Split(csvContent, '\n');
    sponsors := Empty();
    var i := 1;
    while i < |lines|
      invariant 1 <= i <= |lines|
      invariant sponsors == Loaded(lines[..i])
    {
      LoadedStep(lines, i);
      sponsors := AddLine(sponsors, lines[i]);
      i := i + 1;
    }
    assert lines[..i] == lines;
  }

  /** The body of the loop over the lines. */
  method AddLine(m: OMap<Member>, line: string) returns (sponsors: OMap<Member>)
    ensures sponsors == AddRow(m, RowOf(line))
  {
    sponsors := m;
    var row := RowOf(line);
    if row.Some? {
      var (keys, sponsorData) := row.value;
      sponsors := AddKeys(sponsors, keys, sponsorData);
    }
  }

  lemma LoadedStep(lines: seq<string>, i: nat)
    requires 1 <= i < |lines|
    ensures Loaded(lines[..i + 1]) == AddRow(Loaded(lines[..i]), RowOf(lines[i]))
  {
    LoadedWithStep(lines, RowOf, i);
  }

  lemma LoadedWithStep(lines: seq<string>, rowOf: string -> Option<(seq<string>, Member)>, i: nat)
    requires 1 <= i < |lines|
    ensures LoadedWith(lines[..i + 1], rowOf) == AddRow(LoadedWith(lines[..i], rowOf), rowOf(lines[i]))
  {
    var pre := lines[..i + 1];
    assert pre[..|pre| - 1] == lines[..i] && pre[|pre| - 1] == lines[i];
  }

  /** The inner `forEach` over the keys. */
  method AddKeys(m: OMap<Member>, keys: seq<string>, sponsorData: Member) returns (sponsors: OMap<Member>)
    ensures sponsors == PutAll(m, keys, sponsorData)
  {
    sponsors := m;
    for j := 0 to |keys|
      invariant sponsors == PutAll(m, keys[..j], sponsorData)
    {
      assert keys[..j + 1][..j] == keys[..j];
      sponsors := Put(sponsors, keys[j], sponsorData);
    }
    assert keys[..|keys|] == keys;
  }

  /** After writing the keys, each of them maps to the record, and every
      other key keeps its value; the dictionary stays well formed. */
  lemma {:induction false} PutAllSpec(m: OMap<Member>, keys: seq<string>, v: Member)
    requires Valid(m)
    ensures Valid(PutAll(m, keys, v))
    ensures forall k :: k in PutAll(m, keys, v).entries <==> k in m.entries || k in keys
    ensures forall k :: k in keys ==> PutAll(m, keys, v).entries[k] == v
    ensures forall k :: k !in keys && k in m.entries ==> PutAll(m, keys, v).entries[k] == m.entries[k]
  {
    if |keys| > 0 {
      var init := keys[..|keys| - 1];
      PutAllSpec(m, init, v);
      PutValid(PutAll(m, init, v), keys[|keys| - 1], v);
      assert keys == init + [keys[|keys| - 1]];
    }
  }

  lemma {:induction false} LoadedWithValid(lines: seq<string>, rowOf: string -> Option<(seq<string>, Member)>)
    ensures Valid(LoadedWith(lines, rowOf))
  {
    if |lines| > 1 {
      var init := lines[..|lines| - 1];
      LoadedWithValid(init, rowOf);
      var row := rowOf(lines[|lines| - 1]);
      if row.Some? {
        PutAllSpec(LoadedWith(init, rowOf), row.value.0, row.value.1);
      }
    }
  }

  /** Every CSV text yields a well-formed dictionary. */
  lemma LoadedValid(lines: seq<string>)
    ensures Valid(Loaded(lines))
  {
    LoadedWithValid(lines, RowOf);
  }

  /** Whether line `j` (not the header) yields key `k`. */
  predicate YieldsWith(lines: seq<string>, rowOf: string -> Option<(seq<string>, Member)>, j: int, k: string)
    requires 0 <= j < |lines|
  {
    j >= 1 && rowOf(lines[j]).Some? && k in rowOf(lines[j]).value.0
  }

  predicate Yields(lines: seq<string>, j: int, k: string)
    requires 0 <= j < |lines|
  {
    YieldsWith(lines, RowOf, j, k)
  }

  lemma AddRowSets(m: OMap<Member>, row: Option<(seq<string>, Member)>, k: string)
    requires Valid(m) && row.Some? && k in row.value.0
    ensures k in AddRow(m, row).entries && AddRow(m, row).entries[k] == row.value.1
  {
    PutAllSpec(m, row.value.0, row.value.1);
  }

  lemma AddRowKeeps(m: OMap<Member>, row: Option<(seq<string>, Member)>, k: string)
    requires Valid(m) && !(row.Some? && k in row.value.0)
    ensures k in AddRow(m, row).entries <==> k in m.entries
    ensures k in m.entries ==> AddRow(m, row).entries[k] == m.entries[k]
  {
    if row.Some? {
      PutAllSpec(m, row.value.0, row.value.1);
    }
  }

  lemma {:induction false} LastRowWinsWith(lines: seq<string>, rowOf: string -> Option<(seq<string>, Member)>, j: nat, k: string)
    requires j < |lines| && YieldsWith(lines, rowOf, j, k)
    requires forall i :: j < i < |lines| ==> !YieldsWith(lines, rowOf, i, k)
    ensures k in LoadedWith(lines, rowOf).entries
    ensures LoadedWith(lines, rowOf).entries[k] == rowOf(lines[j]).value.1
  {
    var init, last := lines[..|lines| - 1], lines[|lines| - 1];
    LoadedWithValid(init, rowOf);
    if j == |lines| - 1 {
      AddRowSets(LoadedWith(init, rowOf), rowOf(last), k);
    } else {
      forall i | j < i < |init| ensures !YieldsWith(init, rowOf, i, k) {
        assert !YieldsWith(lines, rowOf, i, k);
        assert init[i] == lines[i];
      }
      assert init[j] == lines[j];
      LastRowWinsWith(init, rowOf, j, k);
      assert !YieldsWith(lines, rowOf, |lines| - 1, k);
      AddRowKeeps(LoadedWith(init, rowOf), rowOf(last), k);
    }
  }

  /** The last line wins: the record of a key is the one of the last line
      yielding it. */
  lemma LastRowWins(lines: seq<string>, j: nat, k: string)
    requires j < |lines| && Yields(lines, j, k)
    requires forall i :: j < i < |lines| ==> !Yields(lines, i, k)
    ensures k in Loaded(lines).entries
    ensures Loaded(lines).entries[k] == RowOf(lines[j]).value.1
  {
    forall i | j < i < |lines| ensures !YieldsWith(lines, RowOf, i, k) {
      assert !Yields(lines, i, k);
    }
    LastRowWinsWith(lines, RowOf, j, k);
  }

  lemma {:induction false} KeysHaveRowsWith(lines: seq<string>, rowOf: string -> Option<(seq<string>, Member)>, k: string)
    requires k in LoadedWith(lines, rowOf).entries
    ensures exists j :: 0 <= j < |lines| && YieldsWith(lines, rowOf, j, k)
  {
    var init, last := lines[..|lines| - 1], lines[|lines| - 1];
    LoadedWithValid(init, rowOf);
    var row := rowOf(last);
    if row.Some? && k in row.value.0 {
      assert YieldsWith(lines, rowOf, |lines| - 1, k);
    } else {
      AddRowKeeps(LoadedWith(init, rowOf), row, k);
      KeysHaveRowsWith(init, rowOf, k);
      var j :| 0 <= j < |init| && YieldsWith(init, rowOf, j, k);
      assert init[j] == lines[j];
      assert YieldsWith(lines, rowOf, j, k);
    }
  }

  /** No key comes from nowhere: every key present is yielded by some line
      after the header. */
  lemma KeysHaveRows(lines: seq<string>, k: string)
    requires k in Loaded(lines).entries
    ensures exists j :: 0 <= j < |lines| && Yields(lines, j, k)
  {
    KeysHaveRowsWith(lines, RowOf, k);
    var j :| 0 <= j < |lines| && YieldsWith(lines, RowOf, j, k);
    assert Yields(lines, j, k);
  }

  /** The keys of a member start with `Sen ` exactly for the Senate and with
      `Rep ` otherwise; there are three exactly for names of more than two
      words, and the first is the prefix and the full name. */
  lemma KeysOfSpec(memberName: string, chamber: string)
    ensures var keys, prefix := KeysOf(memberName, chamber), (if chamber == "Senate" then "Sen" else "Rep");
      && (forall i :: 0 <= i < |keys| ==> StartsWith(keys[i], prefix + " "))
      && keys[0] == prefix + " " + memberName
      && (|keys| == 3 <==> |Split(memberName, ' ')| > 2)
  {
    var keys, head := KeysOf(memberName, chamber), PrefixOf(chamber) + " ";
    var parts := Split(memberName, ' ');
    forall i | 0 <= i < |keys| ensures StartsWith(keys[i], head) {
      var rest := if i == 0 then memberName
                  else if i == 1 then parts[0] + " " + parts[|parts| - 1]
                  else parts[0] + " " + CharAt0(parts[1]) + ". " + parts[|parts| - 1];
      assert keys[i] == head + rest;
      PrefixStart(head, rest);
    }
  }

  lemma PrefixStart(p: string, rest: string)
    ensures StartsWith(p + rest, p)
  {
    assert (p + rest)[..|p|] == p;
  }

  /** The member record: district absent exactly for `Statewide`, the party
      letter D or R for the two parties and the first character otherwise,
      and the other fields copied from the row. */
  lemma MemberFields(line: string)
    requires RowOf(line).Some?
    ensures var values, m := Split(Trim(line), ','), RowOf(line).value.1;
      && |values| >= 5
      && m.name == values[0] && m.state == values[1] && m.chamber == values[4]
      && (m.district.None? <==> values[2] == "Statewide")
      && (m.district.Some? ==> m.district.value == values[2])
      && (values[3] == "Democratic" ==> m.party == "D")
      && (values[3] == "Republican" ==> m.party == "R")
      && (values[3] != "Democratic" && values[3] != "Republican" ==> m.party == CharAt0(values[3]))
  {
  }

  /** Blank lines, short lines and the header add nothing. */
  lemma SkippedLines(lines: seq<string>, line: string)
    requires Trim(line) == "" || |Split(Trim(line), ',')| < 5
    ensures Loaded(lines + [line]) == (if |lines| == 0 then Empty() else Loaded(lines))
    ensures |lines| == 0 ==> Loaded([line]) == Empty()
  {
    if |lines| > 0 {
      assert (lines + [line])[..|lines|] == lines;
    }
  }
}
