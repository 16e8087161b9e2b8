// String primitives the scripts and components rely on, stated over `string`
// (= seq<char>): JavaScript's `includes`, `startsWith`, `toLowerCase`, `trim`,
// `split` with a one-character separator, `join`, `replace` with a string
// pattern (first occurrence only), and the decimal conversions used by
// template literals and `Number(...)`.

module Text {

  /** `\d` in a JavaScript regular expression: ASCII digits only. */
  predicate IsDigit(c: char) {
    '0' <= c <= '9'
  }

  predicate AllDigits(s: string) {
    forall i :: 0 <= i < |s| ==> IsDigit(s[i])
  }

  /** `\s` in a JavaScript regular expression, which is also what `trim` strips:
      the WhiteSpace and LineTerminator code points of ECMAScript. */
  predicate IsSpace(c: char) {
    || c == ' ' || c == '\t' || c == '\n' || c == '\r'
    || c == '\U{000B}' || c == '\U{000C}' || c == '\U{00A0}' || c == '\U{1680}'
    || ('\U{2000}' <= c <= '\U{200A}')
    || c == '\U{2028}' || c == '\U{2029}' || c == '\U{202F}' || c == '\U{205F}'
    || c == '\U{3000}' || c == '\U{FEFF}'
  }

  predicate IsBlank(s: string) {
    forall i :: 0 <= i < |s| ==> IsSpace(s[i])
  }

  /** Case mapping of `toLowerCase` restricted to ASCII letters. */
  function LowerChar(c: char): char {
    if 'A' <= c <= 'Z' then (c as int + 32) as char else c
  }

  function UpperChar(c: char): char {
    if 'a' <= c <= 'z' then (c as int - 32) as char else c
  }

  function Lower(s: string): (r: string)
    ensures |r| == |s|
    ensures forall i :: 0 <= i < |s| ==> r[i] == LowerChar(s[i])
  {
    if |s| == 0 then "" else [LowerChar(s[0])] + Lower(s[1..])
  }

  function Upper(s: string): (r: string)
    ensures |r| == |s|
    ensures forall i :: 0 <= i < |s| ==> r[i] == UpperChar(s[i])
  {
    if |s| == 0 then "" else [UpperChar(s[0])] + Upper(s[1..])
  }

  lemma {:induction false} LowerAppend(a: string, b: string)
    ensures Lower(a + b) == Lower(a) + Lower(b)
    decreases |a|
  {
    if |a| > 0 {
      assert (a + b)[1..] == a[1..] + b;
      LowerAppend(a[1..], b);
    } else {
      assert a + b == b;
    }
  }

  /** `Lower(s)` is `t` when they agree character by character. */
  lemma LowerOf(s: string, t: string)
    requires |s| == |t| && forall i :: 0 <= i < |s| ==> LowerChar(s[i]) == t[i]
    ensures Lower(s) == t
  {
  }

  /** `s.startsWith(p)` */
  predicate StartsWith(s: string, p: string) {
    |p| <= |s| && s[..|p|] == p
  }

  /** `sub` occurs in `s` starting at index `i`. */
  predicate OccursAt(s: string, sub: string, i: nat) {
    i + |sub| <= |s| && s[i..i + |sub|] == sub
  }

  /** Character-by-character comparison behind `Contains`; written index by
      index so that the verifier can decide it on literal strings. */
  predicate CharsMatch(s: string, sub: string, i: nat, k: nat)
    requires i + |sub| <= |s| && k <= |sub|
    decreases |sub| - k
  {
    k == |sub| || (s[i + k] == sub[k] && CharsMatch(s, sub, i, k + 1))
  }

  predicate ContainsFrom(s: string, sub: string, i: nat)
    requires i <= |s|
    decreases |s| - i
  {
    (|sub| <= |s| - i && CharsMatch(s, sub, i, 0)) || (i < |s| && ContainsFrom(s, sub, i + 1))
  }

  /** `s.includes(sub)` */
  predicate Contains(s: string, sub: string) {
    ContainsFrom(s, sub, 0)
  }

  lemma {:induction false} CharsMatchIff(s: string, sub: string, i: nat, k: nat)
    requires i + |sub| <= |s| && k <= |sub|
    ensures CharsMatch(s, sub, i, k) <==> s[i + k..i + |sub|] == sub[k..]
    decreases |sub| - k
  {
    if k < |sub| {
      CharsMatchIff(s, sub, i, k + 1);
      assert s[i + k..i + |sub|] == [s[i + k]] + s[i + k + 1..i + |sub|];
      assert sub[k..] == [sub[k]] + sub[k + 1..];
    }
  }

  lemma {:induction false} ContainsFromIff(s: string, sub: string, i: nat)
    requires i <= |s|
    ensures ContainsFrom(s, sub, i) <==> exists j :: i <= j && OccursAt(s, sub, j)
    decreases |s| - i
  {
    if |sub| <= |s| - i {
      CharsMatchIff(s, sub, i, 0);
      assert sub[0..] == sub;
      assert CharsMatch(s, sub, i, 0) <==> OccursAt(s, sub, i);
    }
    if i < |s| {
      ContainsFromIff(s, sub, i + 1);
      if ContainsFrom(s, sub, i) {
        if !(|sub| <= |s| - i && CharsMatch(s, sub, i, 0)) {
          var j :| i + 1 <= j && OccursAt(s, sub, j);
          assert i <= j;
        }
      }
      if exists j :: i <= j && OccursAt(s, sub, j) {
        var j :| i <= j && OccursAt(s, sub, j);
        if j > i { assert i + 1 <= j; }
      }
    } else {
      if exists j :: i <= j && OccursAt(s, sub, j) {
        var j :| i <= j && OccursAt(s, sub, j);
        assert |sub| == 0 && j == i;
      }
    }
  }

  /** `includes` holds exactly when the needle occurs at some index. */
  lemma ContainsIff(s: string, sub: string)
    ensures Contains(s, sub) <==> exists j :: OccursAt(s, sub, j)
  {
    ContainsFromIff(s, sub, 0);
  }

  lemma ContainsOfOccurrence(s: string, sub: string, j: nat)
    requires OccursAt(s, sub, j)
    ensures Contains(s, sub)
  {
    ContainsIff(s, sub);
  }

  lemma ContainsWitness(s: string, sub: string) returns (j: nat)
    requires Contains(s, sub)
    ensures OccursAt(s, sub, j)
  {
    ContainsIff(s, sub);
    j :| OccursAt(s, sub, j);
  }

  /** `sub` does not occur in `s` when one of its characters never does. */
  lemma AbsentChar(s: string, sub: string, k: nat)
    requires k < |sub| && sub[k] !in s
    ensures !Contains(s, sub)
  {
    forall j: nat | j + |sub| <= |s| ensures !OccursAt(s, sub, j) {
      assert s[j..j + |sub|][k] == s[j + k];
    }
    ContainsIff(s, sub);
  }

  /** `sub` does not occur in `s` when two adjacent characters of it never
      stand side by side in `s`. */
  lemma AbsentPair(s: string, sub: string, k: nat)
    requires k + 1 < |sub|
    requires forall i :: 0 <= i < |s| - 1 ==> !(s[i] == sub[k] && s[i + 1] == sub[k + 1])
    ensures !Contains(s, sub)
  {
    forall j: nat | j + |sub| <= |s| ensures !OccursAt(s, sub, j) {
      assert s[j..j + |sub|][k] == s[j + k];
      assert s[j..j + |sub|][k + 1] == s[j + k + 1];
    }
    ContainsIff(s, sub);
  }

  /** First index at or after `i` where `sub` occurs (`indexOf`). */
  function FindFrom(s: string, sub: string, i: nat): (r: Option<nat>)
    requires i <= |s|
    ensures r.Some? ==> i <= r.value && OccursAt(s, sub, r.value)
    ensures r.Some? ==> forall j :: i <= j < r.value ==> !OccursAt(s, sub, j)
    ensures r.None? ==> forall j :: i <= j ==> !OccursAt(s, sub, j)
    decreases |s| - i
  {
    if OccursAt(s, sub, i) then Some(i)
    else if i == |s| then None
    else FindFrom(s, sub, i + 1)
  }

  /** `s.replace(pat, rep)` with a string pattern: only the first occurrence
      is replaced, and nothing changes when `pat` does not occur. */
  function ReplaceFirst(s: string, pat: string, rep: string): string {
    match FindFrom(s, pat, 0)
    case None => s
    case Some(j) => s[..j] + rep + s[j + |pat|..]
  }

  /** When `pat` first occurs right after `a`, `replace` swaps exactly that copy. */
  lemma ReplaceFirstAt(a: string, pat: string, b: string, rep: string)
    requires forall j: nat :: j < |a| ==> !OccursAt(a + pat + b, pat, j)
    ensures ReplaceFirst(a + pat + b, pat, rep) == a + rep + b
  {
    var s := a + pat + b;
    assert s[|a|..|a| + |pat|] == pat;
    assert OccursAt(s, pat, |a|);
    var r := FindFrom(s, pat, 0);
    assert r == Some(|a|);
    assert s[..|a|] == a;
    assert s[|a| + |pat|..] == b;
  }

  /** When `pat` does not occur, `replace` is the identity. */
  lemma ReplaceFirstAbsent(s: string, pat: string, rep: string)
    requires forall j: nat :: !OccursAt(s, pat, j)
    ensures ReplaceFirst(s, pat, rep) == s
  {
  }

  datatype Option<+T> = None | Some(value: T)

  /** JavaScript's truthiness of an optional string: missing and "" are falsy. */
  predicate Truthy(s: Option<string>) {
    s.Some? && s.value != ""
  }

  /** `a || b` on optional strings. */
  function OrElse(s: Option<string>, default: string): (r: string)
    ensures Truthy(s) ==> r == s.value
    ensures !Truthy(s) ==> r == default
  {
    if Truthy(s) then s.value else default
  }

  /** `parts.join(sep)` */
  function Join(parts: seq<string>, sep: string): string
  {
    if |parts| == 0 then ""
    else if |parts| == 1 then parts[0]
    else parts[0] + sep + Join(parts[1..], sep)
  }

  lemma JoinPrependFirst(c: string, parts: seq<string>, sep: string)
    requires |parts| > 0
    ensures Join([c + parts[0]] + parts[1..], sep) == c + Join(parts, sep)
  {
    var q := [c + parts[0]] + parts[1..];
    assert q[1..] == parts[1..];
  }

  /** `s.split(c)` for a one-character separator: the pieces between the
      separators, always at least one, empty pieces kept. */
  function Split(s: string, c: char): (r: seq<string>)
    ensures |r| >= 1
    ensures forall k :: 0 <= k < |r| ==> c !in r[k]
    ensures Join(r, [c]) == s
    decreases |s|
  {
    if |s| == 0 then [""]
    else
      var rest := Split(s[1..], c);
      if s[0] == c then
        assert Join([""] + rest, [c]) == [c] + Join(rest, [c]) by {
          assert ([""] + rest)[1..] == rest;
        }
        assert s == [c] + s[1..];
        [""] + rest
      else
        JoinPrependFirst([s[0]], rest, [c]);
        assert s == [s[0]] + s[1..];
        [[s[0]] + rest[0]] + rest[1..]
  }

  /** Splitting then joining with the same separator gives back the pieces. */
  lemma {:induction false} SplitJoin(parts: seq<string>, c: char)
    requires |parts| >= 1
    requires forall k :: 0 <= k < |parts| ==> c !in parts[k]
    ensures Split(Join(parts, [c]), c) == parts
    decreases |parts|, |parts[0]|
  {
    var s := Join(parts, [c]);
    if |parts[0]| == 0 {
      if |parts| == 1 {
        assert s == "";
      } else {
        assert s == [c] + Join(parts[1..], [c]);
        assert s[1..] == Join(parts[1..], [c]);
        SplitJoin(parts[1..], c);
        assert parts == [""] + parts[1..];
      }
    } else {
      var p0 := parts[0];
      var tailParts := [p0[1..]] + parts[1..];
      assert tailParts[1..] == parts[1..];
      assert forall k :: 0 <= k < |tailParts| ==> c !in tailParts[k] by {
        forall k | 0 <= k < |tailParts| ensures c !in tailParts[k] {
          if k == 0 { assert forall x :: x in p0[1..] ==> x in p0; }
        }
      }
      JoinPrependFirst([p0[0]], tailParts, [c]);
      assert [p0[0]] + p0[1..] == p0;
      assert [[p0[0]] + tailParts[0]] + tailParts[1..] == parts;
      assert s == [p0[0]] + Join(tailParts, [c]);
      assert s[1..] == Join(tailParts, [c]);
      assert s[0] == p0[0] && s[0] != c;
      SplitJoin(tailParts, c);
    }
  }

  function TrimStart(s: string): (r: string)
    ensures |r| <= |s| && r == s[|s| - |r|..]
    ensures |r| > 0 ==> !IsSpace(r[0])
    ensures IsBlank(s[..|s| - |r|])
    decreases |s|
  {
    if |s| > 0 && IsSpace(s[0]) then
      var r := TrimStart(s[1..]);
      assert s[1..][..|s| - 1 - |r|] == s[1..|s| - |r|];
      r
    else s
  }

  function TrimEnd(s: string): (r: string)
    ensures |r| <= |s| && r == s[..|r|]
    ensures |r| > 0 ==> !IsSpace(r[|r| - 1])
    ensures IsBlank(s[|r|..])
    decreases |s|
  {
    if |s| > 0 && IsSpace(s[|s| - 1]) then
      var r := TrimEnd(s[..|s| - 1]);
      r
    else s
  }

  /** `s.trim()`: the longest slice that neither starts nor ends with white space. */
  function Trim(s: string): (r: string)
    ensures |r| <= |s|
    ensures |r| > 0 ==> !IsSpace(r[0]) && !IsSpace(r[|r| - 1])
  {
    TrimEnd(TrimStart(s))
  }

  /** A string is all white space exactly when trimming leaves nothing. */
  lemma TrimEmptyIff(s: string)
    ensures Trim(s) == "" <==> IsBlank(s)
  {
    var t := TrimStart(s);
    if Trim(s) == "" {
      assert IsBlank(t[0..]);
      assert s == s[..|s| - |t|] + t;
    }
  }

  function DigitChar(d: nat): char
    requires d < 10
  {
    ('0' as int + d) as char
  }

  /** The decimal text a template literal gives a non-negative integer. */
  function NatToString(n: nat): (r: string)
    ensures |r| > 0 && AllDigits(r)
    ensures |r| > 1 ==> r[0] != '0'
  {
    if n < 10 then [DigitChar(n)]
    else NatToString(n / 10) + [DigitChar(n % 10)]
  }

  function IntToString(n: int): string {
    if n < 0 then "-" + NatToString(-n) else NatToString(n)
  }

  /** The value of a string of decimal digits. */
  function DigitsValue(s: string): nat
    requires AllDigits(s)
  {
    if |s| == 0 then 0
    else DigitsValue(s[..|s| - 1]) * 10 + (s[|s| - 1] as int - '0' as int)
  }

  lemma {:induction false} DigitsValueOfNatToString(n: nat)
    ensures DigitsValue(NatToString(n)) == n
  {
    if n >= 10 {
      DigitsValueOfNatToString(n / 10);
      var s := NatToString(n);
      assert s[..|s| - 1] == NatToString(n / 10);
    }
  }
}
