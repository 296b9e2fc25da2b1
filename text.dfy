/**
 * Strings as JavaScript handles them in the modelled code: character classes
 * of its regular expressions, ASCII case mapping, substring search, `trim`,
 * `join`, `split`, `Math.round` and the decimal rendering of numbers.
 */
module Text {

  predicate IsUpper(c: char) { 'A' <= c <= 'Z' }
  predicate IsLower(c: char) { 'a' <= c <= 'z' }
  predicate IsDigit(c: char) { '0' <= c <= '9' }
  predicate IsLetter(c: char) { IsUpper(c) || IsLower(c) }
  predicate IsAlnum(c: char) { IsLetter(c) || IsDigit(c) }

  /** `\w` of a JavaScript regular expression without the `u` flag. */
  predicate IsWordChar(c: char) { IsAlnum(c) || c == '_' }

  /** `\s` of a JavaScript regular expression, which is also what `trim` removes. */
  predicate IsSpace(c: char) {
    c == ' ' || c == '\t' || c == '\n' || c == '\r' || c == '\U{000B}' || c == '\U{000C}'
    || c == '\U{00A0}' || c == '\U{1680}' || ('\U{2000}' <= c <= '\U{200A}')
    || c == '\U{2028}' || c == '\U{2029}' || c == '\U{202F}' || c == '\U{205F}'
    || c == '\U{3000}' || c == '\U{FEFF}'
  }

  /** `toLowerCase` on one character, ASCII letters only. */
  function LowerChar(c: char): char {
    if IsUpper(c) then (c as int + 32) as char else c
  }

  /** `toUpperCase` on one character, ASCII letters only. */
  function UpperChar(c: char): char {
    if IsLower(c) then (c as int - 32) as char else c
  }

  function Lower(s: string): string {
    seq(|s|, i requires 0 <= i < |s| => LowerChar(s[i]))
  }

  function Upper(s: string): string {
    seq(|s|, i requires 0 <= i < |s| => UpperChar(s[i]))
  }

  lemma LowerIdempotent(s: string)
    ensures Lower(Lower(s)) == Lower(s)
  {
  }

  lemma LowerConcat(a: string, b: string)
    ensures Lower(a + b) == Lower(a) + Lower(b)
  {
  }

  lemma LowerPrefix(s: string, n: nat)
    requires n <= |s|
    ensures Lower(s)[..n] == Lower(s[..n])
  {
  }

  lemma LowerSuffix(s: string, n: nat)
    requires n <= |s|
    ensures Lower(s)[n..] == Lower(s[n..])
  {
  }

  /** Lower-casing forgets an earlier upper-casing. */
  lemma LowerOfUpper(s: string)
    ensures Lower(Upper(s)) == Lower(s)
  {
  }

  predicate StartsWith(s: string, p: string) {
    |p| <= |s| && s[..|p|] == p
  }

  /** `sub` occurs in `s` starting at index `i`. */
  predicate OccursAt(s: string, sub: string, i: int) {
    0 <= i && i + |sub| <= |s| && s[i..i + |sub|] == sub
  }

  /** `sub` occurs in `s` at index `i` or later. */
  predicate ContainsFrom(s: string, sub: string, i: nat)
    decreases |s| - i
  {
    OccursAt(s, sub, i) || (i < |s| && ContainsFrom(s, sub, i + 1))
  }

  /** `s.includes(sub)`: `sub` occurs somewhere in `s`. */
  predicate Contains(s: string, sub: string) {
    ContainsFrom(s, sub, 0)
  }

  /** ContainsFrom agrees with the textbook definition by an index. */
  lemma {:induction false} ContainsFromIff(s: string, sub: string, i: nat)
    ensures ContainsFrom(s, sub, i) <==> exists k :: i <= k && OccursAt(s, sub, k)
    decreases |s| - i
  {
    if i < |s| {
      ContainsFromIff(s, sub, i + 1);
      if exists k :: i <= k && OccursAt(s, sub, k) {
        var k :| i <= k && OccursAt(s, sub, k);
        if k != i {
          assert i + 1 <= k;
        }
      }
    } else if exists k :: i <= k && OccursAt(s, sub, k) {
      var k :| i <= k && OccursAt(s, sub, k);
      assert k == i == |s| && sub == [];
    }
  }

  /** Contains agrees with the textbook definition by an index. */
  lemma ContainsIff(s: string, sub: string)
    ensures Contains(s, sub) <==> exists i :: OccursAt(s, sub, i)
  {
    ContainsFromIff(s, sub, 0);
  }

  lemma ContainsAt(s: string, sub: string, i: nat)
    requires OccursAt(s, sub, i)
    ensures Contains(s, sub)
  {
    ContainsIff(s, sub);
  }

  /** A string that contains `sub` still does with text around it. */
  lemma ContainsInside(a: string, s: string, b: string, sub: string)
    requires Contains(s, sub)
    ensures Contains(a + s + b, sub)
  {
    ContainsIff(s, sub);
    var i :| OccursAt(s, sub, i);
    assert (a + s + b)[|a| + i..|a| + i + |sub|] == s[i..i + |sub|];
    ContainsAt(a + s + b, sub, |a| + i);
  }

  /** Containment is transitive: what occurs in `mid` occurs wherever `mid` does. */
  lemma ContainsTransitive(s: string, mid: string, sub: string)
    requires Contains(s, mid) && Contains(mid, sub)
    ensures Contains(s, sub)
  {
    ContainsIff(s, mid);
    ContainsIff(mid, sub);
    var i :| OccursAt(s, mid, i);
    var j :| OccursAt(mid, sub, j);
    var found, inMid := s[i + j..i + j + |sub|], mid[j..j + |sub|];
    forall k | 0 <= k < |sub|
      ensures found[k] == inMid[k]
    {
      assert s[i..i + |mid|][j + k] == mid[j + k];
    }
    assert found == inMid;
    ContainsAt(s, sub, i + j);
  }

  /** `sub` occurs in `s` at index `i` when ASCII letter case is ignored (the `i` flag of a regular expression). */
  predicate OccursAtIgnoringCase(s: string, sub: string, i: int) {
    0 <= i && i + |sub| <= |s| && Lower(s[i..i + |sub|]) == Lower(sub)
  }

  /**
   * Length of the longest run of characters satisfying `p` that starts at
   * index `i` of `s`: a greedy `[...]*` matched there.
   */
  function RunFrom(s: string, i: nat, p: char -> bool): (n: nat)
    requires i <= |s|
    ensures i + n <= |s|
    ensures forall k :: i <= k < i + n ==> p(s[k])
    ensures i + n < |s| ==> !p(s[i + n])
    decreases |s| - i
  {
    if i < |s| && p(s[i]) then 1 + RunFrom(s, i + 1, p) else 0
  }

  /** Length of the longest prefix of `s` whose characters all satisfy `p`: a greedy `[...]*`. */
  function RunLength(s: string, p: char -> bool): (n: nat)
    ensures n <= |s|
    ensures forall i :: 0 <= i < n ==> p(s[i])
    ensures n < |s| ==> !p(s[n])
  {
    RunFrom(s, 0, p)
  }

  /** A run in a suffix is the run at the same place of the whole string. */
  lemma {:induction false} RunFromShift(s: string, j: nat, k: nat, p: char -> bool)
    requires j + k <= |s|
    ensures RunFrom(s[j..], k, p) == RunFrom(s, j + k, p)
    decreases |s| - j - k
  {
    if j + k < |s| {
      assert s[j..][k] == s[j + k];
      RunFromShift(s, j, k + 1, p);
    }
  }

  /** Some keyword of `keywords` occurs in `s`. */
  predicate ContainsAny(s: string, keywords: seq<string>) {
    exists k :: 0 <= k < |keywords| && Contains(s, keywords[k])
  }

  /**
   * Length of the longest run of characters satisfying `p` that ends just
   * before index `j` of `s`.
   */
  function RunBefore(s: string, j: nat, p: char -> bool): (n: nat)
    requires j <= |s|
    ensures n <= j
    ensures forall k :: j - n <= k < j ==> p(s[k])
    ensures n < j ==> !p(s[j - n - 1])
  {
    if j > 0 && p(s[j - 1]) then 1 + RunBefore(s, j - 1, p) else 0
  }

  /** Leading whitespace removed. */
  function TrimStart(s: string): (r: string)
    ensures |r| <= |s| && r == s[|s| - |r|..]
    ensures r == [] || !IsSpace(r[0])
    ensures forall i :: 0 <= i < |s| - |r| ==> IsSpace(s[i])
  {
    s[RunFrom(s, 0, IsSpace)..]
  }

  /** Trailing whitespace removed. */
  function TrimEnd(s: string): (r: string)
    ensures |r| <= |s| && r == s[..|r|]
    ensures r == [] || !IsSpace(r[|r| - 1])
    ensures forall i :: |r| <= i < |s| ==> IsSpace(s[i])
  {
    s[..|s| - RunBefore(s, |s|, IsSpace)]
  }

  /** `s.trim()`. */
  function Trim(s: string): string {
    TrimEnd(TrimStart(s))
  }

  /** A string without whitespace at either end is its own trimmed form. */
  lemma TrimKeeps(s: string)
    requires s == [] || (!IsSpace(s[0]) && !IsSpace(s[|s| - 1]))
    ensures Trim(s) == s
  {
  }

  /** `s.replace(/\s+/g, '')`: every whitespace character dropped. */
  function RemoveSpaces(s: string): (r: string)
    ensures |r| <= |s|
    ensures forall i :: 0 <= i < |r| ==> !IsSpace(r[i])
  {
    if s == [] then [] else (if IsSpace(s[0]) then [] else [s[0]]) + RemoveSpaces(s[1..])
  }

  /** A string without whitespace is its own space-free form. */
  lemma {:induction false} RemoveSpacesKeeps(s: string)
    requires forall i :: 0 <= i < |s| ==> !IsSpace(s[i])
    ensures RemoveSpaces(s) == s
  {
    if s != [] {
      RemoveSpacesKeeps(s[1..]);
    }
  }

  lemma RemoveSpacesIdempotent(s: string)
    ensures RemoveSpaces(RemoveSpaces(s)) == RemoveSpaces(s)
  {
    RemoveSpacesKeeps(RemoveSpaces(s));
  }

  /** Whitespace is removed piece by piece. */
  lemma {:induction false} RemoveSpacesAppend(a: string, b: string)
    ensures RemoveSpaces(a + b) == RemoveSpaces(a) + RemoveSpaces(b)
  {
    if a != [] {
      var head := if IsSpace(a[0]) then [] else [a[0]];
      assert (a + b)[0] == a[0] && (a + b)[1..] == a[1..] + b;
      assert RemoveSpaces(a + b) == head + RemoveSpaces(a[1..] + b);
      assert RemoveSpaces(a) == head + RemoveSpaces(a[1..]);
      RemoveSpacesAppend(a[1..], b);
    } else {
      assert a + b == b;
    }
  }

  /** A string made only of whitespace vanishes. */
  lemma {:induction false} RemoveSpacesBlank(s: string)
    requires forall i :: 0 <= i < |s| ==> IsSpace(s[i])
    ensures RemoveSpaces(s) == []
  {
    if s != [] {
      RemoveSpacesBlank(s[1..]);
    }
  }

  /** Lower-casing neither creates nor removes whitespace, so the two steps commute. */
  lemma {:induction false} RemoveSpacesLower(s: string)
    ensures RemoveSpaces(Lower(s)) == Lower(RemoveSpaces(s))
  {
    if s != [] {
      var head := if IsSpace(s[0]) then [] else [s[0]];
      RemoveSpacesLower(s[1..]);
      assert Lower(s)[0] == LowerChar(s[0]) && Lower(s)[1..] == Lower(s[1..]);
      assert IsSpace(LowerChar(s[0])) == IsSpace(s[0]);
      assert Lower(head) == if IsSpace(s[0]) then [] else [LowerChar(s[0])];
      assert RemoveSpaces(Lower(s)) == Lower(head) + RemoveSpaces(Lower(s[1..]));
      LowerConcat(head, RemoveSpaces(s[1..]));
    }
  }

  /** `parts.join(sep)`. */
  function Join(parts: seq<string>, sep: string): string
  {
    if |parts| == 0 then "" else if |parts| == 1 then parts[0] else parts[0] + sep + Join(parts[1..], sep)
  }

  lemma JoinTwo(a: string, b: string, sep: string)
    ensures Join([a, b], sep) == a + sep + b
  {
    assert [a, b][1..] == [b];
  }

  lemma JoinThree(a: string, b: string, c: string, sep: string)
    ensures Join([a, b, c], sep) == a + sep + b + sep + c
  {
    assert [a, b, c][1..] == [b, c];
    JoinTwo(b, c, sep);
  }

  /** A join holds a character only if a part or the separator does. */
  lemma {:induction false} JoinWithout(parts: seq<string>, sep: string, c: char)
    requires c !in sep
    requires forall k :: 0 <= k < |parts| ==> c !in parts[k]
    ensures c !in Join(parts, sep)
    decreases |parts|
  {
    if |parts| > 1 {
      JoinWithout(parts[1..], sep, c);
    }
  }

  /** `s.split(sep)` for a one-character separator. */
  function Split(s: string, sep: char): (r: seq<string>)
    ensures |r| >= 1
  {
    if s == [] then [""]
    else
      var rest := Split(s[1..], sep);
      if s[0] == sep then [""] + rest else [[s[0]] + rest[0]] + rest[1..]
  }

  /** A leading character other than the separator joins the first part. */
  lemma SplitCons(c: char, s: string, sep: char)
    requires c != sep
    ensures Split([c] + s, sep) == [[c] + Split(s, sep)[0]] + Split(s, sep)[1..]
  {
    assert ([c] + s)[1..] == s;
  }

  /** Splitting a part that holds no separator, followed by more text, peels it off. */
  lemma {:induction false} SplitPrefix(p: string, tail: string, sep: char)
    requires sep !in p
    ensures Split(p + tail, sep) == [p + Split(tail, sep)[0]] + Split(tail, sep)[1..]
    decreases |p|
  {
    var t := Split(tail, sep);
    if p != [] {
      var p' := p[1..];
      assert p == [p[0]] + p';
      assert sep !in p';
      SplitPrefix(p', tail, sep);
      var rest := Split(p' + tail, sep);
      assert rest[0] == p' + t[0] && rest[1..] == t[1..];
      assert p + tail == [p[0]] + (p' + tail);
      SplitCons(p[0], p' + tail, sep);
      assert [p[0]] + rest[0] == p + t[0];
    } else {
      assert p + tail == tail && p + t[0] == t[0];
      assert t == [t[0]] + t[1..];
    }
  }

  /** `join` followed by `split` on the same separator gives the parts back. */
  lemma {:induction false} SplitJoin(parts: seq<string>, sep: char)
    requires |parts| >= 1
    requires forall k :: 0 <= k < |parts| ==> sep !in parts[k]
    ensures Split(Join(parts, [sep]), sep) == parts
    decreases |parts|
  {
    if |parts| == 1 {
      SplitPrefix(parts[0], "", sep);
      assert parts[0] + "" == parts[0];
    } else {
      SplitJoin(parts[1..], sep);
      var tail := [sep] + Join(parts[1..], [sep]);
      assert Join(parts, [sep]) == parts[0] + tail;
      SplitPrefix(parts[0], tail, sep);
      assert Split(tail, sep) == [""] + parts[1..];
      assert parts[0] + "" == parts[0];
      assert parts == [parts[0]] + parts[1..];
    }
  }

  function DigitChar(d: nat): (c: char)
    requires d < 10
    ensures IsDigit(c)
  {
    ('0' as int + d) as char
  }

  function DigitValue(c: char): (d: nat)
    requires IsDigit(c)
    ensures d < 10
  {
    c as int - '0' as int
  }

  /** The number a run of decimal digits denotes. */
  function DigitsValue(s: string): nat
    requires forall i :: 0 <= i < |s| ==> IsDigit(s[i])
  {
    if s == [] then 0 else DigitsValue(s[..|s| - 1]) * 10 + DigitValue(s[|s| - 1])
  }

  /** The decimal text of a natural number, without leading zeros. */
  function NatText(n: nat): (r: string)
    ensures |r| >= 1
    ensures forall i :: 0 <= i < |r| ==> IsDigit(r[i])
  {
    if n < 10 then [DigitChar(n)] else NatText(n / 10) + [DigitChar(n % 10)]
  }

  /** NatText is read back by DigitsValue. */
  lemma {:induction false} NatTextRoundTrip(n: nat)
    ensures DigitsValue(NatText(n)) == n
  {
    if n >= 10 {
      NatTextRoundTrip(n / 10);
      var r := NatText(n);
      assert r[..|r| - 1] == NatText(n / 10);
    }
  }

  /** `String(i)` for an integer. */
  function IntText(i: int): string {
    if i < 0 then "-" + NatText(-i) else NatText(i)
  }

  /** Up to `fuel` digits of a fraction `0 <= f < 1`, without trailing zeros. */
  function FractionText(f: real, fuel: nat): string
    requires 0.0 <= f < 1.0
    decreases fuel
  {
    if f == 0.0 || fuel == 0 then ""
    else
      var d := (f * 10.0).Floor;
      [DigitChar(d)] + FractionText(f * 10.0 - d as real, fuel - 1)
  }

  /** The decimal point and fraction digits of a non-negative number; empty when it is whole. */
  function FractionPart(m: real): string
    requires m >= 0.0
  {
    if m == m.Floor as real then "" else "." + FractionText(m - m.Floor as real, 20)
  }

  /** The plain decimal text of a non-negative number (at most 20 fraction digits). */
  function UnsignedText(m: real): string
    requires m >= 0.0
  {
    NatText(m.Floor) + FractionPart(m)
  }

  /** `String(x)` for a JavaScript number shown in plain decimal notation. */
  function NumberText(x: real): string {
    if x < 0.0 then "-" + UnsignedText(-x) else UnsignedText(x)
  }

  /** The fraction digits are digits. */
  lemma {:induction false} FractionTextDigits(f: real, fuel: nat)
    requires 0.0 <= f < 1.0
    ensures forall i :: 0 <= i < |FractionText(f, fuel)| ==> IsDigit(FractionText(f, fuel)[i])
    decreases fuel
  {
    if f != 0.0 && fuel != 0 {
      var d := (f * 10.0).Floor;
      FractionTextDigits(f * 10.0 - d as real, fuel - 1);
    }
  }

  lemma FractionPartChars(m: real)
    requires m >= 0.0
    ensures forall i :: 0 <= i < |FractionPart(m)| ==> IsDigit(FractionPart(m)[i]) || FractionPart(m)[i] == '.'
  {
    if m != m.Floor as real {
      var f := m - m.Floor as real;
      FractionTextDigits(f, 20);
      var t := "." + FractionText(f, 20);
      forall i | 0 <= i < |t|
        ensures IsDigit(t[i]) || t[i] == '.'
      {
        if i > 0 {
          assert t[i] == FractionText(f, 20)[i - 1];
        }
      }
    }
  }

  /** An unsigned number is made of digits and a decimal point. */
  lemma UnsignedTextChars(m: real)
    requires m >= 0.0
    ensures forall i :: 0 <= i < |UnsignedText(m)| ==> IsDigit(UnsignedText(m)[i]) || UnsignedText(m)[i] == '.'
  {
    var digits := NatText(m.Floor);
    var fraction := FractionPart(m);
    FractionPartChars(m);
    forall i | 0 <= i < |digits + fraction|
      ensures IsDigit((digits + fraction)[i]) || (digits + fraction)[i] == '.'
    {
      if i >= |digits| {
        assert (digits + fraction)[i] == fraction[i - |digits|];
      }
    }
  }

  /** A printed number is made of digits, a minus sign and a decimal point. */
  lemma NumberTextChars(x: real)
    ensures forall i :: 0 <= i < |NumberText(x)| ==>
      IsDigit(NumberText(x)[i]) || NumberText(x)[i] == '-' || NumberText(x)[i] == '.'
  {
    var m := if x < 0.0 then -x else x;
    UnsignedTextChars(m);
    if x < 0.0 {
      var t := "-" + UnsignedText(m);
      forall i | 0 <= i < |t|
        ensures IsDigit(t[i]) || t[i] == '-' || t[i] == '.'
      {
        if i > 0 {
          assert t[i] == UnsignedText(m)[i - 1];
        }
      }
    }
  }

  /** `Math.round`: the nearest integer, halves rounded up. */
  function Round(x: real): int {
    (x + 0.5).Floor
  }

  lemma RoundOfInt(i: int)
    ensures Round(i as real) == i
  {
  }

  /** An integral number is printed like the integer. */
  lemma NumberTextOfInt(i: int)
    ensures NumberText(i as real) == IntText(i)
  {
    var m := if i < 0 then -i else i;
    assert (if i as real < 0.0 then -(i as real) else i as real) == m as real;
    assert (m as real).Floor == m;
  }

  // String order and the default `sort`

  /**
   * The order `Array.prototype.sort` uses without a comparator: character
   * codes compared left to right, a prefix first.
   */
  predicate StringLe(a: string, b: string)
    decreases |a|
  {
    |a| == 0 || (|b| > 0 && (a[0] < b[0] || (a[0] == b[0] && StringLe(a[1..], b[1..]))))
  }

  lemma {:induction false} StringLeTotal(a: string, b: string)
    ensures StringLe(a, b) || StringLe(b, a)
    decreases |a|
  {
    if |a| > 0 && |b| > 0 && a[0] == b[0] {
      StringLeTotal(a[1..], b[1..]);
    }
  }

  lemma {:induction false} StringLeTransitive(a: string, b: string, c: string)
    requires StringLe(a, b) && StringLe(b, c)
    ensures StringLe(a, c)
    decreases |a|
  {
    if |a| > 0 && a[0] == b[0] && b[0] == c[0] {
      StringLeTransitive(a[1..], b[1..], c[1..]);
    }
  }

  lemma {:induction false} StringLeAntisymmetric(a: string, b: string)
    requires StringLe(a, b) && StringLe(b, a)
    ensures a == b
    decreases |a|
  {
    if |a| > 0 {
      StringLeAntisymmetric(a[1..], b[1..]);
      assert a == [a[0]] + a[1..] && b == [b[0]] + b[1..];
    }
  }

  predicate StringsSorted(s: seq<string>) {
    forall i, j :: 0 <= i < j < |s| ==> StringLe(s[i], s[j])
  }

  function InsertString(x: string, s: seq<string>): (r: seq<string>)
    ensures |r| == |s| + 1
  {
    if s == [] || StringLe(x, s[0]) then [x] + s
    else [s[0]] + InsertString(x, s[1..])
  }

  /** `strings.sort()`. */
  function SortStrings(s: seq<string>): (r: seq<string>)
    ensures |r| == |s|
  {
    if s == [] then [] else InsertString(s[0], SortStrings(s[1..]))
  }

  lemma {:induction false} InsertStringMultiset(x: string, s: seq<string>)
    ensures multiset(InsertString(x, s)) == multiset(s) + multiset{x}
  {
    if s != [] && !StringLe(x, s[0]) {
      InsertStringMultiset(x, s[1..]);
      assert InsertString(x, s) == [s[0]] + InsertString(x, s[1..]);
      assert s == [s[0]] + s[1..];
    }
  }

  lemma {:induction false} InsertStringSorted(x: string, s: seq<string>)
    requires StringsSorted(s)
    ensures StringsSorted(InsertString(x, s))
  {
    if s == [] {
    } else if StringLe(x, s[0]) {
      var r := [x] + s;
      forall i, j | 0 <= i < j < |r|
        ensures StringLe(r[i], r[j])
      {
        if i == 0 && j > 1 {
          StringLeTransitive(x, s[0], s[j - 1]);
        }
      }
    } else {
      StringLeTotal(x, s[0]);
      InsertStringSorted(x, s[1..]);
      InsertStringMultiset(x, s[1..]);
      var r := InsertString(x, s[1..]);
      forall i | 0 <= i < |r|
        ensures StringLe(s[0], r[i])
      {
        assert r[i] in multiset(s[1..]) + multiset{x};
        if r[i] != x {
          var k :| 0 <= k < |s[1..]| && s[1..][k] == r[i];
          assert s[k + 1] == r[i];
        }
      }
    }
  }

  /** The sort orders the strings and only reorders them. */
  lemma {:induction false} SortStringsCorrect(s: seq<string>)
    ensures StringsSorted(SortStrings(s))
    ensures multiset(SortStrings(s)) == multiset(s)
  {
    if s != [] {
      SortStringsCorrect(s[1..]);
      InsertStringSorted(s[0], SortStrings(s[1..]));
      InsertStringMultiset(s[0], SortStrings(s[1..]));
      assert s == [s[0]] + s[1..];
    }
  }
}
