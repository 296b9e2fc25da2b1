/**
 * The synthesis search route (src/app/api/synthesis/route.ts): it reads the
 * last chat message as a temperature, precursor, formula or general query,
 * runs the matching search over the web copy of the recipe dataset, and
 * formats the records it finds, numbered from 1.
 *
 * The four regular expressions of `parseQuery` are modelled as scanners: the
 * match at one start index, and the leftmost start index that matches. Each
 * scanner's comment says why backtracking cannot give the regular expression
 * a different first match.
 */
module SynthesisRoute {
  import opened Wrappers
  import Text
  import Seqs
  import SynthesisData
  import ParseSynthesis

  datatype Role = User | Assistant

  /** A chat message as this route receives it. */
  datatype Message = Message(role: Role, content: string)

  // ---------------------------------------------------------------
  // Temperature ranges
  // ---------------------------------------------------------------

  /** The two numbers a range pattern captures, as the digit strings matched. */
  datatype RangeCapture = RangeCapture(low: string, high: string)

  /** A non-empty run of decimal digits: what `(\d+)` captures. */
  predicate Digits(s: string) {
    |s| > 0 && forall k :: 0 <= k < |s| ==> Text.IsDigit(s[k])
  }

  /** `\d*` at index `i`: how many digits follow there. */
  function DigitRun(s: string, i: nat): (n: nat)
    requires i <= |s|
    ensures i + n <= |s|
    decreases |s| - i
  {
    if i < |s| && Text.IsDigit(s[i]) then 1 + DigitRun(s, i + 1) else 0
  }

  /** `\s*` at index `i`: how many white-space characters follow there. */
  function SpaceRun(s: string, i: nat): (n: nat)
    requires i <= |s|
    ensures i + n <= |s|
    decreases |s| - i
  {
    if i < |s| && Text.IsSpace(s[i]) then 1 + SpaceRun(s, i + 1) else 0
  }

  /** The digit run holds digits only, and stops at a non-digit or the end. */
  lemma {:induction false} DigitRunDigits(s: string, i: nat)
    requires i <= |s|
    ensures forall k :: i <= k < i + DigitRun(s, i) ==> Text.IsDigit(s[k])
    ensures i + DigitRun(s, i) < |s| ==> !Text.IsDigit(s[i + DigitRun(s, i)])
    decreases |s| - i
  {
    if i < |s| && Text.IsDigit(s[i]) {
      DigitRunDigits(s, i + 1);
    }
  }

  /** The digit run at index `i`, as a capture. */
  lemma DigitRunIsDigits(s: string, i: nat)
    requires i <= |s| && DigitRun(s, i) > 0
    ensures Digits(s[i..i + DigitRun(s, i)])
  {
    DigitRunDigits(s, i);
    var t := s[i..i + DigitRun(s, i)];
    forall k | 0 <= k < |t|
      ensures Text.IsDigit(t[k])
    {
      assert t[k] == s[i + k];
    }
  }

  /**
   * The leftmost index from `i` to `end` at which `at` finds something, and
   * what it finds there: how `String.prototype.match` picks the first match.
   */
  function FirstAt<T>(at: nat -> Option<T>, i: nat, end: nat): Option<T>
    decreases end + 1 - i
  {
    if end < i then None
    else if at(i).Some? then at(i)
    else FirstAt(at, i + 1, end)
  }

  /** The search finds nothing exactly when nothing is found at any index. */
  lemma {:induction false} FirstAtNone<T>(at: nat -> Option<T>, i: nat, end: nat)
    ensures FirstAt(at, i, end).None? <==> forall j :: i <= j <= end ==> at(j).None?
    decreases end + 1 - i
  {
    if i <= end && at(i).None? {
      FirstAtNone(at, i + 1, end);
    }
  }

  /** What the search finds is found at an index before which nothing is. */
  lemma {:induction false} FirstAtLeftmost<T>(at: nat -> Option<T>, i: nat, end: nat) returns (j: nat)
    requires FirstAt(at, i, end).Some?
    ensures i <= j <= end && at(j) == FirstAt(at, i, end)
    ensures forall k :: i <= k < j ==> at(k).None?
    decreases end + 1 - i
  {
    if at(i).Some? {
      j := i;
    } else {
      j := FirstAtLeftmost(at, i + 1, end);
    }
  }

  /** The witness of FirstAtLeftmost, for use inside an expression. */
  lemma FirstAtFound<T>(at: nat -> Option<T>, i: nat, end: nat)
    requires FirstAt(at, i, end).Some?
    ensures exists j :: i <= j <= end && at(j) == FirstAt(at, i, end)
  {
    var j := FirstAtLeftmost(at, i, end);
  }

  /** `C` under the `i` flag. */
  predicate IsCelsius(c: char) {
    c == 'C' || c == 'c'
  }

  /**
   * `/(\d+)\s*[-~]\s*(\d+)\s*°?C/i` at index `i`. Each greedy run is followed
   * by something it cannot hold (a digit run by a space, a dash or a `C`, a
   * space run by a dash, a digit, a degree sign or a `C`), so giving
   * characters back never helps: both numbers are whole digit runs and every
   * space run is eaten. `°?` only matches when a `C` follows it.
   */
  function CelsiusRangeAt(s: string, i: nat): (r: Option<RangeCapture>)
    requires i <= |s|
    ensures r.Some? ==> Digits(r.value.low) && Digits(r.value.high)
  {
    var a := DigitRun(s, i);
    var j := i + a + SpaceRun(s, i + a);
    if a == 0 || j == |s| || (s[j] != '-' && s[j] != '~') then None
    else
      var k := j + 1 + SpaceRun(s, j + 1);
      var b := DigitRun(s, k);
      if b == 0 || !CelsiusUnitAt(s, k + b) then None
      else
        DigitRunIsDigits(s, i);
        DigitRunIsDigits(s, k);
        Some(RangeCapture(s[i..i + a], s[k..k + b]))
  }

  /** `\s*°?C` under the `i` flag, at index `m`. */
  predicate CelsiusUnitAt(s: string, m: nat)
    requires m <= |s|
  {
    var n := m + SpaceRun(s, m);
    (n < |s| && IsCelsius(s[n])) || (n + 1 < |s| && s[n] == '°' && IsCelsius(s[n + 1]))
  }

  /** The character class `[-~에서부터]`: one character, never a two-letter word. */
  predicate IsRangeMark(c: char) {
    c == '-' || c == '~' || c == '에' || c == '서' || c == '부' || c == '터'
  }

  /**
   * `/(\d+)\s*도?\s*[-~에서부터]\s*(\d+)\s*도?/` at index `i`. The trailing
   * `\s*도?` can always match nothing, so the second number is the whole
   * digit run; neither a space, a digit nor `도` is a range mark, so the first
   * number is the whole digit run, the space runs are eaten whole and `도` is
   * taken whenever it is there.
   */
  function KoreanRangeAt(s: string, i: nat): (r: Option<RangeCapture>)
    requires i <= |s|
    ensures r.Some? ==> Digits(r.value.low) && Digits(r.value.high)
  {
    var a := DigitRun(s, i);
    var k := KoreanMarkIndex(s, i + a);
    if a == 0 || k == |s| || !IsRangeMark(s[k]) then None
    else
      var l := k + 1 + SpaceRun(s, k + 1);
      var b := DigitRun(s, l);
      if b == 0 then None
      else
        DigitRunIsDigits(s, i);
        DigitRunIsDigits(s, l);
        Some(RangeCapture(s[i..i + a], s[l..l + b]))
  }

  /** `\s*도?\s*` from index `j`: where the range mark has to stand. */
  function KoreanMarkIndex(s: string, j: nat): (k: nat)
    requires j <= |s|
    ensures j <= k <= |s|
  {
    var j' := j + SpaceRun(s, j);
    var j'' := if j' < |s| && s[j'] == '도' then j' + 1 else j';
    j'' + SpaceRun(s, j'')
  }

  datatype RangePattern = CelsiusRange | KoreanRange

  function RangeAt(p: RangePattern, s: string, i: nat): (r: Option<RangeCapture>)
    requires i <= |s|
    ensures r.Some? ==> Digits(r.value.low) && Digits(r.value.high)
  {
    match p
    case CelsiusRange => CelsiusRangeAt(s, i)
    case KoreanRange => KoreanRangeAt(s, i)
  }

  /** RangeAt as a function of the index, finding nothing past the end. */
  function RangeHere(p: RangePattern, s: string): nat -> Option<RangeCapture> {
    (j: nat) => if j <= |s| then RangeAt(p, s, j) else None
  }

  /** `s.match(p)`: the captures at the leftmost index where `p` matches. */
  function FirstRange(p: RangePattern, s: string): (r: Option<RangeCapture>)
    ensures r.Some? ==> Digits(r.value.low) && Digits(r.value.high)
  {
    if FirstAt(RangeHere(p, s), 0, |s|).Some? then
      FirstAtFound(RangeHere(p, s), 0, |s|);
      FirstAt(RangeHere(p, s), 0, |s|)
    else None
  }

  /** A range pattern finds nothing exactly when it matches at no index. */
  lemma FirstRangeNone(p: RangePattern, s: string)
    ensures FirstRange(p, s).None? <==> forall j :: 0 <= j <= |s| ==> RangeAt(p, s, j).None?
  {
    FirstAtNone(RangeHere(p, s), 0, |s|);
    assert forall j :: 0 <= j <= |s| ==> RangeHere(p, s)(j) == RangeAt(p, s, j);
  }

  /** What a range pattern finds is its match at an index before which it matches nowhere. */
  lemma FirstRangeLeftmost(p: RangePattern, s: string) returns (j: nat)
    requires FirstRange(p, s).Some?
    ensures j <= |s| && RangeAt(p, s, j) == FirstRange(p, s)
    ensures forall k :: 0 <= k < j ==> RangeAt(p, s, k).None?
  {
    j := FirstAtLeftmost(RangeHere(p, s), 0, |s|);
    assert forall k :: 0 <= k < j ==> RangeHere(p, s)(k) == RangeAt(p, s, k);
  }

  /** `query.match(/...°?C/i) || query.match(/...도?/)`. */
  function TemperatureRange(query: string): (r: Option<RangeCapture>)
    ensures r.Some? ==> Digits(r.value.low) && Digits(r.value.high)
  {
    match FirstRange(CelsiusRange, query)
    case Some(c) => Some(c)
    case None => FirstRange(KoreanRange, query)
  }

  // ---------------------------------------------------------------
  // Formula-like tokens
  // ---------------------------------------------------------------

  /** `[A-Z][a-z]?\d*` at index `i`: its length, 0 when no upper-case letter stands there. */
  function UnitLength(s: string, i: nat): (n: nat)
    requires i <= |s|
    ensures i + n <= |s|
    ensures n > 0 <==> i < |s| && Text.IsUpper(s[i])
  {
    if i == |s| || !Text.IsUpper(s[i]) then 0
    else
      var l := if i + 1 < |s| && Text.IsLower(s[i + 1]) then 1 else 0;
      1 + l + DigitRun(s, i + 1 + l)
  }

  /**
   * `(?:[A-Z][a-z]?\d*)*` from index `i`: where the run of units ends. A unit
   * that gave back its lower-case letter or a digit would leave that
   * character next, which starts no unit.
   */
  function UnitsEnd(s: string, i: nat): (e: nat)
    requires i <= |s|
    ensures i + UnitLength(s, i) <= e <= |s|
    decreases |s| - i
  {
    var n := UnitLength(s, i);
    if n == 0 then i else UnitsEnd(s, i + n)
  }

  /**
   * `(?:\([A-Z][a-z]?\d*\)\d*)?` at index `i`: where it ends, `i` when the
   * group is absent. Giving back part of the inner unit leaves a letter or a
   * digit where `)` is needed, so the group matches only with the whole unit.
   */
  function GroupEnd(s: string, i: nat): (e: nat)
    requires i <= |s|
    ensures i <= e <= |s|
  {
    if i < |s| && s[i] == '(' then
      var n := UnitLength(s, i + 1);
      if n > 0 && i + 1 + n < |s| && s[i + 1 + n] == ')' then i + 2 + n + DigitRun(s, i + 2 + n)
      else i
    else i
  }

  /**
   * The two token patterns: the precursor one
   * `[A-Z][a-z]?\d*(?:[A-Z][a-z]?\d*)*(?:\([A-Z][a-z]?\d*\)\d*)?`, and the
   * formula one `[A-Z][a-z]?\d*(?:[A-Z][a-z]?\d*)+`, which needs two units.
   */
  datatype TokenPattern = PrecursorToken | FormulaToken

  /**
   * The token a pattern matches at index `i`. Every part after the first
   * unit may match nothing, so the greedy path succeeds and is the match;
   * for the formula pattern a second unit must start where the first one
   * ends.
   */
  function TokenAt(p: TokenPattern, s: string, i: nat): Option<string>
    requires i <= |s|
  {
    var n := UnitLength(s, i);
    match p
    case PrecursorToken => if n == 0 then None else Some(s[i..GroupEnd(s, UnitsEnd(s, i))])
    case FormulaToken => if n == 0 || UnitLength(s, i + n) == 0 then None else Some(s[i..UnitsEnd(s, i)])
  }

  /** TokenAt as a function of the index, finding nothing past the end. */
  function TokenHere(p: TokenPattern, s: string): nat -> Option<string> {
    (j: nat) => if j <= |s| then TokenAt(p, s, j) else None
  }

  /** `s.match(p)?.[0]` for a `g` pattern: the token at the leftmost index where `p` matches. */
  function FirstToken(p: TokenPattern, s: string): Option<string> {
    FirstAt(TokenHere(p, s), 0, |s|)
  }

  /** A token pattern finds nothing exactly when it matches at no index. */
  lemma FirstTokenNone(p: TokenPattern, s: string)
    ensures FirstToken(p, s).None? <==> forall j :: 0 <= j <= |s| ==> TokenAt(p, s, j).None?
  {
    FirstAtNone(TokenHere(p, s), 0, |s|);
    assert forall j :: 0 <= j <= |s| ==> TokenHere(p, s)(j) == TokenAt(p, s, j);
  }

  /** What a token pattern finds is its match at an index before which it matches nowhere. */
  lemma FirstTokenLeftmost(p: TokenPattern, s: string) returns (j: nat)
    requires FirstToken(p, s).Some?
    ensures j <= |s| && TokenAt(p, s, j) == FirstToken(p, s)
    ensures forall k :: 0 <= k < j ==> TokenAt(p, s, k).None?
  {
    j := FirstAtLeftmost(TokenHere(p, s), 0, |s|);
    assert forall k :: 0 <= k < j ==> TokenHere(p, s)(k) == TokenAt(p, s, k);
  }

  /** The precursor pattern matches exactly where an upper-case letter stands. */
  lemma PrecursorTokenAtUpper(s: string, i: nat)
    requires i <= |s|
    ensures TokenAt(PrecursorToken, s, i).Some? <==> i < |s| && Text.IsUpper(s[i])
  {
  }

  /** Without an upper-case letter the precursor pattern finds nothing, and with one it finds a token at the first. */
  lemma PrecursorTokenFound(s: string)
    ensures FirstToken(PrecursorToken, s).None? <==> forall k :: 0 <= k < |s| ==> !Text.IsUpper(s[k])
    ensures FirstToken(PrecursorToken, s).Some? ==>
      exists i :: 0 <= i < |s| && Text.IsUpper(s[i]) && (forall k :: 0 <= k < i ==> !Text.IsUpper(s[k]))
        && FirstToken(PrecursorToken, s) == TokenAt(PrecursorToken, s, i)
  {
    FirstTokenNone(PrecursorToken, s);
    forall j | 0 <= j <= |s|
      ensures TokenAt(PrecursorToken, s, j).Some? <==> j < |s| && Text.IsUpper(s[j])
    {
      PrecursorTokenAtUpper(s, j);
    }
    if FirstToken(PrecursorToken, s).Some? {
      var i := FirstTokenLeftmost(PrecursorToken, s);
    }
  }

  /** Two or more upper-case letters, the first at the front: a formula token has two element units. */
  predicate TwoCapitals(t: string) {
    |t| > 0 && Text.IsUpper(t[0]) && exists k :: 1 <= k < |t| && Text.IsUpper(t[k])
  }

  /** A formula token starts with one unit and holds the next, and is a piece of the text at its index. */
  lemma FormulaTokenShape(s: string, i: nat)
    requires i <= |s| && TokenAt(FormulaToken, s, i).Some?
    ensures TwoCapitals(TokenAt(FormulaToken, s, i).value)
    ensures Text.OccursAt(s, TokenAt(FormulaToken, s, i).value, i)
  {
    var n := UnitLength(s, i);
    var t := TokenAt(FormulaToken, s, i).value;
    assert UnitsEnd(s, i) == UnitsEnd(s, i + n);
    assert t[0] == s[i] && t[n] == s[i + n];
  }

  // ---------------------------------------------------------------
  // parseQuery
  // ---------------------------------------------------------------

  /** The parsed query: its type, its search value and, for a temperature query, the bounds. */
  datatype Query =
    | TemperatureQuery(value: string, minTemp: nat, maxTemp: nat)
    | PrecursorQuery(value: string)
    | FormulaQuery(value: string)
    | GeneralQuery(value: string)

  const TemperatureKeywords: seq<string> := ["temperature", "온도"]
  const PrecursorKeywords: seq<string> := ["precursor", "전구체", "using", "사용"]

  /** A numeric range, or a temperature keyword in the lower-cased query. */
  predicate AsksTemperature(query: string) {
    var lower := Text.Lower(query);
    TemperatureRange(query).Some? || Text.Contains(lower, "temperature") || Text.Contains(lower, "온도")
  }

  predicate AsksPrecursor(query: string) {
    var lower := Text.Lower(query);
    Text.Contains(lower, "precursor") || Text.Contains(lower, "전구체")
    || Text.Contains(lower, "using") || Text.Contains(lower, "사용")
  }

  /** `parseQuery`: temperature first, then precursor, then formula, else general. */
  function ParseQuery(query: string): Query {
    if AsksTemperature(query) then
      match TemperatureRange(query)
      case Some(c) => TemperatureQuery(query, Text.DigitsValue(c.low), Text.DigitsValue(c.high))
      case None => TemperatureQuery(query, 300, 1200)
    else if AsksPrecursor(query) then
      match FirstToken(PrecursorToken, query)
      case Some(t) => PrecursorQuery(t)
      case None => PrecursorQuery(query)
    else
      match FirstToken(FormulaToken, query)
      case Some(t) => FormulaQuery(t)
      case None => GeneralQuery(query)
  }

  /**
   * A query is a temperature query exactly when it holds a numeric range or
   * one of the temperature keywords, whatever precursor keyword or formula it
   * also holds.
   */
  lemma TemperatureFirst(query: string)
    ensures ParseQuery(query).TemperatureQuery? <==>
      TemperatureRange(query).Some? || Text.ContainsAny(Text.Lower(query), TemperatureKeywords)
  {
    var lower := Text.Lower(query);
    assert Text.ContainsAny(lower, TemperatureKeywords) <==> Text.Contains(lower, TemperatureKeywords[0]) || Text.Contains(lower, TemperatureKeywords[1]);
  }

  /**
   * The bounds of a temperature query are the two numbers of its range, and
   * 300 and 1200 when it has none; its search value is the whole query.
   */
  lemma TemperatureBounds(query: string)
    requires ParseQuery(query).TemperatureQuery?
    ensures ParseQuery(query).value == query
    ensures TemperatureRange(query).None? ==> ParseQuery(query).minTemp == 300 && ParseQuery(query).maxTemp == 1200
    ensures TemperatureRange(query).Some? ==>
      var c := TemperatureRange(query).value;
      && Text.Contains(query, c.low) && Text.Contains(query, c.high)
      && ParseQuery(query).minTemp == Text.DigitsValue(c.low) && ParseQuery(query).maxTemp == Text.DigitsValue(c.high)
  {
    if TemperatureRange(query).Some? {
      RangeCapturesOccur(query);
    }
  }

  /** Both numbers of a range are pieces of the query. */
  lemma RangeCapturesOccur(query: string)
    requires TemperatureRange(query).Some?
    ensures Text.Contains(query, TemperatureRange(query).value.low)
    ensures Text.Contains(query, TemperatureRange(query).value.high)
  {
    var c := TemperatureRange(query).value;
    var a, b;
    if FirstRange(CelsiusRange, query).Some? {
      var j := FirstRangeLeftmost(CelsiusRange, query);
      a, b := CelsiusCapturesOccur(query, j);
    } else {
      var j := FirstRangeLeftmost(KoreanRange, query);
      a, b := KoreanCapturesOccur(query, j);
    }
    Text.ContainsAt(query, c.low, a);
    Text.ContainsAt(query, c.high, b);
  }

  /** The captures of the Celsius pattern at index `i` sit at indices `a` and `b` of the text. */
  lemma CelsiusCapturesOccur(s: string, i: nat) returns (a: nat, b: nat)
    requires i <= |s| && CelsiusRangeAt(s, i).Some?
    ensures Text.OccursAt(s, CelsiusRangeAt(s, i).value.low, a)
    ensures Text.OccursAt(s, CelsiusRangeAt(s, i).value.high, b)
  {
    var n := DigitRun(s, i);
    var j := i + n + SpaceRun(s, i + n);
    a := i;
    b := j + 1 + SpaceRun(s, j + 1);
  }

  /** The captures of the Korean pattern at index `i` sit at indices `a` and `b` of the text. */
  lemma KoreanCapturesOccur(s: string, i: nat) returns (a: nat, b: nat)
    requires i <= |s| && KoreanRangeAt(s, i).Some?
    ensures Text.OccursAt(s, KoreanRangeAt(s, i).value.low, a)
    ensures Text.OccursAt(s, KoreanRangeAt(s, i).value.high, b)
  {
    var k := KoreanMarkIndex(s, i + DigitRun(s, i));
    a := i;
    b := k + 1 + SpaceRun(s, k + 1);
  }

  /**
   * A query is a precursor query exactly when it is not a temperature query
   * and holds a precursor keyword; its value is the token at its first
   * upper-case letter, or the whole query when it has none.
   */
  lemma PrecursorIff(query: string)
    ensures ParseQuery(query).PrecursorQuery? <==>
      !ParseQuery(query).TemperatureQuery? && Text.ContainsAny(Text.Lower(query), PrecursorKeywords)
    ensures ParseQuery(query).PrecursorQuery? && (forall k :: 0 <= k < |query| ==> !Text.IsUpper(query[k])) ==>
      ParseQuery(query).value == query
    ensures ParseQuery(query).PrecursorQuery? && (exists k :: 0 <= k < |query| && Text.IsUpper(query[k])) ==>
      exists i :: 0 <= i < |query| && Text.IsUpper(query[i]) && (forall k :: 0 <= k < i ==> !Text.IsUpper(query[k]))
        && Some(ParseQuery(query).value) == TokenAt(PrecursorToken, query, i)
  {
    var lower := Text.Lower(query);
    assert Text.ContainsAny(lower, PrecursorKeywords) <==>
      Text.Contains(lower, PrecursorKeywords[0]) || Text.Contains(lower, PrecursorKeywords[1])
      || Text.Contains(lower, PrecursorKeywords[2]) || Text.Contains(lower, PrecursorKeywords[3]);
    PrecursorTokenFound(query);
  }

  /**
   * A query is a formula query exactly when it is neither a temperature nor a
   * precursor query and some index starts two element units; its value then
   * has two capitals and is a piece of the query.
   */
  lemma FormulaIff(query: string)
    ensures ParseQuery(query).FormulaQuery? <==>
      && !ParseQuery(query).TemperatureQuery? && !ParseQuery(query).PrecursorQuery?
      && exists i :: 0 <= i <= |query| && TokenAt(FormulaToken, query, i).Some?
    ensures ParseQuery(query).FormulaQuery? ==>
      TwoCapitals(ParseQuery(query).value) && Text.Contains(query, ParseQuery(query).value)
  {
    FirstTokenNone(FormulaToken, query);
    if ParseQuery(query).FormulaQuery? {
      var i := FirstTokenLeftmost(FormulaToken, query);
      FormulaTokenShape(query, i);
      Text.ContainsAt(query, ParseQuery(query).value, i);
    }
  }

  /** Anything else is a general query, searched with the whole query. */
  lemma GeneralIff(query: string)
    ensures ParseQuery(query).GeneralQuery? <==>
      && !ParseQuery(query).TemperatureQuery? && !ParseQuery(query).PrecursorQuery?
      && forall i :: 0 <= i <= |query| ==> TokenAt(FormulaToken, query, i).None?
    ensures ParseQuery(query).GeneralQuery? ==> ParseQuery(query).value == query
  {
    FirstTokenNone(FormulaToken, query);
  }

  // ---------------------------------------------------------------
  // The search
  // ---------------------------------------------------------------

  /** The number of records each search returns at most. */
  const Limit: int := 10

  /** `n || d` for a number: `d` when `n` is 0. */
  function OrDefault(n: nat, d: nat): nat {
    if n == 0 then d else n
  }

  /**
   * The intended search, with the lower bound of 0 kept: a temperature
   * query searches the bounds it was parsed with; a general query tries the
   * formula search and falls back to the precursor search only when that
   * finds nothing. The route itself uses `SearchResultsAsWritten`.
   */
  function SearchResults(parsed: Query, query: string, recipes: seq<SynthesisData.Recipe>): seq<SynthesisData.Recipe> {
    match parsed
    case FormulaQuery(v) => ParseSynthesis.WebSearchByFormula(recipes, v, Limit)
    case PrecursorQuery(v) => ParseSynthesis.WebSearchByPrecursor(recipes, v, Limit)
    case TemperatureQuery(_, lo, hi) => ParseSynthesis.WebSearchByTemperature(recipes, lo as real, hi as real, Limit)
    case GeneralQuery(_) =>
      var byFormula := ParseSynthesis.WebSearchByFormula(recipes, query, Limit);
      if byFormula == [] then ParseSynthesis.WebSearchByPrecursor(recipes, query, Limit) else byFormula
  }

  /**
   * The search as the route writes it, and the one `Respond` uses:
   * `parsed.minTemp || 300` and `parsed.maxTemp || 1200` replace a parsed
   * bound of 0; the other kinds of query search as `SearchResults` does.
   */
  function SearchResultsAsWritten(parsed: Query, query: string, recipes: seq<SynthesisData.Recipe>): seq<SynthesisData.Recipe> {
    match parsed
    case TemperatureQuery(_, lo, hi) =>
      ParseSynthesis.WebSearchByTemperature(recipes, OrDefault(lo, 300) as real, OrDefault(hi, 1200) as real, Limit)
    case _ => SearchResults(parsed, query, recipes)
  }

  /** At most ten records, in dataset order, whether the bounds are defaulted or not. */
  lemma ResultsBounded(parsed: Query, query: string, recipes: seq<SynthesisData.Recipe>)
    ensures |SearchResults(parsed, query, recipes)| <= Limit
    ensures Seqs.IsSubsequence(SearchResults(parsed, query, recipes), recipes)
    ensures |SearchResultsAsWritten(parsed, query, recipes)| <= Limit
    ensures Seqs.IsSubsequence(SearchResultsAsWritten(parsed, query, recipes), recipes)
  {
  }

  /**
   * As written, a temperature query finds records overlapping its bounds
   * with 0 replaced: 300 for the lower bound and 1200 for the upper one.
   */
  lemma AsWrittenResultsOverlap(parsed: Query, query: string, recipes: seq<SynthesisData.Recipe>)
    requires parsed.TemperatureQuery?
    ensures var lo := if parsed.minTemp == 0 then 300 else parsed.minTemp;
      var hi := if parsed.maxTemp == 0 then 1200 else parsed.maxTemp;
      forall i :: 0 <= i < |SearchResultsAsWritten(parsed, query, recipes)| ==>
        SynthesisData.TemperatureOverlaps(SearchResultsAsWritten(parsed, query, recipes)[i], lo as real, hi as real)
  {
  }

  /** Every record a temperature query finds overlaps the bounds the query was parsed with. */
  lemma TemperatureResultsOverlap(parsed: Query, query: string, recipes: seq<SynthesisData.Recipe>)
    requires parsed.TemperatureQuery?
    ensures forall i :: 0 <= i < |SearchResults(parsed, query, recipes)| ==>
      SynthesisData.TemperatureOverlaps(SearchResults(parsed, query, recipes)[i], parsed.minTemp as real, parsed.maxTemp as real)
  {
  }

  /**
   * A general query uses the precursor search only when the formula search
   * finds nothing; either way every record matches the query one way or the
   * other.
   */
  lemma GeneralFallback(v: string, query: string, recipes: seq<SynthesisData.Recipe>)
    ensures var byFormula := ParseSynthesis.WebSearchByFormula(recipes, query, Limit);
      && (byFormula != [] ==> SearchResults(GeneralQuery(v), query, recipes) == byFormula)
      && (byFormula == [] ==> SearchResults(GeneralQuery(v), query, recipes) == ParseSynthesis.WebSearchByPrecursor(recipes, query, Limit))
    ensures var normalized := Text.RemoveSpaces(Text.Lower(query));
      forall i :: 0 <= i < |SearchResults(GeneralQuery(v), query, recipes)| ==>
        ParseSynthesis.WebFormulaMatches(SearchResults(GeneralQuery(v), query, recipes)[i], normalized)
        || ParseSynthesis.WebPrecursorMatches(SearchResults(GeneralQuery(v), query, recipes)[i], normalized)
  {
  }

  /** The written search agrees with the intended one unless a parsed bound is 0. */
  lemma AsWrittenAgreesAwayFromZero(parsed: Query, query: string, recipes: seq<SynthesisData.Recipe>)
    requires parsed.TemperatureQuery? ==> parsed.minTemp != 0 && parsed.maxTemp != 0
    ensures SearchResultsAsWritten(parsed, query, recipes) == SearchResults(parsed, query, recipes)
  {
  }

  /**
   * A query for 0-500 °C searches from 300 °C as written: a record run at
   * 100-200 °C, inside the range asked for, is not found.
   */
  lemma ZeroLowerBoundReplaced(query: string, r: SynthesisData.Recipe)
    requires r.temperatureMin == Some(100.0) && r.temperatureMax == Some(200.0)
    ensures SearchResults(TemperatureQuery(query, 0, 500), query, [r]) == [r]
    ensures SearchResultsAsWritten(TemperatureQuery(query, 0, 500), query, [r]) == []
  {
    var within := (x: SynthesisData.Recipe) => SynthesisData.TemperatureOverlaps(x, 0.0, 500.0);
    var written := (x: SynthesisData.Recipe) => SynthesisData.TemperatureOverlaps(x, 300.0, 500.0);
    assert [r][1..] == [];
    assert Seqs.Filter([r], within) == [r];
    assert Seqs.Filter([r], written) == [];
  }

  // ---------------------------------------------------------------
  // formatRecipe
  // ---------------------------------------------------------------

  /** `${x ?? '?'}`. */
  function BoundText(x: Option<real>): string {
    match x
    case Some(v) => Text.NumberText(v)
    case None => "?"
  }

  /** The temperature or time field of a record: `lo-hi` with the unit, or 'N/A'. */
  function RangeText(lo: Option<real>, hi: Option<real>, unit: string): string {
    if lo.Some? || hi.Some? then BoundText(lo) + "-" + BoundText(hi) + unit else "N/A"
  }

  /** A number is printed with a digit or a minus sign first. */
  lemma NumberTextStart(x: real)
    ensures |Text.NumberText(x)| > 0
    ensures Text.NumberText(x)[0] == '-' || Text.IsDigit(Text.NumberText(x)[0])
  {
  }

  /** A bound prints as '?' exactly when it is missing. */
  lemma BoundTextMissing(x: Option<real>)
    ensures BoundText(x) == "?" <==> x.None?
  {
    if x.Some? {
      NumberTextStart(x.value);
      assert BoundText(x)[0] != '?';
    }
  }

  /**
   * For either unit, the field is 'N/A' exactly when both bounds are missing,
   * and otherwise shows each bound, '?' standing for a missing one.
   */
  lemma RangeTextShape(lo: Option<real>, hi: Option<real>, unit: string)
    requires unit == "°C" || unit == "h"
    ensures RangeText(lo, hi, unit) == "N/A" <==> lo.None? && hi.None?
    ensures lo.Some? || hi.Some? ==> RangeText(lo, hi, unit) == BoundText(lo) + "-" + BoundText(hi) + unit
    ensures BoundText(lo) == "?" <==> lo.None?
    ensures BoundText(hi) == "?" <==> hi.None?
  {
    BoundTextMissing(lo);
    BoundTextMissing(hi);
    if lo.Some? || hi.Some? {
      var t := RangeText(lo, hi, unit);
      assert t[|t| - 1] == unit[|unit| - 1];
    }
  }

  /** `recipe.atmosphere || 'N/A'` and `operations.join(' → ') || 'N/A'`: an empty text reads 'N/A'. */
  function OrNotAvailable(s: string): string {
    if s == "" then "N/A" else s
  }

  function AtmosphereText(a: Option<string>): string {
    match a
    case Some(x) => OrNotAvailable(x)
    case None => "N/A"
  }

  function PrecursorFormulas(ps: seq<SynthesisData.Precursor>): seq<string> {
    seq(|ps|, i requires 0 <= i < |ps| => ps[i].formula)
  }

  /** The seven lines of `formatRecipe` for the record at position `index` of the results. */
  function RecipeLines(r: SynthesisData.Recipe, index: nat): seq<string> {
    [ "**" + Text.NatText(index + 1) + ". " + r.targetFormula + "** (" + SynthesisData.TypeName(r.synthesisType) + ")",
      "DOI: [" + r.doi + "](https://doi.org/" + r.doi + ")",
      "- Precursors: " + Text.Join(PrecursorFormulas(r.precursors), ", "),
      "- Temperature: " + RangeText(r.temperatureMin, r.temperatureMax, "°C"),
      "- Time: " + RangeText(r.timeMin, r.timeMax, "h"),
      "- Atmosphere: " + AtmosphereText(r.atmosphere),
      "- Operations: " + OrNotAvailable(Text.Join(r.operations, " → ")) ]
  }

  /** `formatRecipe(recipe, index)`: the lines, one below the other. */
  function FormatRecipe(r: SynthesisData.Recipe, index: nat): string {
    Text.Join(RecipeLines(r, index), "\n")
  }

  /** The whole list: each record formatted at its position, separated by blank lines. */
  function FormatAll(results: seq<SynthesisData.Recipe>): string {
    Text.Join(seq(|results|, i requires 0 <= i < |results| => FormatRecipe(results[i], i)), "\n\n")
  }

  /** A record whose text fields hold no line break. */
  predicate OneLineFields(r: SynthesisData.Recipe) {
    && '\n' !in r.targetFormula && '\n' !in r.doi
    && (forall k :: 0 <= k < |r.precursors| ==> '\n' !in r.precursors[k].formula)
    && (r.atmosphere.Some? ==> '\n' !in r.atmosphere.value)
    && (forall k :: 0 <= k < |r.operations| ==> '\n' !in r.operations[k])
  }

  /** A printed bound or range holds no line break. */
  lemma RangeTextOneLine(lo: Option<real>, hi: Option<real>, unit: string)
    requires '\n' !in unit
    ensures '\n' !in RangeText(lo, hi, unit)
  {
    BoundTextOneLine(lo);
    BoundTextOneLine(hi);
  }

  lemma BoundTextOneLine(x: Option<real>)
    ensures '\n' !in BoundText(x)
  {
    if x.Some? {
      Text.NumberTextChars(x.value);
    }
  }

  /**
   * When the record's fields are single lines, the formatted record splits
   * back into its seven lines: one line per field, in the order printed.
   */
  lemma FormatRecipeLines(r: SynthesisData.Recipe, index: nat)
    requires OneLineFields(r)
    ensures Text.Split(FormatRecipe(r, index), '\n') == RecipeLines(r, index)
    ensures |Text.Split(FormatRecipe(r, index), '\n')| == 7
  {
    RecipeLinesOneLine(r, index);
    Text.SplitJoin(RecipeLines(r, index), '\n');
  }

  /** Each printed line of a record with single-line fields holds no line break. */
  lemma RecipeLinesOneLine(r: SynthesisData.Recipe, index: nat)
    requires OneLineFields(r)
    ensures forall k :: 0 <= k < |RecipeLines(r, index)| ==> '\n' !in RecipeLines(r, index)[k]
  {
    var lines := RecipeLines(r, index);
    TitleLineOneLine(Text.NatText(index + 1), r.targetFormula, SynthesisData.TypeName(r.synthesisType));
    DoiLineOneLine(r.doi);
    Text.JoinWithout(PrecursorFormulas(r.precursors), ", ", '\n');
    RangeTextOneLine(r.temperatureMin, r.temperatureMax, "°C");
    RangeTextOneLine(r.timeMin, r.timeMax, "h");
    Text.JoinWithout(r.operations, " → ", '\n');
    assert '\n' !in lines[5];
  }

  lemma TitleLineOneLine(number: string, formula: string, typeName: string)
    requires '\n' !in formula
    requires forall k :: 0 <= k < |number| ==> Text.IsDigit(number[k])
    requires typeName == "solid-state" || typeName == "sol-gel"
    ensures '\n' !in "**" + number + ". " + formula + "** (" + typeName + ")"
  {
  }

  lemma DoiLineOneLine(doi: string)
    requires '\n' !in doi
    ensures '\n' !in "DOI: [" + doi + "](https://doi.org/" + doi + ")"
  {
  }

  // ---------------------------------------------------------------
  // POST
  // ---------------------------------------------------------------

  /** The JSON reply: an HTTP status and the `message` field. */
  datatype Response = Response(status: nat, message: string)

  /** `searchDescription` for each kind of query. */
  function Description(parsed: Query, query: string, korean: bool): string {
    match parsed
    case FormulaQuery(v) =>
      if korean then "\"" + v + "\" 재료의 합성 레시피" else "Synthesis recipes for \"" + v + "\""
    case PrecursorQuery(v) =>
      if korean then "\"" + v + "\" 전구체를 사용하는 합성" else "Syntheses using \"" + v + "\" as precursor"
    case TemperatureQuery(_, lo, hi) =>
      var range := Text.NatText(lo) + "-" + Text.NatText(hi) + "°C";
      if korean then range + " 온도 범위 합성" else "Synthesis at " + range
    case GeneralQuery(_) =>
      if korean then "\"" + query + "\" 검색 결과" else "Search results for \"" + query + "\""
  }

  const NoResultsTailKo: string := "\"에 대한 합성 레시피를 찾을 수 없습니다.\n\n다른 검색어를 시도해보세요:\n- 재료명: LiCoO2, BaTiO3\n- 전구체: Li2CO3, TiO2\n- 온도 범위: 800-1000°C"
  const NoResultsTailEn: string := "\".\n\nTry other searches:\n- Material: LiCoO2, BaTiO3\n- Precursor: Li2CO3, TiO2\n- Temperature: 800-1000°C"
  const NoResultsHeadEn: string := "No synthesis recipes found for \""

  function NoResultsMessage(query: string, korean: bool): string {
    if korean then "\"" + query + NoResultsTailKo
    else NoResultsHeadEn + query + NoResultsTailEn
  }

  const FoundKo: string := "개의 레시피 발견 (총 "
  const TotalKo: string := "개 중)\n"
  const FoundEn: string := "Found "
  const TotalEn: string := " recipes (out of "
  const TotalEnEnd: string := " total)\n"

  /** The header: the description in bold, then how many records were found out of the whole dataset. */
  function Header(description: string, found: nat, total: nat, korean: bool): string {
    "**" + description + "**\n" + CountLine(found, total, korean)
  }

  function CountLine(found: nat, total: nat, korean: bool): string {
    if korean then Text.NatText(found) + FoundKo + Text.NatText(total) + TotalKo
    else FoundEn + Text.NatText(found) + TotalEn + Text.NatText(total) + TotalEnEnd
  }

  const FooterKo: string := "\n---\n*출처: Ceder Group Text-Mined Synthesis Dataset*"
  const FooterEn: string := "\n---\n*Source: Ceder Group Text-Mined Synthesis Dataset*"

  function Footer(korean: bool): string {
    if korean then FooterKo else FooterEn
  }

  /** The query of a valid request: the last message, trimmed. */
  function QueryOf(messages: seq<Message>): string
    requires |messages| > 0
  {
    Text.Trim(messages[|messages| - 1].content)
  }

  /** The request is served only when its last message is the user's. */
  predicate ValidRequest(messages: seq<Message>) {
    |messages| > 0 && messages[|messages| - 1].role == User
  }

  /**
   * The reply to a valid request, from the description of its query, the
   * number of records found, their formatted text and the dataset's size.
   */
  function Reply(query: string, korean: bool, description: string, found: nat, formatted: string, total: nat): string {
    if found == 0 then NoResultsMessage(query, korean)
    else Header(description, found, total, korean) + ("\n" + formatted + Footer(korean))
  }

  /** `POST` on the request's messages, its `language` and the web dataset. */
  function Respond(messages: seq<Message>, language: string, recipes: seq<SynthesisData.Recipe>): Response {
    if !ValidRequest(messages) then Response(400, "Invalid request")
    else
      var query := QueryOf(messages);
      var parsed := ParseQuery(query);
      var results := SearchResultsAsWritten(parsed, query, recipes);
      Response(200, Reply(query, language == "ko", Description(parsed, query, language == "ko"), |results|, FormatAll(results), |recipes|))
  }

  /**
   * A request whose last message is not the user's gets status 400 and
   * nothing else; any other gets status 200.
   */
  lemma RespondStatus(messages: seq<Message>, language: string, recipes: seq<SynthesisData.Recipe>)
    ensures Respond(messages, language, recipes).status == 400 <==> !ValidRequest(messages)
    ensures Respond(messages, language, recipes).status != 400 ==> Respond(messages, language, recipes).status == 200
    ensures !ValidRequest(messages) ==> Respond(messages, language, recipes).message == "Invalid request"
  {
  }

  /**
   * A valid request gets the no-results message exactly when its search
   * finds nothing; otherwise the reply opens with the description in bold.
   */
  lemma RespondMessage(messages: seq<Message>, language: string, recipes: seq<SynthesisData.Recipe>)
    requires ValidRequest(messages)
    ensures var query := QueryOf(messages);
      var results := SearchResultsAsWritten(ParseQuery(query), query, recipes);
      Respond(messages, language, recipes).message == NoResultsMessage(query, language == "ko") <==> results == []
    ensures var query := QueryOf(messages);
      var results := SearchResultsAsWritten(ParseQuery(query), query, recipes);
      results != [] ==>
        Text.StartsWith(Respond(messages, language, recipes).message, "**" + Description(ParseQuery(query), query, language == "ko") + "**\n")
  {
    var query := QueryOf(messages);
    var parsed := ParseQuery(query);
    var results := SearchResultsAsWritten(parsed, query, recipes);
    ReplyShape(query, language == "ko", Description(parsed, query, language == "ko"), |results|, FormatAll(results), |recipes|);
  }

  /** The reply is the no-results message exactly when nothing was found, and otherwise opens with the bold description. */
  lemma ReplyShape(query: string, korean: bool, description: string, found: nat, formatted: string, total: nat)
    ensures Reply(query, korean, description, found, formatted, total) == NoResultsMessage(query, korean) <==> found == 0
    ensures found != 0 ==>
      Text.StartsWith(Reply(query, korean, description, found, formatted, total), "**" + description + "**\n")
  {
    if found != 0 {
      var header := Header(description, found, total, korean);
      var rest := "\n" + formatted + Footer(korean);
      var opening := "**" + description + "**\n";
      assert Reply(query, korean, description, found, formatted, total) == header + rest;
      HeaderOpens(description, found, total, korean);
      StartsWithAppend(header, rest, opening);
      NoResultsOpening(query, korean);
      OpeningsDiffer(header + rest, opening, NoResultsMessage(query, korean));
    }
  }

  /** A text opening with '*' is not one that opens otherwise. */
  lemma OpeningsDiffer(m: string, opening: string, other: string)
    requires Text.StartsWith(m, opening) && |opening| > 0 && opening[0] == '*'
    requires |other| > 0 && other[0] != '*'
    ensures m != other
  {
    assert m[0] == m[..|opening|][0];
  }

  /** The header opens with the description in bold, on a line of its own. */
  lemma HeaderOpens(description: string, found: nat, total: nat, korean: bool)
    ensures Text.StartsWith(Header(description, found, total, korean), "**" + description + "**\n")
  {
    var opening := "**" + description + "**\n";
    assert Header(description, found, total, korean)[..|opening|] == opening;
  }

  lemma StartsWithAppend(a: string, b: string, p: string)
    requires Text.StartsWith(a, p)
    ensures Text.StartsWith(a + b, p)
  {
    assert (a + b)[..|p|] == a[..|p|];
  }

  /** The no-results message opens with a quotation mark or a letter, never with '*'. */
  lemma NoResultsOpening(query: string, korean: bool)
    ensures |NoResultsMessage(query, korean)| > 0 && NoResultsMessage(query, korean)[0] != '*'
  {
  }

  /** "800-1000°C" asks for 800 to 1000 °C. */
  lemma CelsiusRangeExample()
    ensures ParseQuery("800-1000°C") == TemperatureQuery("800-1000°C", 800, 1000)
  {
    var q := "800-1000°C";
    CelsiusMatchExample();
    assert RangeHere(CelsiusRange, q)(0) == Some(RangeCapture("800", "1000"));
    assert TemperatureRange(q) == Some(RangeCapture("800", "1000"));
    DigitsExample();
  }

  /** The Celsius pattern reads both numbers of "800-1000°C" at its first index. */
  lemma CelsiusMatchExample()
    ensures CelsiusRangeAt("800-1000°C", 0) == Some(RangeCapture("800", "1000"))
  {
    var q := "800-1000°C";
    CelsiusExampleRuns();
    assert q[0..3] == "800" && q[4..8] == "1000";
  }

  lemma CelsiusExampleRuns()
    ensures var q := "800-1000°C";
      && DigitRun(q, 0) == 3 && SpaceRun(q, 3) == 0 && q[3] == '-'
      && SpaceRun(q, 4) == 0 && DigitRun(q, 4) == 4 && CelsiusUnitAt(q, 8)
  {
  }

  lemma DigitsExample()
    ensures Text.DigitsValue("800") == 800 && Text.DigitsValue("1000") == 1000
  {
    assert "800"[..2] == "80" && "80"[..1] == "8" && "8"[..0] == "";
    assert "1000"[..3] == "100" && "100"[..2] == "10" && "10"[..1] == "1" && "1"[..0] == "";
  }

  /** "800~1000도" is a Korean range. */
  lemma KoreanRangeExample()
    ensures KoreanRangeAt("800~1000도", 0) == Some(RangeCapture("800", "1000"))
  {
    var q := "800~1000도";
    KoreanExampleRuns();
    assert q[0..3] == "800" && q[4..8] == "1000";
  }

  lemma KoreanExampleRuns()
    ensures var q := "800~1000도";
      && DigitRun(q, 0) == 3 && KoreanMarkIndex(q, 3) == 3 && q[3] == '~'
      && SpaceRun(q, 4) == 0 && DigitRun(q, 4) == 4
  {
  }

  /**
   * The range marks are single characters: in "800도에서 1000도" the mark
   * '에' must be followed by the second number, and '서' is not a digit.
   */
  lemma SyllablesAreSingleMarks()
    ensures KoreanRangeAt("800도에서 1000도", 0).None?
  {
    SyllablesExampleRuns();
  }

  lemma SyllablesExampleRuns()
    ensures var q := "800도에서 1000도";
      && |q| == 12 && DigitRun(q, 0) == 3 && KoreanMarkIndex(q, 3) == 4
      && q[4] == '에' && SpaceRun(q, 5) == 0 && DigitRun(q, 5) == 0
  {
  }

  /** "LiCoO2" is a formula token of three units; "O2" has one unit and is none. */
  lemma FormulaTokenExample()
    ensures TokenAt(FormulaToken, "LiCoO2", 0) == Some("LiCoO2")
    ensures TokenAt(FormulaToken, "O2", 0).None?
  {
    var q := "LiCoO2";
    assert UnitLength(q, 0) == 2 && UnitLength(q, 2) == 2 && UnitLength(q, 4) == 2 && UnitLength(q, 6) == 0;
    assert UnitsEnd(q, 6) == 6;
    assert UnitsEnd(q, 4) == 6;
    assert UnitsEnd(q, 2) == 6;
    assert UnitsEnd(q, 0) == 6;
    assert q[0..6] == q;
    var o := "O2";
    assert UnitLength(o, 0) == 2 && UnitLength(o, 2) == 0;
  }
}
