/**
 * The chemical-formula tokeniser of the recipe generator, and the keyword
 * classifiers that pick a target material and a synthesis method out of a
 * chat message (src/lib/recipe/element-parser.ts).
 *
 * The three regular expressions of `extractTargetMaterial` are modelled as
 * scanners: the match at one start index, and the leftmost start index that
 * matches. Each scanner's comment says why backtracking cannot give the
 * regular expression a different first match.
 */
module ElementParser {
  import opened Wrappers
  import Text
  import Seqs

  // The periodic table as the parser knows it, hydrogen to fermium, in the
  // ten rows of ten it is written in.
  function ElementRow0(k: nat): string
    requires k < 10
  {
    match k
    case 0 => "H" case 1 => "He" case 2 => "Li" case 3 => "Be" case 4 => "B"
    case 5 => "C" case 6 => "N" case 7 => "O" case 8 => "F" case _ => "Ne"
  }
  function ElementRow1(k: nat): string
    requires k < 10
  {
    match k
    case 0 => "Na" case 1 => "Mg" case 2 => "Al" case 3 => "Si" case 4 => "P"
    case 5 => "S" case 6 => "Cl" case 7 => "Ar" case 8 => "K" case _ => "Ca"
  }
  function ElementRow2(k: nat): string
    requires k < 10
  {
    match k
    case 0 => "Sc" case 1 => "Ti" case 2 => "V" case 3 => "Cr" case 4 => "Mn"
    case 5 => "Fe" case 6 => "Co" case 7 => "Ni" case 8 => "Cu" case _ => "Zn"
  }
  function ElementRow3(k: nat): string
    requires k < 10
  {
    match k
    case 0 => "Ga" case 1 => "Ge" case 2 => "As" case 3 => "Se" case 4 => "Br"
    case 5 => "Kr" case 6 => "Rb" case 7 => "Sr" case 8 => "Y" case _ => "Zr"
  }
  function ElementRow4(k: nat): string
    requires k < 10
  {
    match k
    case 0 => "Nb" case 1 => "Mo" case 2 => "Tc" case 3 => "Ru" case 4 => "Rh"
    case 5 => "Pd" case 6 => "Ag" case 7 => "Cd" case 8 => "In" case _ => "Sn"
  }
  function ElementRow5(k: nat): string
    requires k < 10
  {
    match k
    case 0 => "Sb" case 1 => "Te" case 2 => "I" case 3 => "Xe" case 4 => "Cs"
    case 5 => "Ba" case 6 => "La" case 7 => "Ce" case 8 => "Pr" case _ => "Nd"
  }
  function ElementRow6(k: nat): string
    requires k < 10
  {
    match k
    case 0 => "Pm" case 1 => "Sm" case 2 => "Eu" case 3 => "Gd" case 4 => "Tb"
    case 5 => "Dy" case 6 => "Ho" case 7 => "Er" case 8 => "Tm" case _ => "Yb"
  }
  function ElementRow7(k: nat): string
    requires k < 10
  {
    match k
    case 0 => "Lu" case 1 => "Hf" case 2 => "Ta" case 3 => "W" case 4 => "Re"
    case 5 => "Os" case 6 => "Ir" case 7 => "Pt" case 8 => "Au" case _ => "Hg"
  }
  function ElementRow8(k: nat): string
    requires k < 10
  {
    match k
    case 0 => "Tl" case 1 => "Pb" case 2 => "Bi" case 3 => "Po" case 4 => "At"
    case 5 => "Rn" case 6 => "Fr" case 7 => "Ra" case 8 => "Ac" case _ => "Th"
  }
  function ElementRow9(k: nat): string
    requires k < 10
  {
    match k
    case 0 => "Pa" case 1 => "U" case 2 => "Np" case 3 => "Pu" case 4 => "Am"
    case 5 => "Cm" case 6 => "Bk" case 7 => "Cf" case 8 => "Es" case _ => "Fm"
  }

  /** The symbol at index `i` of the table. */
  function ElementAt(i: nat): string
    requires i < 100
  {
    var k := i % 10;
    match i / 10
    case 0 => ElementRow0(k) case 1 => ElementRow1(k) case 2 => ElementRow2(k) case 3 => ElementRow3(k)
    case 4 => ElementRow4(k) case 5 => ElementRow5(k) case 6 => ElementRow6(k) case 7 => ElementRow7(k)
    case 8 => ElementRow8(k) case _ => ElementRow9(k)
  }

  /** `ELEMENTS`, the table as a list. */
  function Elements(): seq<string> {
    seq(100, i requires 0 <= i < 100 => ElementAt(i))
  }

  /** An upper-case letter, optionally followed by a lower-case one. */
  predicate SymbolShape(x: string) {
    1 <= |x| <= 2 && Text.IsUpper(x[0]) && (|x| == 2 ==> Text.IsLower(x[1]))
  }

  lemma ElementRow0Shape() ensures forall k :: 0 <= k < 10 ==> SymbolShape(ElementRow0(k)) { }
  lemma ElementRow1Shape() ensures forall k :: 0 <= k < 10 ==> SymbolShape(ElementRow1(k)) { }
  lemma ElementRow2Shape() ensures forall k :: 0 <= k < 10 ==> SymbolShape(ElementRow2(k)) { }
  lemma ElementRow3Shape() ensures forall k :: 0 <= k < 10 ==> SymbolShape(ElementRow3(k)) { }
  lemma ElementRow4Shape() ensures forall k :: 0 <= k < 10 ==> SymbolShape(ElementRow4(k)) { }
  lemma ElementRow5Shape() ensures forall k :: 0 <= k < 10 ==> SymbolShape(ElementRow5(k)) { }
  lemma ElementRow6Shape() ensures forall k :: 0 <= k < 10 ==> SymbolShape(ElementRow6(k)) { }
  lemma ElementRow7Shape() ensures forall k :: 0 <= k < 10 ==> SymbolShape(ElementRow7(k)) { }
  lemma ElementRow8Shape() ensures forall k :: 0 <= k < 10 ==> SymbolShape(ElementRow8(k)) { }
  lemma ElementRow9Shape() ensures forall k :: 0 <= k < 10 ==> SymbolShape(ElementRow9(k)) { }

  lemma ElementsShape()
    ensures forall x :: x in Elements() ==> SymbolShape(x)
  {
    ElementRow0Shape(); ElementRow1Shape(); ElementRow2Shape(); ElementRow3Shape(); ElementRow4Shape();
    ElementRow5Shape(); ElementRow6Shape(); ElementRow7Shape(); ElementRow8Shape(); ElementRow9Shape();
    forall x | x in Elements()
      ensures SymbolShape(x)
    {
      var i :| 0 <= i < |Elements()| && Elements()[i] == x;
      assert ElementAt(i) == x;
    }
  }

  /** `ELEMENTS.includes(x)`. */
  predicate IsElement(x: string) {
    Seqs.IncludesFrom(Elements(), x, 0)
  }

  lemma ElementMembership(x: string)
    ensures IsElement(x) <==> x in Elements()
  {
    Seqs.IncludesIff(Elements(), x);
  }

  /** The symbol at index `k` of the table passes the scan. */
  lemma ElementIsAt(k: nat)
    requires k < |Elements()|
    ensures IsElement(Elements()[k])
  {
    ElementMembership(Elements()[k]);
  }

  lemma CarbonIsElement() ensures IsElement("C") { ElementIsAt(5); }
  lemma OxygenIsElement() ensures IsElement("O") { ElementIsAt(7); }
  lemma LithiumIsElement() ensures IsElement("Li") { ElementIsAt(2); }
  lemma IronIsElement() ensures IsElement("Fe") { ElementIsAt(25); }
  lemma CobaltIsElement() ensures IsElement("Co") { ElementIsAt(26); }

  /** The two-letter symbols in table order; the tokeniser tries them before single letters. */
  const TwoLetterElements: seq<string> := Seqs.Filter(Elements(), (e: string) => |e| == 2)

  /** A string is one of TwoLetterElements iff it is a symbol of the table of length two. */
  lemma TwoLetterElement(x: string)
    ensures x in TwoLetterElements <==> |x| == 2 && IsElement(x)
  {
    ElementMembership(x);
  }

  lemma TwoLetterLengths()
    ensures forall j :: 0 <= j < |TwoLetterElements| ==> |TwoLetterElements[j]| == 2
  {
  }

  datatype ParsedElement = ParsedElement(symbol: string, count: real)

  datatype ParsedFormula = ParsedFormula(formula: string, elements: seq<ParsedElement>, uniqueElements: seq<string>)

  // ---------------------------------------------------------------------------
  // Counts

  /**
   * Length of the match of `^(\d+\.?\d*)` at the start of `s`, 0 when there is
   * none. Nothing follows the pattern, so its greedy parts never give back.
   */
  function CountLength(s: string): (n: nat)
    ensures n <= |s|
  {
    var whole := Text.RunLength(s, Text.IsDigit);
    if whole == 0 then 0
    else if whole < |s| && s[whole] == '.' then whole + 1 + Text.RunLength(s[whole + 1..], Text.IsDigit)
    else whole
  }

  /** The value of a run of fraction digits: "25" stands for 0.25. */
  function FractionValue(s: string): real
    requires forall i :: 0 <= i < |s| ==> Text.IsDigit(s[i])
  {
    if s == [] then 0.0 else (Text.DigitValue(s[0]) as real + FractionValue(s[1..])) / 10.0
  }

  /** `parseFloat` of the count literal at the start of `s`, in exact arithmetic. */
  function CountValue(s: string): real
    requires CountLength(s) > 0
  {
    var whole := Text.RunLength(s, Text.IsDigit);
    var n := CountLength(s);
    assert forall i :: 0 <= i < whole ==> Text.IsDigit(s[..whole][i]);
    assert n > whole ==> forall i :: whole + 1 <= i < n ==> Text.IsDigit(s[i]);
    Text.DigitsValue(s[..whole]) as real + (if n > whole then FractionValue(s[whole + 1..n]) else 0.0)
  }

  /** The count written after a symbol: its literal, or 1 when there is none. */
  function CountAfter(s: string): real {
    if CountLength(s) > 0 then CountValue(s) else 1.0
  }

  // ---------------------------------------------------------------------------
  // Tokens

  /**
   * Length of the element symbol that `s` starts with, two letters tried
   * first; 0 when none. A two-letter prefix is in TwoLetterElements iff it is
   * in the table (TwoLetterElement).
   */
  function SymbolLength(s: string): (n: nat)
    ensures n <= |s|
  {
    if |s| >= 2 && IsElement(s[..2]) then 2
    else if |s| >= 1 && Text.IsUpper(s[0]) && IsElement([s[0]]) then 1
    else 0
  }

  /**
   * The symbols of `s` with their counts, in order and before merging. A
   * character that starts no symbol is dropped on its own.
   */
  function Tokens(s: string): seq<ParsedElement>
    decreases |s|
  {
    if s == [] then []
    else
      var n := SymbolLength(s);
      if n == 0 then Tokens(s[1..])
      else
        var after := s[n..];
        [ParsedElement(s[..n], CountAfter(after))] + Tokens(after[CountLength(after)..])
  }

  function Symbols(ts: seq<ParsedElement>): seq<string> {
    seq(|ts|, i requires 0 <= i < |ts| => ts[i].symbol)
  }

  /** The sum of the counts of every token of symbol `x`. */
  function Total(ts: seq<ParsedElement>, x: string): real {
    if ts == [] then 0.0
    else Total(ts[..|ts| - 1], x) + (if ts[|ts| - 1].symbol == x then ts[|ts| - 1].count else 0.0)
  }

  /** One entry per distinct symbol, in order of first occurrence, holding the summed count. */
  function Merge(ts: seq<ParsedElement>): seq<ParsedElement> {
    var u := Seqs.Dedup(Symbols(ts));
    seq(|u|, i requires 0 <= i < |u| => ParsedElement(u[i], Total(ts, u[i])))
  }

  /** What `parseFormula` returns for `formula`. */
  function FormulaOf(formula: string): ParsedFormula {
    var merged := Merge(Tokens(Text.Trim(formula)));
    ParsedFormula(formula, merged, Symbols(merged))
  }

  /** The symbol SymbolLength finds is in the table. */
  lemma SymbolInTable(s: string)
    requires SymbolLength(s) > 0
    ensures IsElement(s[..SymbolLength(s)])
  {
    if SymbolLength(s) == 1 {
      assert s[..1] == [s[0]];
    }
  }

  /** Every token names an element of the table. */
  lemma {:induction false} TokensAreElements(s: string)
    ensures forall i :: 0 <= i < |Tokens(s)| ==> IsElement(Tokens(s)[i].symbol)
    decreases |s|
  {
    if s != [] {
      var n := SymbolLength(s);
      if n == 0 {
        TokensAreElements(s[1..]);
      } else {
        var after := s[n..];
        var rest := Tokens(after[CountLength(after)..]);
        TokensAreElements(after[CountLength(after)..]);
        SymbolInTable(s);
        TokensAtSymbol(s);
        var ts := [ParsedElement(s[..n], CountAfter(after))] + rest;
        forall i | 0 <= i < |ts|
          ensures IsElement(ts[i].symbol)
        {
          if i > 0 {
            assert ts[i] == rest[i - 1];
          }
        }
      }
    }
  }

  /**
   * Merging keeps one entry per distinct symbol, each with the sum of that
   * symbol's counts, and loses no symbol.
   */
  lemma MergeFacts(ts: seq<ParsedElement>)
    ensures Seqs.NoDuplicates(Symbols(Merge(ts)))
    ensures forall i :: 0 <= i < |Merge(ts)| ==> Merge(ts)[i].symbol in Symbols(ts)
    ensures forall i :: 0 <= i < |Merge(ts)| ==> Merge(ts)[i].count == Total(ts, Merge(ts)[i].symbol)
    ensures forall j :: 0 <= j < |ts| ==> ts[j].symbol in Symbols(Merge(ts))
  {
    var u := Seqs.Dedup(Symbols(ts));
    assert Symbols(Merge(ts)) == u;
    forall j | 0 <= j < |ts|
      ensures ts[j].symbol in u
    {
      assert Symbols(ts)[j] == ts[j].symbol;
    }
  }

  /**
   * `parseFormula` never fails; its merged list has one entry per distinct
   * symbol, all from the table, with the summed count, and `uniqueElements` is
   * that list's symbols.
   */
  lemma FormulaOfFacts(formula: string)
    ensures FormulaOf(formula).formula == formula
    ensures FormulaOf(formula).uniqueElements == Symbols(FormulaOf(formula).elements)
    ensures Seqs.NoDuplicates(FormulaOf(formula).uniqueElements)
    ensures forall i :: 0 <= i < |FormulaOf(formula).uniqueElements| ==> IsElement(FormulaOf(formula).uniqueElements[i])
    ensures forall i :: 0 <= i < |FormulaOf(formula).elements| ==>
      FormulaOf(formula).elements[i].count == Total(Tokens(Text.Trim(formula)), FormulaOf(formula).elements[i].symbol)
    ensures forall t :: t in Tokens(Text.Trim(formula)) ==> t.symbol in FormulaOf(formula).uniqueElements
  {
    var ts := Tokens(Text.Trim(formula));
    TokensAreElements(Text.Trim(formula));
    MergeFacts(ts);
    MergeKeepsElements(ts);
    MergeKeepsSymbols(ts);
  }

  /** Merged symbols come from the tokens, so they stay in the table. */
  lemma MergeKeepsElements(ts: seq<ParsedElement>)
    requires forall i :: 0 <= i < |ts| ==> IsElement(ts[i].symbol)
    ensures forall i :: 0 <= i < |Merge(ts)| ==> IsElement(Merge(ts)[i].symbol)
  {
    var m := Merge(ts);
    MergeFacts(ts);
    forall i | 0 <= i < |m|
      ensures IsElement(m[i].symbol)
    {
      var j :| 0 <= j < |ts| && Symbols(ts)[j] == m[i].symbol;
    }
  }

  /** Every token's symbol is among the merged symbols. */
  lemma MergeKeepsSymbols(ts: seq<ParsedElement>)
    ensures forall t :: t in ts ==> t.symbol in Symbols(Merge(ts))
  {
    MergeFacts(ts);
    forall t | t in ts
      ensures t.symbol in Symbols(Merge(ts))
    {
      var j :| 0 <= j < |ts| && ts[j] == t;
    }
  }

  /** A formula yields no element iff it holds no symbol at all. */
  lemma NoElementsIff(formula: string)
    ensures |FormulaOf(formula).uniqueElements| == 0 <==> Tokens(Text.Trim(formula)) == []
  {
    var ts := Tokens(Text.Trim(formula));
    FormulaOfFacts(formula);
    if ts != [] {
      assert ts[0] in ts;
    }
  }

  /** A trimmed formula that starts with a symbol yields at least one element. */
  lemma StartsWithSymbolParses(formula: string)
    requires SymbolLength(Text.Trim(formula)) > 0
    ensures |FormulaOf(formula).uniqueElements| > 0
  {
    TokensAtSymbol(Text.Trim(formula));
    NoElementsIff(formula);
  }

  /** Tokens unfolded once at a symbol. */
  lemma TokensAtSymbol(s: string)
    requires SymbolLength(s) > 0
    ensures var n := SymbolLength(s); var after := s[n..];
      Tokens(s) == [ParsedElement(s[..n], CountAfter(after))] + Tokens(after[CountLength(after)..])
  {
  }

  /** Tokens unfolded once at a symbol that no count follows. */
  lemma TokenWithoutCount(s: string)
    requires SymbolLength(s) > 0
    requires SymbolLength(s) == |s| || !Text.IsDigit(s[SymbolLength(s)])
    ensures Tokens(s) == [ParsedElement(s[..SymbolLength(s)], 1.0)] + Tokens(s[SymbolLength(s)..])
  {
    TokensAtSymbol(s);
    var after := s[SymbolLength(s)..];
    assert CountLength(after) == 0;
  }

  lemma SymbolsSnoc(ts: seq<ParsedElement>, t: ParsedElement)
    ensures Symbols(ts + [t]) == Symbols(ts) + [t.symbol]
  {
  }

  lemma TotalSnoc(ts: seq<ParsedElement>, t: ParsedElement, x: string)
    ensures Total(ts + [t], x) == Total(ts, x) + (if t.symbol == x then t.count else 0.0)
  {
    assert (ts + [t])[..|ts|] == ts;
  }

  /** A symbol absent from `ts` has total 0. */
  lemma {:induction false} TotalAbsent(ts: seq<ParsedElement>, x: string)
    requires forall j :: 0 <= j < |ts| ==> ts[j].symbol != x
    ensures Total(ts, x) == 0.0
  {
    if ts != [] {
      TotalAbsent(ts[..|ts| - 1], x);
    }
  }

  /** In a token list without repeated symbols, a symbol's total is its own count. */
  lemma {:induction false} TotalDistinct(ts: seq<ParsedElement>, i: nat)
    requires Seqs.NoDuplicates(Symbols(ts)) && i < |ts|
    ensures Total(ts, ts[i].symbol) == ts[i].count
  {
    var n := |ts|;
    assert forall j :: 0 <= j < n ==> Symbols(ts)[j] == ts[j].symbol;
    var init := ts[..n - 1];
    if i == n - 1 {
      TotalAbsent(init, ts[i].symbol);
    } else {
      assert forall j :: 0 <= j < |init| ==> Symbols(init)[j] == Symbols(ts)[j];
      TotalDistinct(init, i);
    }
  }

  /** Merging changes nothing when no symbol repeats. */
  lemma MergeDistinct(ts: seq<ParsedElement>)
    requires Seqs.NoDuplicates(Symbols(ts))
    ensures Merge(ts) == ts
  {
    Seqs.DedupOfDistinct(Symbols(ts));
    forall i | 0 <= i < |ts|
      ensures Merge(ts)[i] == ts[i]
    {
      TotalDistinct(ts, i);
    }
  }

  /** The merged list of a formula is the merge of its tokens. */
  lemma FormulaFromTokens(formula: string, ts: seq<ParsedElement>)
    requires Tokens(Text.Trim(formula)) == ts
    ensures FormulaOf(formula).elements == Merge(ts)
  {
  }

  /** When no symbol repeats, the merged list is the token list itself. */
  lemma FormulaOfDistinct(formula: string, ts: seq<ParsedElement>)
    requires Tokens(Text.Trim(formula)) == ts
    requires Seqs.NoDuplicates(Symbols(ts))
    ensures FormulaOf(formula).elements == ts
  {
    MergeDistinct(ts);
  }

  lemma OneToken(s: string, x: string, c: real)
    requires SymbolLength(s) > 0 && s[..SymbolLength(s)] == x
    requires CountLength(s[SymbolLength(s)..]) == |s| - SymbolLength(s)
    requires CountAfter(s[SymbolLength(s)..]) == c
    ensures Tokens(s) == [ParsedElement(x, c)]
  {
    TokensAtSymbol(s);
    var after := s[SymbolLength(s)..];
    assert after[CountLength(after)..] == [];
  }

  // The examples below fix a string by its characters rather than by a
  // literal, so the solver meets each token step once.

  /** `s` starts with the two-letter symbol `x`. */
  lemma TwoLetterAhead(s: string, x: string)
    requires |x| == 2 && IsElement(x) && |s| >= 2 && s[0] == x[0] && s[1] == x[1]
    ensures SymbolLength(s) == 2 && s[..2] == x
  {
    assert s[..2] == x;
  }

  /** `s` starts with the one-letter symbol `x` and no lower-case letter follows it. */
  lemma OneLetterAhead(s: string, x: string)
    requires |x| == 1 && Text.IsUpper(x[0]) && IsElement(x) && |s| >= 1 && s[0] == x[0]
    requires |s| >= 2 ==> !Text.IsLower(s[1])
    ensures SymbolLength(s) == 1 && s[..1] == x
  {
    if |s| >= 2 {
      ElementsShape();
      ElementMembership(s[..2]);
      assert s[..2][1] == s[1];
    }
    assert [s[0]] == x && s[..1] == x;
  }

  lemma CobaltTokens(s: string)
    requires |s| == 2 && s[0] == 'C' && s[1] == 'o'
    ensures Tokens(s) == [ParsedElement("Co", 1.0)]
  {
    CobaltIsElement();
    TwoLetterAhead(s, "Co");
    assert s[2..] == [];
    OneToken(s, "Co", 1.0);
  }

  /** Two-letter symbols win: "Co" is cobalt. */
  lemma CobaltIsOneSymbol()
    ensures FormulaOf("Co").elements == [ParsedElement("Co", 1.0)]
  {
    Text.TrimKeeps("Co");
    CobaltTokens("Co");
    FormulaOfDistinct("Co", [ParsedElement("Co", 1.0)]);
  }

  lemma OxygenTokens(s: string)
    requires |s| == 1 && s[0] == 'O'
    ensures Tokens(s) == [ParsedElement("O", 1.0)]
  {
    OxygenIsElement();
    OneLetterAhead(s, "O");
    TokenWithoutCount(s);
    assert s[1..] == [];
  }

  lemma CarbonMonoxideTokens(s: string)
    requires |s| == 2 && s[0] == 'C' && s[1] == 'O'
    ensures Tokens(s) == [ParsedElement("C", 1.0), ParsedElement("O", 1.0)]
  {
    CarbonIsElement();
    OneLetterAhead(s, "C");
    TokenWithoutCount(s);
    OxygenTokens(s[1..]);
  }

  /** Two tokens of different symbols merge into themselves. */
  lemma MergeTwoDistinct(a: ParsedElement, b: ParsedElement)
    requires a.symbol != b.symbol
    ensures Merge([a, b]) == [a, b]
  {
    assert Symbols([a, b]) == [a.symbol, b.symbol];
    MergeDistinct([a, b]);
  }

  /** "CO" is not a symbol, so it is carbon then oxygen. */
  lemma CarbonMonoxideIsTwoSymbols()
    ensures FormulaOf("CO").elements == [ParsedElement("C", 1.0), ParsedElement("O", 1.0)]
  {
    Text.TrimKeeps("CO");
    CarbonMonoxideTokens("CO");
    MergeTwoDistinct(ParsedElement("C", 1.0), ParsedElement("O", 1.0));
    FormulaFromTokens("CO", [ParsedElement("C", 1.0), ParsedElement("O", 1.0)]);
  }

  /** Iron with no count after it. */
  lemma IronFirst(s: string)
    requires |s| >= 3 && s[0] == 'F' && s[1] == 'e' && !Text.IsDigit(s[2])
    ensures Tokens(s) == [ParsedElement("Fe", 1.0)] + Tokens(s[2..])
  {
    IronIsElement();
    TwoLetterAhead(s, "Fe");
    TokenWithoutCount(s);
  }

  /** The tokens of "FeFeO": iron twice, then oxygen. */
  const IronIronOxygen: seq<ParsedElement> := [ParsedElement("Fe", 1.0), ParsedElement("Fe", 1.0), ParsedElement("O", 1.0)]

  lemma RepeatedSymbolsTokens(s: string)
    requires |s| == 5 && s[0] == 'F' && s[1] == 'e' && s[2] == 'F' && s[3] == 'e' && s[4] == 'O'
    ensures Tokens(s) == IronIronOxygen
  {
    IronFirst(s);
    var t := s[2..];
    assert t[0] == 'F' && t[1] == 'e' && t[2] == 'O';
    IronFirst(t);
    OxygenTokens(t[2..]);
  }

  lemma IronIronOxygenSymbols()
    ensures Seqs.Dedup(Symbols(IronIronOxygen)) == ["Fe", "O"]
  {
    assert Symbols(IronIronOxygen) == ["Fe", "Fe", "O"];
    assert ["Fe", "Fe", "O"][..2] == ["Fe", "Fe"];
    assert ["Fe", "Fe"][..1] == ["Fe"];
    assert Seqs.Dedup(["Fe"]) == ["Fe"];
    assert Seqs.Dedup(["Fe", "Fe"]) == ["Fe"];
  }

  lemma IronIronOxygenTotals()
    ensures Total(IronIronOxygen, "Fe") == 2.0 && Total(IronIronOxygen, "O") == 1.0
  {
    var ts := IronIronOxygen;
    assert ts[..2][..1][..0] == [];
    assert Total(ts[..2][..1], "Fe") == 1.0;
    assert Total(ts[..2], "Fe") == 2.0;
    assert Total(ts[..2][..1], "O") == 0.0;
    assert Total(ts[..2], "O") == 0.0;
  }

  lemma RepeatedSymbolsMergeTokens()
    ensures Merge(IronIronOxygen) == [ParsedElement("Fe", 2.0), ParsedElement("O", 1.0)]
  {
    IronIronOxygenSymbols();
    IronIronOxygenTotals();
  }

  /** Repeated symbols merge into one entry, at the first one's place, with the summed count. */
  lemma RepeatedSymbolsMerge()
    ensures FormulaOf("FeFeO").elements == [ParsedElement("Fe", 2.0), ParsedElement("O", 1.0)]
  {
    Text.TrimKeeps("FeFeO");
    RepeatedSymbolsTokens("FeFeO");
    RepeatedSymbolsMergeTokens();
    FormulaFromTokens("FeFeO", IronIronOxygen);
  }

  /** A single digit not followed by another digit or a point is a count of that digit. */
  lemma OneDigitCount(s: string)
    requires |s| >= 1 && Text.IsDigit(s[0])
    requires |s| == 1 || (!Text.IsDigit(s[1]) && s[1] != '.')
    ensures CountLength(s) == 1 && CountAfter(s) == Text.DigitValue(s[0]) as real
  {
    assert Text.RunLength(s, Text.IsDigit) == 1;
    assert s[..1] == [s[0]];
    assert Text.DigitsValue([s[0]]) == Text.DigitValue(s[0]) by {
      assert [s[0]][..0] == [];
    }
  }

  lemma OxygenThreeTokens(s: string)
    requires |s| == 2 && s[0] == 'O' && s[1] == '3'
    ensures Tokens(s) == [ParsedElement("O", 3.0)]
  {
    OxygenIsElement();
    OneLetterAhead(s, "O");
    OneDigitCount(s[1..]);
    OneToken(s, "O", 3.0);
  }

  lemma CountsFollowSymbolsTokens(s: string)
    requires |s| == 5 && s[0] == 'F' && s[1] == 'e' && s[2] == '2' && s[3] == 'O' && s[4] == '3'
    ensures Tokens(s) == [ParsedElement("Fe", 2.0), ParsedElement("O", 3.0)]
  {
    IronIsElement();
    TwoLetterAhead(s, "Fe");
    TokensAtSymbol(s);
    var after := s[2..];
    assert after[0] == '2' && after[1] == 'O';
    OneDigitCount(after);
    OxygenThreeTokens(after[1..]);
  }

  /** The literal after a symbol is its count. */
  lemma CountsFollowSymbols()
    ensures FormulaOf("Fe2O3").elements == [ParsedElement("Fe", 2.0), ParsedElement("O", 3.0)]
  {
    Text.TrimKeeps("Fe2O3");
    CountsFollowSymbolsTokens("Fe2O3");
    MergeTwoDistinct(ParsedElement("Fe", 2.0), ParsedElement("O", 3.0));
    FormulaFromTokens("Fe2O3", [ParsedElement("Fe", 2.0), ParsedElement("O", 3.0)]);
  }

  /** A two-letter symbol of the table at the start of `s` is its first token. */
  lemma TwoLetterStep(s: string)
    requires |s| >= 2 && s[..2] in TwoLetterElements
    ensures Tokens(s) == [ParsedElement(s[..2], CountAfter(s[2..]))] + Tokens(s[2..][CountLength(s[2..])..])
  {
    TwoLetterElement(s[..2]);
    TokensAtSymbol(s);
  }

  /** Failing every two-letter symbol, a single letter of the table is a symbol of length one. */
  lemma OneLetterSymbol(s: string)
    requires |s| >= 1 && (|s| >= 2 ==> s[..2] !in TwoLetterElements)
    requires Text.IsUpper(s[0]) && IsElement([s[0]])
    ensures SymbolLength(s) == 1
  {
    if |s| >= 2 {
      TwoLetterElement(s[..2]);
    }
  }

  /** Failing every two-letter symbol, a single letter of the table is the first token. */
  lemma OneLetterStep(s: string)
    requires |s| >= 1 && (|s| >= 2 ==> s[..2] !in TwoLetterElements)
    requires Text.IsUpper(s[0]) && IsElement([s[0]])
    ensures Tokens(s) == [ParsedElement([s[0]], CountAfter(s[1..]))] + Tokens(s[1..][CountLength(s[1..])..])
  {
    OneLetterSymbol(s);
    Seqs.TakeOne(s);
    TokensAtSymbol(s);
  }

  /** Failing every two-letter symbol and the single letters, no symbol starts `s`. */
  lemma NoSymbol(s: string)
    requires |s| >= 1 && (|s| >= 2 ==> s[..2] !in TwoLetterElements)
    requires !(Text.IsUpper(s[0]) && IsElement([s[0]]))
    ensures SymbolLength(s) == 0
  {
    if |s| >= 2 {
      TwoLetterElement(s[..2]);
    }
  }

  /** A character that starts no symbol is dropped. */
  lemma SkipStep(s: string)
    requires |s| >= 1 && (|s| >= 2 ==> s[..2] !in TwoLetterElements)
    requires !(Text.IsUpper(s[0]) && IsElement([s[0]]))
    ensures Tokens(s) == Tokens(s[1..])
  {
    NoSymbol(s);
  }

  /**
   * The inner loop of `parseFormula`: the first symbol of `symbols` (which
   * `parseFormula` passes as TwoLetterElements) that `s` starts with. All of
   * them have two letters, so it is the one equal to the first two characters
   * when that pair is in the list.
   */
  method MatchTwoLetter(s: string, symbols: seq<string>) returns (r: Option<string>)
    requires forall j :: 0 <= j < |symbols| ==> |symbols[j]| == 2
    ensures r.Some? ==> |s| >= 2 && r.value == s[..2] && r.value in symbols
    ensures r.None? ==> |s| < 2 || s[..2] !in symbols
  {
    var i := 0;
    while i < |symbols|
      invariant 0 <= i <= |symbols|
      invariant |s| >= 2 ==> s[..2] !in symbols[..i]
    {
      var el := symbols[i];
      if Text.StartsWith(s, el) {
        return Some(el);
      }
      Seqs.TakeSnoc(symbols, i);
      i := i + 1;
    }
    Seqs.TakeAll(symbols);
    return None;
  }

  /**
   * One pass of the outer loop of `parseFormula`: a two-letter symbol, else a
   * single upper-case letter of the table, with the count after it; a
   * character that starts no symbol is skipped. It returns the token it read,
   * if any, and the text left to scan.
   */
  method ScanSymbol(remaining: string) returns (token: Option<ParsedElement>, rest: string)
    requires |remaining| > 0
    ensures |rest| < |remaining|
    ensures token.Some? ==> Tokens(remaining) == [token.value] + Tokens(rest)
    ensures token.None? ==> Tokens(remaining) == Tokens(rest)
  {
    TwoLetterLengths();
    var two := MatchTwoLetter(remaining, TwoLetterElements);
    if two.Some? {
      var el := two.value;
      var afterElement := remaining[|el|..];
      var skip := CountLength(afterElement);
      var count := if skip > 0 then CountValue(afterElement) else 1.0;
      TwoLetterStep(remaining);
      token, rest := Some(ParsedElement(el, count)), afterElement[skip..];
    } else {
      var firstChar := remaining[0];
      if Text.IsUpper(firstChar) && IsElement([firstChar]) {
        var afterElement := remaining[1..];
        var skip := CountLength(afterElement);
        var count := if skip > 0 then CountValue(afterElement) else 1.0;
        OneLetterStep(remaining);
        token, rest := Some(ParsedElement([firstChar], count)), afterElement[skip..];
      } else {
        SkipStep(remaining);
        token, rest := None, remaining[1..];
      }
    }
  }

  /** The outer loop of `parseFormula`, reading tokens until no text is left. */
  method ScanElements(s: string) returns (elements: seq<ParsedElement>)
    ensures elements == Tokens(s)
  {
    elements := [];
    var remaining := s;
    while |remaining| > 0
      invariant elements + Tokens(remaining) == Tokens(s)
      decreases |remaining|
    {
      ghost var done := elements;
      var token, rest := ScanSymbol(remaining);
      if token.Some? {
        elements := elements + [token.value];
        Seqs.AppendAssoc(done, [token.value], Tokens(rest));
      }
      remaining := rest;
    }
  }

  /**
   * The second loop of `parseFormula`: counts are added up in a record keyed
   * by symbol, whose entries come back in insertion order (the order of
   * `Object.entries` for keys that are not array indices).
   */
  method MergeElements(elements: seq<ParsedElement>) returns (r: seq<ParsedElement>)
    ensures r == Merge(elements)
  {
    var merged: map<string, real> := map[];
    var keys: seq<string> := [];
    var k := 0;
    while k < |elements|
      invariant 0 <= k <= |elements|
      invariant MergedSoFar(elements[..k], keys, merged)
    {
      var el := elements[k];
      MergeStep(elements[..k], el, keys, merged);
      merged := merged[el.symbol := (if el.symbol in merged then merged[el.symbol] else 0.0) + el.count];
      if el.symbol !in keys {
        keys := keys + [el.symbol];
      }
      Seqs.TakeSnoc(elements, k);
      k := k + 1;
    }
    assert elements[..k] == elements;
    MergedAll(elements, keys, merged);
    r := seq(|keys|, i requires 0 <= i < |keys| => ParsedElement(keys[i], merged[keys[i]]));
  }

  /**
   * The state of `parseFormula`'s merge loop after the tokens `ts`: the keys in
   * first-seen order, and each key's summed count.
   */
  ghost predicate MergedSoFar(ts: seq<ParsedElement>, keys: seq<string>, merged: map<string, real>) {
    && keys == Seqs.Dedup(Symbols(ts))
    && (forall x :: x in merged <==> x in keys)
    && (forall x :: x in merged ==> merged[x] == Total(ts, x))
  }

  /** One token added to the merge state. */
  lemma MergeStep(ts: seq<ParsedElement>, el: ParsedElement, keys: seq<string>, merged: map<string, real>)
    requires MergedSoFar(ts, keys, merged)
    ensures MergedSoFar(ts + [el], if el.symbol in keys then keys else keys + [el.symbol],
      merged[el.symbol := (if el.symbol in merged then merged[el.symbol] else 0.0) + el.count])
  {
    MergeStepKeys(ts, el, keys);
    MergeStepMembers(el, keys, merged);
    MergeStepCounts(ts, el, merged);
  }

  /** The first-seen keys after one more token. */
  lemma MergeStepKeys(ts: seq<ParsedElement>, el: ParsedElement, keys: seq<string>)
    requires keys == Seqs.Dedup(Symbols(ts))
    ensures (if el.symbol in keys then keys else keys + [el.symbol]) == Seqs.Dedup(Symbols(ts + [el]))
  {
    SymbolsSnoc(ts, el);
    Seqs.DedupSnoc(Symbols(ts), el.symbol);
    Seqs.DedupMembers(Symbols(ts));
  }

  /** The map and the key list gain the same symbol. */
  lemma MergeStepMembers(el: ParsedElement, keys: seq<string>, merged: map<string, real>)
    requires forall x :: x in merged <==> x in keys
    ensures var m := merged[el.symbol := (if el.symbol in merged then merged[el.symbol] else 0.0) + el.count];
      forall x :: x in m <==> x in (if el.symbol in keys then keys else keys + [el.symbol])
  {
  }

  /** The summed counts after one more token. */
  lemma MergeStepCounts(ts: seq<ParsedElement>, el: ParsedElement, merged: map<string, real>)
    requires forall x :: x in merged <==> x in Symbols(ts)
    requires forall x :: x in merged ==> merged[x] == Total(ts, x)
    ensures var m := merged[el.symbol := (if el.symbol in merged then merged[el.symbol] else 0.0) + el.count];
      forall x :: x in m ==> m[x] == Total(ts + [el], x)
  {
    if el.symbol !in merged {
      forall j | 0 <= j < |ts|
        ensures ts[j].symbol != el.symbol
      {
        assert Symbols(ts)[j] == ts[j].symbol;
      }
      TotalAbsent(ts, el.symbol);
    }
    var m := merged[el.symbol := (if el.symbol in merged then merged[el.symbol] else 0.0) + el.count];
    forall x | x in m
      ensures m[x] == Total(ts + [el], x)
    {
      TotalSnoc(ts, el, x);
    }
  }

  /** The final merge state read out in key order is Merge. */
  lemma MergedAll(ts: seq<ParsedElement>, keys: seq<string>, merged: map<string, real>)
    requires MergedSoFar(ts, keys, merged)
    ensures |Merge(ts)| == |keys|
    ensures forall i :: 0 <= i < |keys| ==> keys[i] in merged && Merge(ts)[i] == ParsedElement(keys[i], merged[keys[i]])
  {
  }

  /** `parseFormula`: the trimmed formula scanned, then merged. */
  method ParseFormula(formula: string) returns (r: ParsedFormula)
    ensures r == FormulaOf(formula)
  {
    var elements := ScanElements(Text.Trim(formula));
    var mergedElements := MergeElements(elements);
    r := ParsedFormula(formula, mergedElements, Symbols(mergedElements));
  }

  // ---------------------------------------------------------------------------
  // Target material

  /** The verbs of the first pattern, `(?:synthesize|합성|make|create|만들|prepare)`. */
  const VerbKeywords: seq<string> := ["synthesize", "합성", "make", "create", "만들", "prepare"]

  /** The nouns of the second pattern, `(?:synthesis|합성|alloy|합금|compound|화합물)`. */
  const NounKeywords: seq<string> := ["synthesis", "합성", "alloy", "합금", "compound", "화합물"]

  /** Length of the first of `keywords` found at index `i` of `s`, letter case ignored. */
  function KeywordAt(s: string, i: nat, keywords: seq<string>): (r: Option<nat>)
    ensures r.Some? ==> i + r.value <= |s|
  {
    if keywords == [] then None
    else if Text.OccursAtIgnoringCase(s, keywords[0], i) then Some(|keywords[0]|)
    else KeywordAt(s, i, keywords[1..])
  }

  /**
   * `/(?:synthesize|...)\s+([A-Z][a-zA-Z0-9]+)/i` at index `i`. The verbs start
   * with different characters, so at most one can match here; `\s+` must eat
   * every space because a letter has to follow; and nothing follows the
   * greedy name, so no part gives back.
   */
  function VerbMatchAt(s: string, i: nat): Option<string>
    requires i <= |s|
  {
    match KeywordAt(s, i, VerbKeywords)
    case None => None
    case Some(len) => NameAfterVerb(s, i + len)
  }

  /** `\s+([A-Z][a-zA-Z0-9]+)` at index `j`, right after a verb. */
  function NameAfterVerb(s: string, j: nat): Option<string>
    requires j <= |s|
  {
    var gap := Text.RunLength(s[j..], Text.IsSpace);
    var p := j + gap;
    if gap == 0 || p >= |s| || !Text.IsLetter(s[p]) then None
    else
      var rest := Text.RunLength(s[p + 1..], Text.IsAlnum);
      if rest == 0 then None else Some(s[p..p + 1 + rest])
  }

  /** The name after a verb is a piece of the message. */
  lemma NameAfterVerbOccurs(s: string, j: nat) returns (a: nat)
    requires j <= |s| && NameAfterVerb(s, j).Some?
    ensures Text.OccursAt(s, NameAfterVerb(s, j).value, a)
  {
    a := j + Text.RunLength(s[j..], Text.IsSpace);
  }

  /** A noun of the second pattern follows index `e`, after optional spaces. */
  predicate NounAfter(s: string, e: nat)
    requires e <= |s|
  {
    KeywordAt(s, e + Text.RunLength(s[e..], Text.IsSpace), NounKeywords).Some?
  }

  /** The largest end `e` in `i + 2 .. last` for the name of the second pattern starting at `i`. */
  function NounEnd(s: string, i: nat, last: nat): (r: Option<nat>)
    requires last <= |s|
    ensures r.Some? ==> i + 2 <= r.value <= last
    decreases last
  {
    if last < i + 2 then None
    else if NounAfter(s, last) then Some(last)
    else NounEnd(s, i, last - 1)
  }

  /**
   * `/([A-Z][a-zA-Z0-9]+)\s*(?:synthesis|...)/i` at index `i`. The greedy name
   * gives back one character at a time, so the capture ends at the largest
   * index followed by optional spaces and a noun; no noun starts with a space,
   * so `\s*` always eats every space.
   */
  function NounMatchAt(s: string, i: nat): Option<string>
    requires i <= |s|
  {
    if i == |s| || !Text.IsLetter(s[i]) then None
    else
      match NounEnd(s, i, i + 1 + Text.RunLength(s[i + 1..], Text.IsAlnum))
      case None => None
      case Some(e) => Some(s[i..e])
  }

  /**
   * The words `[A-Z][a-z]?(?:\d*[A-Z][a-z]?)+\d*` denotes: an upper-case
   * letter first, letters and digits only, every lower-case letter right after
   * an upper-case one, and at least two upper-case letters.
   */
  predicate FormulaShape(w: string) {
    && |w| >= 1
    && Text.IsUpper(w[0])
    && (forall k :: 0 <= k < |w| ==> Text.IsAlnum(w[k]))
    && (forall k :: 1 <= k < |w| && Text.IsLower(w[k]) ==> Text.IsUpper(w[k - 1]))
    && (exists k :: 1 <= k < |w| && Text.IsUpper(w[k]))
  }

  /**
   * `/\b(...)\b/` at index `i`: both `\b` and the pattern's letters and digits
   * force the capture to be the whole word (run of `\w`) starting at `i`, so
   * it matches iff a word starts at `i` and has FormulaShape.
   */
  function FormulaWordAt(s: string, i: nat): Option<string>
    requires i <= |s|
  {
    if i < |s| && (i == 0 || !Text.IsWordChar(s[i - 1])) then
      var w := s[i..i + Text.RunLength(s[i..], Text.IsWordChar)];
      if FormulaShape(w) then Some(w) else None
    else None
  }

  datatype TargetPattern = VerbBeforeName | NameBeforeNoun | FormulaWord

  /** The patterns of `extractTargetMaterial`, in the order they are tried. */
  const TargetPatterns: seq<TargetPattern> := [VerbBeforeName, NameBeforeNoun, FormulaWord]

  function MatchAt(p: TargetPattern, s: string, i: nat): Option<string>
    requires i <= |s|
  {
    match p
    case VerbBeforeName => VerbMatchAt(s, i)
    case NameBeforeNoun => NounMatchAt(s, i)
    case FormulaWord => FormulaWordAt(s, i)
  }

  /** `s.match(p)[1]`: the capture at the leftmost index from `i` on where `p` matches. */
  function FirstMatch(p: TargetPattern, s: string, i: nat): Option<string>
    requires i <= |s|
    decreases |s| - i
  {
    match MatchAt(p, s, i)
    case Some(m) => Some(m)
    case None => if i == |s| then None else FirstMatch(p, s, i + 1)
  }

  /** A capture at one index is a piece of the message, at index `a`. */
  lemma MatchAtOccurs(p: TargetPattern, s: string, i: nat) returns (a: nat)
    requires i <= |s| && MatchAt(p, s, i).Some?
    ensures Text.OccursAt(s, MatchAt(p, s, i).value, a)
  {
    match p
    case VerbBeforeName =>
      assert VerbMatchAt(s, i).Some?;
      a := NameAfterVerbOccurs(s, i + KeywordAt(s, i, VerbKeywords).value);
    case NameBeforeNoun =>
      NounMatchOccurs(s, i);
      a := i;
    case FormulaWord =>
      FormulaWordOccurs(s, i);
      a := i;
  }

  lemma NounMatchOccurs(s: string, i: nat)
    requires i <= |s| && NounMatchAt(s, i).Some?
    ensures Text.OccursAt(s, NounMatchAt(s, i).value, i)
  {
  }

  lemma FormulaWordOccurs(s: string, i: nat)
    requires i <= |s| && FormulaWordAt(s, i).Some?
    ensures Text.OccursAt(s, FormulaWordAt(s, i).value, i)
  {
  }

  /** Every capture is a piece of the message. */
  lemma {:induction false} FirstMatchInMessage(p: TargetPattern, s: string, i: nat)
    requires i <= |s|
    requires FirstMatch(p, s, i).Some?
    ensures Text.Contains(s, FirstMatch(p, s, i).value)
    decreases |s| - i
  {
    if MatchAt(p, s, i).Some? {
      var a := MatchAtOccurs(p, s, i);
      Text.ContainsAt(s, MatchAt(p, s, i).value, a);
    } else {
      FirstMatchInMessage(p, s, i + 1);
    }
  }

  /** What `extractTargetMaterial` returns, trying `patterns` in order. */
  function TargetFrom(message: string, patterns: seq<TargetPattern>): Option<string> {
    if patterns == [] then None
    else
      var m := FirstMatch(patterns[0], message, 0);
      if m.Some? && |FormulaOf(m.value).uniqueElements| > 0 then m else TargetFrom(message, patterns[1..])
  }

  /** A target found by any list of patterns parses to at least one element. */
  lemma {:induction false} TargetFromParses(message: string, patterns: seq<TargetPattern>)
    requires TargetFrom(message, patterns).Some?
    ensures |FormulaOf(TargetFrom(message, patterns).value).uniqueElements| > 0
  {
    var m := FirstMatch(patterns[0], message, 0);
    if !(m.Some? && |FormulaOf(m.value).uniqueElements| > 0) {
      TargetFromParses(message, patterns[1..]);
    }
  }

  /**
   * `extractTargetMaterial`: the first pattern whose first capture parses to
   * at least one element wins; only that first capture of each pattern is
   * looked at.
   */
  method ExtractTargetMaterial(message: string) returns (r: Option<string>)
    ensures r == TargetFrom(message, TargetPatterns)
    ensures r.Some? ==> |FormulaOf(r.value).uniqueElements| > 0 && Text.Contains(message, r.value)
    ensures r.None? <==> forall k :: 0 <= k < |TargetPatterns| ==>
      FirstMatch(TargetPatterns[k], message, 0).None?
      || |FormulaOf(FirstMatch(TargetPatterns[k], message, 0).value).uniqueElements| == 0
  {
    var k := 0;
    while k < |TargetPatterns|
      invariant 0 <= k <= |TargetPatterns|
      invariant TargetFrom(message, TargetPatterns) == TargetFrom(message, TargetPatterns[k..])
      invariant forall j :: 0 <= j < k ==>
        FirstMatch(TargetPatterns[j], message, 0).None?
        || |FormulaOf(FirstMatch(TargetPatterns[j], message, 0).value).uniqueElements| == 0
    {
      var m := FirstMatch(TargetPatterns[k], message, 0);
      if m.Some? && |m.value| > 0 {
        var parsed := ParseFormula(m.value);
        if |parsed.uniqueElements| > 0 {
          FirstMatchInMessage(TargetPatterns[k], message, 0);
          return m;
        }
      }
      assert TargetPatterns[k..][1..] == TargetPatterns[k + 1..];
      k := k + 1;
    }
    return None;
  }

  lemma MakeIsAVerb()
    ensures KeywordAt("make LiCoO2", 0, VerbKeywords) == Some(4)
  {
    var s := "make LiCoO2";
    assert !Text.OccursAtIgnoringCase(s, "synthesize", 0) by {
      assert Text.Lower(s[0..10])[0] == 'm';
    }
    assert !Text.OccursAtIgnoringCase(s, "합성", 0) by {
      assert Text.Lower(s[0..2])[0] == 'm';
    }
    assert s[0..4] == "make";
    assert Text.OccursAtIgnoringCase(s, "make", 0);
    assert VerbKeywords[1..][1..][0] == "make";
  }

  /** One space, then a letter and letters or digits to the end: the name is all of it. */
  lemma NameAfterOneSpace(s: string, j: nat)
    requires j + 2 < |s| && Text.IsSpace(s[j]) && Text.IsLetter(s[j + 1]) && !Text.IsSpace(s[j + 1])
    requires forall k :: j + 2 <= k < |s| ==> Text.IsAlnum(s[k])
    ensures NameAfterVerb(s, j) == Some(s[j + 1..])
  {
    var t := s[j..];
    assert t[0] == s[j] && t[1] == s[j + 1];
    assert Text.RunLength(t, Text.IsSpace) == 1;
    var u := s[j + 2..];
    assert forall k :: 0 <= k < |u| ==> Text.IsAlnum(u[k]) by {
      forall k | 0 <= k < |u|
        ensures Text.IsAlnum(u[k])
      {
        assert u[k] == s[j + 2 + k];
      }
    }
    assert Text.RunLength(u, Text.IsAlnum) == |u|;
    assert j + 1 + 1 + |u| == |s| && s[j + 1..|s|] == s[j + 1..];
  }

  lemma VerbCapturesName()
    ensures FirstMatch(VerbBeforeName, "make LiCoO2", 0) == Some("LiCoO2")
  {
    var s := "make LiCoO2";
    MakeIsAVerb();
    assert s[4] == ' ' && s[5] == 'L';
    NameAfterOneSpace(s, 4);
    assert s[5..] == "LiCoO2";
  }

  /** A formula that starts with lithium and has no surrounding space yields an element. */
  lemma LithiumFirstParses(formula: string)
    requires |formula| >= 2 && formula[..2] == "Li" && !Text.IsSpace(formula[|formula| - 1])
    ensures |FormulaOf(formula).uniqueElements| > 0
  {
    Text.TrimKeeps(formula);
    LithiumIsElement();
    assert SymbolLength(formula) == 2;
    StartsWithSymbolParses(formula);
  }

  lemma LithiumCobaltOxideParses()
    ensures |FormulaOf("LiCoO2").uniqueElements| > 0
  {
    assert "LiCoO2"[..2] == "Li";
    LithiumFirstParses("LiCoO2");
  }

  /** A verb in front of a name picks the name. */
  lemma VerbPicksName()
    ensures TargetFrom("make LiCoO2", TargetPatterns) == Some("LiCoO2")
  {
    VerbCapturesName();
    LithiumCobaltOxideParses();
  }

  // ---------------------------------------------------------------------------
  // Synthesis method

  /** Each method's keywords, in the order `detectSynthesisMethod` checks them. */
  const MethodKeywords: seq<(string, seq<string>)> := [
    ("solid-state", ["solid state", "solid-state", "고상", "고상합성", "calcin", "sinter"]),
    ("sol-gel", ["sol-gel", "sol gel", "솔겔", "솔-겔", "citrate", "pechini"]),
    ("hydrothermal", ["hydrothermal", "수열", "autoclave", "solvothermal"]),
    ("solution", ["solution", "용액", "wet", "precipitation", "침전", "reduction", "환원"])]

  /** The first method of `table` one of whose keywords occurs in `lower`. */
  function MethodFrom(lower: string, table: seq<(string, seq<string>)>): Option<string> {
    if table == [] then None
    else if Text.ContainsAny(lower, table[0].1) then Some(table[0].0)
    else MethodFrom(lower, table[1..])
  }

  /** What `detectSynthesisMethod` returns. */
  function MethodMentioned(message: string): Option<string> {
    MethodFrom(Text.Lower(message), MethodKeywords)
  }

  /** Letter case does not matter to `detectSynthesisMethod`. */
  lemma MethodMentionedIgnoresCase(message: string)
    ensures MethodMentioned(Text.Lower(message)) == MethodMentioned(message)
  {
    Text.LowerIdempotent(message);
  }

  /** MethodFrom is the first entry of the table that matches, and None iff none does. */
  lemma {:induction false} MethodFromFirst(lower: string, table: seq<(string, seq<string>)>)
    ensures MethodFrom(lower, table).None? <==> forall m :: 0 <= m < |table| ==> !Text.ContainsAny(lower, table[m].1)
    ensures MethodFrom(lower, table).Some? ==>
      exists m :: 0 <= m < |table| && MethodFrom(lower, table).value == table[m].0
        && Text.ContainsAny(lower, table[m].1)
        && (forall j :: 0 <= j < m ==> !Text.ContainsAny(lower, table[j].1))
  {
    if table != [] && !Text.ContainsAny(lower, table[0].1) {
      MethodFromFirst(lower, table[1..]);
      if MethodFrom(lower, table).Some? {
        var m :| 0 <= m < |table[1..]|
          && MethodFrom(lower, table[1..]).value == table[1..][m].0
          && Text.ContainsAny(lower, table[1..][m].1)
          && forall j :: 0 <= j < m ==> !Text.ContainsAny(lower, table[1..][j].1);
        assert forall j :: 0 <= j < m + 1 ==> !Text.ContainsAny(lower, table[j].1) by {
          forall j | 0 <= j < m + 1
            ensures !Text.ContainsAny(lower, table[j].1)
          {
            if j > 0 {
              assert table[j] == table[1..][j - 1];
            }
          }
        }
      } else {
        forall m | 0 <= m < |table|
          ensures !Text.ContainsAny(lower, table[m].1)
        {
          if m > 0 {
            assert table[m] == table[1..][m - 1];
          }
        }
      }
    }
  }

  /**
   * `detectSynthesisMethod`: the lower-cased message is searched for each
   * method's keywords in turn, and the first hit decides.
   */
  method DetectSynthesisMethod(message: string) returns (r: Option<string>)
    ensures r == MethodMentioned(message)
  {
    var lowerMessage := Text.Lower(message);
    var m := 0;
    while m < |MethodKeywords|
      invariant 0 <= m <= |MethodKeywords|
      invariant MethodMentioned(message) == MethodFrom(lowerMessage, MethodKeywords[m..])
    {
      var keywords := MethodKeywords[m].1;
      var k := 0;
      while k < |keywords|
        invariant 0 <= k <= |keywords|
        invariant forall j :: 0 <= j < k ==> !Text.Contains(lowerMessage, keywords[j])
      {
        if Text.Contains(lowerMessage, keywords[k]) {
          return Some(MethodKeywords[m].0);
        }
        k := k + 1;
      }
      assert MethodKeywords[m..][1..] == MethodKeywords[m + 1..];
      m := m + 1;
    }
    return None;
  }

  /**
   * The keywords are checked method by method, so a message naming both a
   * sintering step and sol-gel counts as solid-state.
   */
  lemma SolidStateCheckedFirst()
    ensures MethodFrom("sintered sol-gel", MethodKeywords) == Some("solid-state")
  {
    var lower := "sintered sol-gel";
    assert lower[0..6] == "sinter";
    Text.ContainsAt(lower, "sinter", 0);
    assert MethodKeywords[0].1[5] == "sinter";
    assert Text.ContainsAny(lower, MethodKeywords[0].1);
  }

  // ---------------------------------------------------------------------------
  // Material names

  /** The English names `generateMaterialName` knows; `None` for any other symbol. */
  function EnglishName(symbol: string): Option<string> {
    match symbol
    case "Li" => Some("lithium") case "Na" => Some("sodium") case "K" => Some("potassium")
    case "Co" => Some("cobalt") case "Ni" => Some("nickel") case "Fe" => Some("iron") case "Mn" => Some("manganese")
    case "Ti" => Some("titanium") case "V" => Some("vanadium") case "Cr" => Some("chromium")
    case "Cu" => Some("copper") case "Zn" => Some("zinc") case "Al" => Some("aluminum")
    case "O" => Some("oxide") case "S" => Some("sulfide") case "N" => Some("nitride")
    case "Ir" => Some("iridium") case "Ru" => Some("ruthenium") case "Pt" => Some("platinum") case "Pd" => Some("palladium")
    case "Au" => Some("gold") case "Ag" => Some("silver")
    case "Ba" => Some("barium") case "Sr" => Some("strontium") case "Ca" => Some("calcium")
    case "La" => Some("lanthanum") case "Ce" => Some("cerium") case "Y" => Some("yttrium")
    case _ => None
  }

  /** The word for one symbol: its English name, or the symbol lower-cased. */
  function NameWord(symbol: string): string {
    match EnglishName(symbol)
    case Some(w) => w
    case None => Text.Lower(symbol)
  }

  /** `generateMaterialName`: the words of the symbols joined by single spaces. */
  function GenerateMaterialName(elements: seq<string>): string {
    Text.Join(seq(|elements|, i requires 0 <= i < |elements| => NameWord(elements[i])), " ")
  }

  lemma NamesHaveNoSpaces(symbol: string)
    ensures EnglishName(symbol).Some? ==> ' ' !in EnglishName(symbol).value
  {
  }

  /** Splitting the name at spaces gives back one word per symbol, in order. */
  lemma MaterialNameWords(elements: seq<string>)
    requires |elements| >= 1
    requires forall i :: 0 <= i < |elements| ==> ' ' !in elements[i]
    ensures |Text.Split(GenerateMaterialName(elements), ' ')| == |elements|
    ensures forall i :: 0 <= i < |elements| ==> Text.Split(GenerateMaterialName(elements), ' ')[i] == NameWord(elements[i])
  {
    var words := seq(|elements|, i requires 0 <= i < |elements| => NameWord(elements[i]));
    forall k | 0 <= k < |words|
      ensures ' ' !in words[k]
    {
      NamesHaveNoSpaces(elements[k]);
      if EnglishName(elements[k]).None? {
        assert forall j :: 0 <= j < |elements[k]| ==> Text.Lower(elements[k])[j] == Text.LowerChar(elements[k][j]);
      }
    }
    Text.SplitJoin(words, ' ');
  }

  lemma NameOfTwo(a: string, b: string)
    ensures GenerateMaterialName([a, b]) == NameWord(a) + " " + NameWord(b)
  {
    var w := [NameWord(a), NameWord(b)];
    assert seq(2, i requires 0 <= i < 2 => NameWord([a, b][i])) == w;
    Text.JoinTwo(NameWord(a), NameWord(b), " ");
  }

  lemma NameOfThree(a: string, b: string, c: string)
    ensures GenerateMaterialName([a, b, c]) == NameWord(a) + " " + NameWord(b) + " " + NameWord(c)
  {
    var w := [NameWord(a), NameWord(b), NameWord(c)];
    assert seq(3, i requires 0 <= i < 3 => NameWord([a, b, c][i])) == w;
    Text.JoinThree(NameWord(a), NameWord(b), NameWord(c), " ");
  }

  /** Known symbols take their English word. */
  lemma KnownNames()
    ensures GenerateMaterialName(["Li", "Co", "O"]) == "lithium cobalt oxide"
  {
    NameOfThree("Li", "Co", "O");
    assert NameWord("Li") == "lithium" && NameWord("Co") == "cobalt" && NameWord("O") == "oxide";
  }

  /** A symbol without an English word is lower-cased. */
  lemma UnknownNames()
    ensures GenerateMaterialName(["Mo", "S"]) == "mo sulfide"
  {
    NameOfTwo("Mo", "S");
    assert EnglishName("Mo") == None && Text.Lower("Mo") == "mo";
    assert NameWord("S") == "sulfide";
  }
}
