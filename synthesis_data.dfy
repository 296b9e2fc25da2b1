/**
 * The literature recipe store of the MCP server: records of the text-mined
 * synthesis dataset and the searches over them. The dataset, which the server
 * loads from a JSON file, is a parameter of every search.
 */
module SynthesisData {
  import opened Wrappers
  import Text
  import Seqs

  /** `synthesis_type` of a record. */
  datatype RecipeType = SolidStateType | SolGelType

  function TypeName(t: RecipeType): string {
    match t
    case SolidStateType => "solid-state"
    case SolGelType => "sol-gel"
  }

  /** The `synthesisType` argument of a formula search: 'all' or one record type. */
  datatype TypeFilter = AllTypes | OnlyType(recipeType: RecipeType)

  datatype Precursor = Precursor(formula: string, name: string)

  /** A `SynthesisRecipe`; `null` temperatures, times and atmosphere are `None`. */
  datatype Recipe = Recipe(
    id: string,
    doi: string,
    targetFormula: string,
    targetName: string,
    precursors: seq<Precursor>,
    temperatureMin: Option<real>,
    temperatureMax: Option<real>,
    timeMin: Option<real>,
    timeMax: Option<real>,
    atmosphere: Option<string>,
    operations: seq<string>,
    synthesisType: RecipeType)

  /** `normalizeFormula`: whitespace removed, letters lower-cased. */
  function NormalizeFormula(formula: string): (r: string)
    ensures |r| <= |formula|
    ensures forall i :: 0 <= i < |r| ==> !Text.IsSpace(r[i]) && !Text.IsUpper(r[i])
  {
    Text.Lower(Text.RemoveSpaces(formula))
  }

  /** Normalising piece by piece: each whitespace character goes, each other character is lower-cased. */
  lemma NormalizeAppend(a: string, b: string)
    ensures NormalizeFormula(a + b) == NormalizeFormula(a) + NormalizeFormula(b)
  {
    Text.RemoveSpacesAppend(a, b);
    Text.LowerConcat(Text.RemoveSpaces(a), Text.RemoveSpaces(b));
  }

  lemma NormalizeChar(c: char)
    ensures NormalizeFormula([c]) == if Text.IsSpace(c) then [] else [Text.LowerChar(c)]
  {
    assert [c][1..] == [];
  }

  lemma NormalizeIdempotent(formula: string)
    ensures NormalizeFormula(NormalizeFormula(formula)) == NormalizeFormula(formula)
  {
    var r := NormalizeFormula(formula);
    Text.RemoveSpacesKeeps(r);
    assert Text.Lower(r) == r;
  }

  /** An empty or whitespace-only query normalises to the empty string. */
  lemma NormalizeBlank(formula: string)
    requires forall i :: 0 <= i < |formula| ==> Text.IsSpace(formula[i])
    ensures NormalizeFormula(formula) == ""
  {
    Text.RemoveSpacesBlank(formula);
  }

  /** The symmetric substring test of the searches: either string contains the other. */
  predicate Overlaps(a: string, b: string) {
    Text.Contains(a, b) || Text.Contains(b, a)
  }

  /** The empty query is contained in every string. */
  lemma OverlapsEmpty(a: string)
    ensures Overlaps(a, "")
  {
    Text.ContainsAt(a, "", 0);
  }

  predicate TypeMatches(r: Recipe, t: TypeFilter) {
    t.AllTypes? || r.synthesisType == t.recipeType
  }

  predicate FormulaMatches(r: Recipe, normalized: string, t: TypeFilter) {
    Overlaps(NormalizeFormula(r.targetFormula), normalized) && TypeMatches(r, t)
  }

  /** `searchByFormula`: the first `limit` records of the type whose normalised formula overlaps the query's. */
  function SearchByFormula(recipes: seq<Recipe>, formula: string, t: TypeFilter, limit: int): (r: seq<Recipe>)
    ensures Seqs.IsSubsequence(r, recipes)
    ensures limit >= 0 ==> |r| <= limit
    ensures forall i :: 0 <= i < |r| ==> FormulaMatches(r[i], NormalizeFormula(formula), t)
  {
    var q := NormalizeFormula(formula);
    Seqs.FirstMatching(recipes, x => FormulaMatches(x, q, t), limit)
  }

  /** With room for every record, exactly the matching records are returned. */
  lemma SearchByFormulaComplete(recipes: seq<Recipe>, formula: string, t: TypeFilter, limit: int)
    requires limit >= |recipes|
    ensures forall i :: 0 <= i < |recipes| ==>
      (recipes[i] in SearchByFormula(recipes, formula, t, limit) <==> FormulaMatches(recipes[i], NormalizeFormula(formula), t))
  {
    var q := NormalizeFormula(formula);
    Seqs.FirstMatchingAll(recipes, x => FormulaMatches(x, q, t), limit);
  }
  /**
   * `filter(...).slice(0, limit)`: the result is the front of the complete
   * result, `limit` long when there are that many matches, and a match is
   * left out only when `limit` matches come before it.
   */
  lemma SearchByFormulaFirstLimit(recipes: seq<Recipe>, formula: string, t: TypeFilter, limit: int)
    ensures var all := SearchByFormula(recipes, formula, t, |recipes|);
      limit >= 0 ==> SearchByFormula(recipes, formula, t, limit) == all[..if limit < |all| then limit else |all|]
    ensures forall i :: 0 <= i < |recipes| && FormulaMatches(recipes[i], NormalizeFormula(formula), t) && |SearchByFormula(recipes[..i], formula, t, limit)| < limit ==>
      recipes[i] in SearchByFormula(recipes, formula, t, limit)
  {
    var q := NormalizeFormula(formula);
    Seqs.FirstMatchingIsPrefix(recipes, x => FormulaMatches(x, q, t), limit);
    forall i | 0 <= i < |recipes| && FormulaMatches(recipes[i], NormalizeFormula(formula), t) && |SearchByFormula(recipes[..i], formula, t, limit)| < limit
      ensures recipes[i] in SearchByFormula(recipes, formula, t, limit)
    {
      Seqs.FirstMatchingEarly(recipes, x => FormulaMatches(x, q, t), limit, i);
    }
  }


  /** Records after the first `limit` matches are never looked at. */
  lemma SearchByFormulaFirst(recipes: seq<Recipe>, more: seq<Recipe>, formula: string, t: TypeFilter, limit: int)
    requires 0 <= limit <= |SearchByFormula(recipes, formula, t, |recipes|)|
    ensures SearchByFormula(recipes + more, formula, t, limit) == SearchByFormula(recipes, formula, t, limit)
  {
    var q := NormalizeFormula(formula);
    Seqs.FirstMatchingAll(recipes, x => FormulaMatches(x, q, t), |recipes|);
    Seqs.FirstMatchingPrefix(recipes, more, x => FormulaMatches(x, q, t), limit);
  }

  /** A blank query matches every record of the requested type. */
  lemma BlankQueryMatchesType(recipes: seq<Recipe>, formula: string, t: TypeFilter)
    requires forall i :: 0 <= i < |formula| ==> Text.IsSpace(formula[i])
    ensures forall i :: 0 <= i < |recipes| ==> (FormulaMatches(recipes[i], NormalizeFormula(formula), t) <==> TypeMatches(recipes[i], t))
  {
    NormalizeBlank(formula);
    forall i | 0 <= i < |recipes|
      ensures Overlaps(NormalizeFormula(recipes[i].targetFormula), "")
    {
      OverlapsEmpty(NormalizeFormula(recipes[i].targetFormula));
    }
  }

  /** `getRecipeCount`: the number of records of the dataset. */
  function GetRecipeCount(recipes: seq<Recipe>): nat {
    |recipes|
  }

  /**
   * A blank query over all types, with a limit of at least the dataset's
   * size, returns the whole dataset: GetRecipeCount records.
   */
  lemma BlankQueryReturnsAll(recipes: seq<Recipe>, formula: string, limit: int)
    requires forall i :: 0 <= i < |formula| ==> Text.IsSpace(formula[i])
    requires limit >= GetRecipeCount(recipes)
    ensures SearchByFormula(recipes, formula, AllTypes, limit) == recipes
    ensures |SearchByFormula(recipes, formula, AllTypes, limit)| == GetRecipeCount(recipes)
  {
    var q := NormalizeFormula(formula);
    BlankQueryMatchesType(recipes, formula, AllTypes);
    Seqs.FirstMatchingAll(recipes, x => FormulaMatches(x, q, AllTypes), limit);
    Seqs.FilterAll(recipes, x => FormulaMatches(x, q, AllTypes));
  }

  /** Some precursor of the record passes the symmetric test against the normalised query. */
  predicate PrecursorMatches(r: Recipe, normalized: string) {
    exists k :: 0 <= k < |r.precursors| && Overlaps(NormalizeFormula(r.precursors[k].formula), normalized)
  }

  /** `searchByPrecursor`: the first `limit` records with a matching precursor. */
  function SearchByPrecursor(recipes: seq<Recipe>, precursor: string, limit: int): (r: seq<Recipe>)
    ensures Seqs.IsSubsequence(r, recipes)
    ensures limit >= 0 ==> |r| <= limit
    ensures forall i :: 0 <= i < |r| ==> PrecursorMatches(r[i], NormalizeFormula(precursor))
  {
    var q := NormalizeFormula(precursor);
    Seqs.FirstMatching(recipes, x => PrecursorMatches(x, q), limit)
  }

  lemma SearchByPrecursorComplete(recipes: seq<Recipe>, precursor: string, limit: int)
    requires limit >= |recipes|
    ensures forall i :: 0 <= i < |recipes| ==>
      (recipes[i] in SearchByPrecursor(recipes, precursor, limit) <==> PrecursorMatches(recipes[i], NormalizeFormula(precursor)))
  {
    var q := NormalizeFormula(precursor);
    Seqs.FirstMatchingAll(recipes, x => PrecursorMatches(x, q), limit);
  }
  /**
   * `filter(...).slice(0, limit)`: the result is the front of the complete
   * result, `limit` long when there are that many matches, and a match is
   * left out only when `limit` matches come before it.
   */
  lemma SearchByPrecursorFirstLimit(recipes: seq<Recipe>, precursor: string, limit: int)
    ensures var all := SearchByPrecursor(recipes, precursor, |recipes|);
      limit >= 0 ==> SearchByPrecursor(recipes, precursor, limit) == all[..if limit < |all| then limit else |all|]
    ensures forall i :: 0 <= i < |recipes| && PrecursorMatches(recipes[i], NormalizeFormula(precursor)) && |SearchByPrecursor(recipes[..i], precursor, limit)| < limit ==>
      recipes[i] in SearchByPrecursor(recipes, precursor, limit)
  {
    var q := NormalizeFormula(precursor);
    Seqs.FirstMatchingIsPrefix(recipes, x => PrecursorMatches(x, q), limit);
    forall i | 0 <= i < |recipes| && PrecursorMatches(recipes[i], NormalizeFormula(precursor)) && |SearchByPrecursor(recipes[..i], precursor, limit)| < limit
      ensures recipes[i] in SearchByPrecursor(recipes, precursor, limit)
    {
      Seqs.FirstMatchingEarly(recipes, x => PrecursorMatches(x, q), limit, i);
    }
  }


  /** `x` lies in the record's temperature range, a missing minimum being 0 and a missing maximum unbounded. */
  predicate InTemperatureRange(r: Recipe, x: real) {
    r.temperatureMin.GetOr(0.0) <= x && (r.temperatureMax.None? || x <= r.temperatureMax.value)
  }

  /** The overlap test of `searchByTemperature` against `[minTemp, maxTemp]`. */
  predicate TemperatureOverlaps(r: Recipe, minTemp: real, maxTemp: real) {
    (r.temperatureMax.None? || r.temperatureMax.value >= minTemp) && r.temperatureMin.GetOr(0.0) <= maxTemp
  }

  /**
   * For a record whose range is not reversed and a query with `minTemp <=
   * maxTemp`, the test holds exactly when the two ranges share a temperature.
   */
  lemma TemperatureOverlapsIff(r: Recipe, minTemp: real, maxTemp: real)
    requires minTemp <= maxTemp
    requires r.temperatureMax.Some? ==> r.temperatureMin.GetOr(0.0) <= r.temperatureMax.value
    ensures TemperatureOverlaps(r, minTemp, maxTemp) <==> exists x :: InTemperatureRange(r, x) && minTemp <= x <= maxTemp
  {
    if TemperatureOverlaps(r, minTemp, maxTemp) {
      var lo := r.temperatureMin.GetOr(0.0);
      var x := if lo < minTemp then minTemp else lo;
      assert InTemperatureRange(r, x);
    }
  }

  lemma TemperatureExcluded(r: Recipe)
    requires r.temperatureMin == Some(700.0) && r.temperatureMax == Some(750.0)
    ensures !TemperatureOverlaps(r, 800.0, 1000.0)
  {
  }

  lemma TemperatureIncluded(r: Recipe)
    requires r.temperatureMin == Some(750.0) && r.temperatureMax == Some(850.0)
    ensures TemperatureOverlaps(r, 800.0, 1000.0)
  {
  }

  /** `containsElements`: every element is a substring of the formula, letter case ignored. */
  predicate ContainsElements(formula: string, elements: seq<string>) {
    forall k :: 0 <= k < |elements| ==> Text.Contains(Text.Upper(formula), Text.Upper(elements[k]))
  }

  /** The element test does not depend on the letter case of the formula. */
  lemma ContainsElementsIgnoresCase(formula: string, elements: seq<string>)
    ensures ContainsElements(Text.Lower(formula), elements) <==> ContainsElements(formula, elements)
  {
    assert Text.Upper(Text.Lower(formula)) == Text.Upper(formula);
  }

  /** An element written in the formula, in any letter case, passes the test. */
  lemma ContainsElementsAt(formula: string, element: string, i: nat)
    requires Text.OccursAt(Text.Upper(formula), Text.Upper(element), i)
    ensures ContainsElements(formula, [element])
  {
    Text.ContainsAt(Text.Upper(formula), Text.Upper(element), i);
  }

  /** The element filter is skipped when no elements are given. */
  predicate ElementsMatch(r: Recipe, elements: Option<seq<string>>) {
    elements.None? || ContainsElements(r.targetFormula, elements.value)
  }

  predicate TemperatureMatches(r: Recipe, minTemp: real, maxTemp: real, elements: Option<seq<string>>) {
    TemperatureOverlaps(r, minTemp, maxTemp) && ElementsMatch(r, elements)
  }

  /** `searchByTemperature`: the first `limit` records overlapping the range and holding the elements. */
  function SearchByTemperature(recipes: seq<Recipe>, minTemp: real, maxTemp: real, elements: Option<seq<string>>, limit: int): (r: seq<Recipe>)
    ensures Seqs.IsSubsequence(r, recipes)
    ensures limit >= 0 ==> |r| <= limit
    ensures forall i :: 0 <= i < |r| ==> TemperatureMatches(r[i], minTemp, maxTemp, elements)
  {
    Seqs.FirstMatching(recipes, x => TemperatureMatches(x, minTemp, maxTemp, elements), limit)
  }

  lemma SearchByTemperatureComplete(recipes: seq<Recipe>, minTemp: real, maxTemp: real, elements: Option<seq<string>>, limit: int)
    requires limit >= |recipes|
    ensures forall i :: 0 <= i < |recipes| ==>
      (recipes[i] in SearchByTemperature(recipes, minTemp, maxTemp, elements, limit) <==> TemperatureMatches(recipes[i], minTemp, maxTemp, elements))
  {
    Seqs.FirstMatchingAll(recipes, x => TemperatureMatches(x, minTemp, maxTemp, elements), limit);
  }
  /**
   * `filter(...).slice(0, limit)`: the result is the front of the complete
   * result, `limit` long when there are that many matches, and a match is
   * left out only when `limit` matches come before it.
   */
  lemma SearchByTemperatureFirstLimit(recipes: seq<Recipe>, minTemp: real, maxTemp: real, elements: Option<seq<string>>, limit: int)
    ensures var all := SearchByTemperature(recipes, minTemp, maxTemp, elements, |recipes|);
      limit >= 0 ==> SearchByTemperature(recipes, minTemp, maxTemp, elements, limit) == all[..if limit < |all| then limit else |all|]
    ensures forall i :: 0 <= i < |recipes| && TemperatureMatches(recipes[i], minTemp, maxTemp, elements) && |SearchByTemperature(recipes[..i], minTemp, maxTemp, elements, limit)| < limit ==>
      recipes[i] in SearchByTemperature(recipes, minTemp, maxTemp, elements, limit)
  {
    Seqs.FirstMatchingIsPrefix(recipes, x => TemperatureMatches(x, minTemp, maxTemp, elements), limit);
    forall i | 0 <= i < |recipes| && TemperatureMatches(recipes[i], minTemp, maxTemp, elements) && |SearchByTemperature(recipes[..i], minTemp, maxTemp, elements, limit)| < limit
      ensures recipes[i] in SearchByTemperature(recipes, minTemp, maxTemp, elements, limit)
    {
      Seqs.FirstMatchingEarly(recipes, x => TemperatureMatches(x, minTemp, maxTemp, elements), limit, i);
    }
  }


  function Types(recipes: seq<Recipe>): seq<RecipeType> {
    seq(|recipes|, i requires 0 <= i < |recipes| => recipes[i].synthesisType)
  }

  /** `getSynthesisTypes`: the record types, each once, in order of first occurrence. */
  function GetSynthesisTypes(recipes: seq<Recipe>): (r: seq<RecipeType>)
    ensures Seqs.NoDuplicates(r)
    ensures forall t :: t in r <==> exists i :: 0 <= i < |recipes| && recipes[i].synthesisType == t
  {
    var types := Types(recipes);
    Seqs.DedupMembers(types);
    forall t | t in types
      ensures exists i :: 0 <= i < |recipes| && recipes[i].synthesisType == t
    {
      var i :| 0 <= i < |types| && types[i] == t;
      assert recipes[i].synthesisType == t;
    }
    forall i | 0 <= i < |recipes|
      ensures recipes[i].synthesisType in types
    {
      assert types[i] == recipes[i].synthesisType;
    }
    Seqs.Dedup(types)
  }

  /** There are at most the two record types. */
  lemma AtMostTwoTypes(recipes: seq<Recipe>)
    ensures |GetSynthesisTypes(recipes)| <= 2
  {
    var r := GetSynthesisTypes(recipes);
    if |r| > 2 {
      ThreeTypesRepeat(r[0], r[1], r[2]);
      assert false;
    }
  }

  lemma ThreeTypesRepeat(a: RecipeType, b: RecipeType, c: RecipeType)
    ensures a == b || a == c || b == c
  {
  }
}
