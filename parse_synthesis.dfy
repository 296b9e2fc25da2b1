/**
 * The dataset builder of scripts/parse-synthesis.js: it turns the reactions of
 * the text-mined solid-state and sol-gel datasets into recipe records, keeps
 * the records that name a target, and emits a web copy of the first 5000
 * records together with its own search functions.
 *
 * Fields the JSON input may lack are given their fallback here: an absent
 * string is "", an absent list is [].
 */
module ParseSynthesis {
  import opened Wrappers
  import Text
  import Seqs
  import opened SynthesisData

  /** A `heating_temperature` or `heating_time` entry. */
  datatype Measurement = Measurement(minValue: Option<real>, maxValue: Option<real>, values: seq<real>)

  datatype Conditions = Conditions(
    heatingTemperature: seq<Measurement>,
    heatingTime: seq<Measurement>,
    heatingAtmosphere: seq<string>)

  datatype Operation = Operation(opType: string, conditions: Conditions)

  /** A target or precursor: `material_formula`, `material_string`, `material_name`. */
  datatype Material = Material(formula: string, text: string, name: string)

  datatype Reaction = Reaction(doi: string, target: Option<Material>, precursors: seq<Material>, operations: seq<Operation>)

  /** Which conditions a range is read from: heating temperatures or heating times. */
  datatype Quantity = Temperature | Time

  /** Which end of a range: the minimum or the maximum. */
  datatype Side = Low | High

  function Readings(c: Conditions, q: Quantity): seq<Measurement> {
    match q
    case Temperature => c.heatingTemperature
    case Time => c.heatingTime
  }

  /** What one measurement offers the running minimum or maximum: its own bound, then every listed value. */
  function MeasurementCandidates(m: Measurement, side: Side): seq<real> {
    var bound := match side case Low => m.minValue case High => m.maxValue;
    (if bound.Some? then [bound.value] else []) + m.values
  }

  function ListCandidates(ms: seq<Measurement>, side: Side): seq<real> {
    if ms == [] then [] else ListCandidates(ms[..|ms| - 1], side) + MeasurementCandidates(ms[|ms| - 1], side)
  }

  /** Every candidate value of the operations' measurements, in the order the extraction visits them. */
  function Candidates(operations: seq<Operation>, q: Quantity, side: Side): seq<real> {
    if operations == [] then []
    else Candidates(operations[..|operations| - 1], q, side) + ListCandidates(Readings(operations[|operations| - 1].conditions, q), side)
  }

  /** The running minimum after one more value: `if (min === null || v < min) min = v`. */
  function KeepLower(acc: Option<real>, v: real): Option<real> {
    if acc.None? || v < acc.value then Some(v) else acc
  }

  function KeepHigher(acc: Option<real>, v: real): Option<real> {
    if acc.None? || v > acc.value then Some(v) else acc
  }

  /** The running minimum over `s`, visiting its values in order. */
  function Least(s: seq<real>): Option<real> {
    if s == [] then None else KeepLower(Least(s[..|s| - 1]), s[|s| - 1])
  }

  function Greatest(s: seq<real>): Option<real> {
    if s == [] then None else KeepHigher(Greatest(s[..|s| - 1]), s[|s| - 1])
  }

  /** The running minimum is `None` for no values, else the least of them. */
  lemma {:induction false} LeastIsMinimum(s: seq<real>)
    ensures Least(s).None? <==> s == []
    ensures Least(s).Some? ==> Least(s).value in s && forall i :: 0 <= i < |s| ==> Least(s).value <= s[i]
  {
    if s != [] {
      var init := s[..|s| - 1];
      LeastIsMinimum(init);
      assert s == init + [s[|s| - 1]];
    }
  }

  lemma {:induction false} GreatestIsMaximum(s: seq<real>)
    ensures Greatest(s).None? <==> s == []
    ensures Greatest(s).Some? ==> Greatest(s).value in s && forall i :: 0 <= i < |s| ==> s[i] <= Greatest(s).value
  {
    if s != [] {
      var init := s[..|s| - 1];
      GreatestIsMaximum(init);
      assert s == init + [s[|s| - 1]];
    }
  }

  lemma LeastSnoc(s: seq<real>, v: real)
    ensures Least(s + [v]) == KeepLower(Least(s), v)
  {
    assert (s + [v])[..|s|] == s;
  }

  lemma GreatestSnoc(s: seq<real>, v: real)
    ensures Greatest(s + [v]) == KeepHigher(Greatest(s), v)
  {
    assert (s + [v])[..|s|] == s;
  }

  lemma ListCandidatesSnoc(ms: seq<Measurement>, j: nat, side: Side)
    requires j < |ms|
    ensures ListCandidates(ms[..j + 1], side) == ListCandidates(ms[..j], side) + MeasurementCandidates(ms[j], side)
  {
    assert ms[..j + 1][..j] == ms[..j];
  }

  lemma CandidatesSnoc(operations: seq<Operation>, i: nat, q: Quantity, side: Side)
    requires i < |operations|
    ensures Candidates(operations[..i + 1], q, side) == Candidates(operations[..i], q, side) + ListCandidates(Readings(operations[i].conditions, q), side)
  {
    assert operations[..i + 1][..i] == operations[..i];
  }

  /** One more listed value updates the running minimum and maximum by that value. */
  lemma AddValueStep(lows: seq<real>, highs: seq<real>, values: seq<real>, k: nat)
    requires k < |values|
    ensures Least(lows + values[..k + 1]) == KeepLower(Least(lows + values[..k]), values[k])
    ensures Greatest(highs + values[..k + 1]) == KeepHigher(Greatest(highs + values[..k]), values[k])
  {
    LeastSnoc(lows + values[..k], values[k]);
    GreatestSnoc(highs + values[..k], values[k]);
    assert lows + values[..k + 1] == (lows + values[..k]) + [values[k]];
    assert highs + values[..k + 1] == (highs + values[..k]) + [values[k]];
  }

  /**
   * The values loop of one measurement: the running minimum and maximum take
   * each listed value in turn.
   */
  method AddValues(values: seq<real>, lo0: Option<real>, hi0: Option<real>, ghost lows: seq<real>, ghost highs: seq<real>)
    returns (lo: Option<real>, hi: Option<real>)
    requires lo0 == Least(lows) && hi0 == Greatest(highs)
    ensures lo == Least(lows + values) && hi == Greatest(highs + values)
  {
    lo, hi := lo0, hi0;
    var k := 0;
    assert lows + values[..0] == lows && highs + values[..0] == highs;
    while k < |values|
      invariant 0 <= k <= |values|
      invariant lo == Least(lows + values[..k]) && hi == Greatest(highs + values[..k])
    {
      var v := values[k];
      AddValueStep(lows, highs, values, k);
      if lo.None? || v < lo.value {
        lo := Some(v);
      }
      if hi.None? || v > hi.value {
        hi := Some(v);
      }
      k := k + 1;
    }
    assert values[..k] == values;
  }

  /** One measurement: its own minimum and maximum, then its listed values. */
  method AddMeasurement(m: Measurement, lo0: Option<real>, hi0: Option<real>, ghost lows: seq<real>, ghost highs: seq<real>)
    returns (lo: Option<real>, hi: Option<real>)
    requires lo0 == Least(lows) && hi0 == Greatest(highs)
    ensures lo == Least(lows + MeasurementCandidates(m, Low)) && hi == Greatest(highs + MeasurementCandidates(m, High))
  {
    lo, hi := lo0, hi0;
    ghost var lows' := lows;
    ghost var highs' := highs;
    if m.minValue.Some? {
      if lo.None? || m.minValue.value < lo.value {
        lo := m.minValue;
      }
      LeastSnoc(lows, m.minValue.value);
      lows' := lows + [m.minValue.value];
    }
    if m.maxValue.Some? {
      if hi.None? || m.maxValue.value > hi.value {
        hi := m.maxValue;
      }
      GreatestSnoc(highs, m.maxValue.value);
      highs' := highs + [m.maxValue.value];
    }
    lo, hi := AddValues(m.values, lo, hi, lows', highs');
    ghost var lowBound: seq<real> := if m.minValue.Some? then [m.minValue.value] else [];
    ghost var highBound: seq<real> := if m.maxValue.Some? then [m.maxValue.value] else [];
    assert lows' == lows + lowBound && highs' == highs + highBound;
    assert MeasurementCandidates(m, Low) == lowBound + m.values;
    assert MeasurementCandidates(m, High) == highBound + m.values;
    Seqs.AppendAssoc(lows, lowBound, m.values);
    Seqs.AppendAssoc(highs, highBound, m.values);
  }

  /**
   * `extractTemperature` (for `Temperature`) and `extractTime` (for `Time`):
   * the running minimum over every non-null minimum and every listed value,
   * and the running maximum over every non-null maximum and every listed
   * value; `None` when there is none.
   */
  method ExtractRange(operations: seq<Operation>, q: Quantity) returns (lo: Option<real>, hi: Option<real>)
    ensures lo == Least(Candidates(operations, q, Low))
    ensures hi == Greatest(Candidates(operations, q, High))
  {
    lo, hi := None, None;
    var i := 0;
    while i < |operations|
      invariant 0 <= i <= |operations|
      invariant lo == Least(Candidates(operations[..i], q, Low))
      invariant hi == Greatest(Candidates(operations[..i], q, High))
    {
      var heating := Readings(operations[i].conditions, q);
      ghost var lows := Candidates(operations[..i], q, Low);
      ghost var highs := Candidates(operations[..i], q, High);
      var j := 0;
      assert lows + ListCandidates(heating[..0], Low) == lows;
      assert highs + ListCandidates(heating[..0], High) == highs;
      while j < |heating|
        invariant 0 <= j <= |heating|
        invariant lo == Least(lows + ListCandidates(heating[..j], Low))
        invariant hi == Greatest(highs + ListCandidates(heating[..j], High))
      {
        lo, hi := AddMeasurement(heating[j], lo, hi, lows + ListCandidates(heating[..j], Low), highs + ListCandidates(heating[..j], High));
        ListCandidatesSnoc(heating, j, Low);
        ListCandidatesSnoc(heating, j, High);
        Seqs.AppendAssoc(lows, ListCandidates(heating[..j], Low), MeasurementCandidates(heating[j], Low));
        Seqs.AppendAssoc(highs, ListCandidates(heating[..j], High), MeasurementCandidates(heating[j], High));
        j := j + 1;
      }
      assert heating[..j] == heating;
      CandidatesSnoc(operations, i, q, Low);
      CandidatesSnoc(operations, i, q, High);
      i := i + 1;
    }
    assert operations[..i] == operations;
  }

  /** Every candidate of one measurement is a candidate of the list holding it. */
  lemma {:induction false} InListCandidates(ms: seq<Measurement>, j: nat, side: Side, v: real)
    requires j < |ms| && v in MeasurementCandidates(ms[j], side)
    ensures v in ListCandidates(ms, side)
  {
    if j < |ms| - 1 {
      InListCandidates(ms[..|ms| - 1], j, side, v);
    }
  }

  lemma {:induction false} InCandidates(operations: seq<Operation>, i: nat, j: nat, q: Quantity, side: Side, v: real)
    requires i < |operations| && j < |Readings(operations[i].conditions, q)|
    requires v in MeasurementCandidates(Readings(operations[i].conditions, q)[j], side)
    ensures v in Candidates(operations, q, side)
  {
    if i < |operations| - 1 {
      InCandidates(operations[..|operations| - 1], i, j, q, side, v);
    } else {
      InListCandidates(Readings(operations[i].conditions, q), j, side, v);
    }
  }

  /** After extraction every listed value lies between the extracted minimum and maximum. */
  lemma ValuesWithinRange(operations: seq<Operation>, q: Quantity, i: nat, j: nat, k: nat)
    requires i < |operations| && j < |Readings(operations[i].conditions, q)|
    requires k < |Readings(operations[i].conditions, q)[j].values|
    ensures Least(Candidates(operations, q, Low)).Some? && Greatest(Candidates(operations, q, High)).Some?
    ensures var v := Readings(operations[i].conditions, q)[j].values[k];
      Least(Candidates(operations, q, Low)).value <= v <= Greatest(Candidates(operations, q, High)).value
  {
    var m := Readings(operations[i].conditions, q)[j];
    var v := m.values[k];
    assert v in MeasurementCandidates(m, Low) && v in MeasurementCandidates(m, High);
    InCandidates(operations, i, j, q, Low, v);
    InCandidates(operations, i, j, q, High, v);
    LeastIsMinimum(Candidates(operations, q, Low));
    GreatestIsMaximum(Candidates(operations, q, High));
  }

  /** Minimum and maximum come from different fields, so they can cross: a lone entry {min 900, max 800}. */
  lemma RangeMayBeReversed(operations: seq<Operation>, m: Measurement)
    requires m == Measurement(Some(900.0), Some(800.0), [])
    requires operations == [Operation("Heating", Conditions([m], [], []))]
    ensures Least(Candidates(operations, Temperature, Low)) == Some(900.0)
    ensures Greatest(Candidates(operations, Temperature, High)) == Some(800.0)
  {
    assert operations[..0] == [];
    assert [m][..0] == [];
    assert MeasurementCandidates(m, Low) == [900.0];
    assert MeasurementCandidates(m, High) == [800.0];
    assert ListCandidates([m], Low) == [900.0];
    assert ListCandidates([m], High) == [800.0];
    assert Candidates(operations, Temperature, Low) == [900.0];
    assert Candidates(operations, Temperature, High) == [800.0];
    assert [900.0][..0] == [] && [800.0][..0] == [];
  }

  /** The first atmosphere of the first operation, from index `i` on, whose atmosphere list is non-empty. */
  function AtmosphereFrom(operations: seq<Operation>, i: nat): (r: Option<string>)
    requires i <= |operations|
    ensures r.None? ==> forall k :: i <= k < |operations| ==> operations[k].conditions.heatingAtmosphere == []
    ensures r.Some? ==> exists k :: (i <= k < |operations| && operations[k].conditions.heatingAtmosphere != []
      && r.value == operations[k].conditions.heatingAtmosphere[0]
      && forall j :: i <= j < k ==> operations[j].conditions.heatingAtmosphere == [])
    decreases |operations| - i
  {
    if i == |operations| then None
    else if operations[i].conditions.heatingAtmosphere != [] then Some(operations[i].conditions.heatingAtmosphere[0])
    else AtmosphereFrom(operations, i + 1)
  }

  /** `extractAtmosphere`, returning at the first non-empty atmosphere list. */
  method ExtractAtmosphere(operations: seq<Operation>) returns (a: Option<string>)
    ensures a == AtmosphereFrom(operations, 0)
  {
    var i := 0;
    while i < |operations|
      invariant 0 <= i <= |operations|
      invariant AtmosphereFrom(operations, i) == AtmosphereFrom(operations, 0)
    {
      var atm := operations[i].conditions.heatingAtmosphere;
      if |atm| > 0 {
        return Some(atm[0]);
      }
      i := i + 1;
    }
    return None;
  }

  function TypeList(operations: seq<Operation>): seq<string> {
    seq(|operations|, i requires 0 <= i < |operations| => operations[i].opType)
  }

  predicate KeptType(t: string) {
    t != "" && t != "StartingSynthesis"
  }

  /** `extractOperationTypes`: the operation types in order, without empty ones and 'StartingSynthesis'. */
  function OperationTypes(operations: seq<Operation>): (r: seq<string>)
    ensures Seqs.IsSubsequence(r, TypeList(operations))
    ensures forall i :: 0 <= i < |r| ==> KeptType(r[i])
    ensures forall i :: 0 <= i < |operations| && KeptType(operations[i].opType) ==> operations[i].opType in r
  {
    var types := TypeList(operations);
    Seqs.FilterIsSubsequence(types, KeptType);
    assert forall i :: 0 <= i < |operations| ==> types[i] == operations[i].opType;
    Seqs.Filter(types, KeptType)
  }

  /** The types of two runs of operations are the types of each, one after the other. */
  lemma OperationTypesAppend(a: seq<Operation>, b: seq<Operation>)
    ensures OperationTypes(a + b) == OperationTypes(a) + OperationTypes(b)
  {
    assert TypeList(a + b) == TypeList(a) + TypeList(b);
    Seqs.FilterAppend(TypeList(a), TypeList(b), KeptType);
  }

  lemma OperationTypesOne(op: Operation)
    ensures OperationTypes([op]) == if KeptType(op.opType) then [op.opType] else []
  {
    assert TypeList([op]) == [op.opType];
    assert TypeList([op])[1..] == [];
  }

  /** `material_formula || material_string || ''`. */
  function MaterialFormula(m: Material): (r: string)
    ensures r == "" <==> m.formula == "" && m.text == ""
  {
    if m.formula != "" then m.formula else m.text
  }

  function TargetFormula(target: Option<Material>): string {
    match target
    case None => ""
    case Some(m) => MaterialFormula(m)
  }

  function TargetName(target: Option<Material>): string {
    match target
    case None => ""
    case Some(m) => m.name
  }

  function PrecursorOf(m: Material): Precursor {
    Precursor(MaterialFormula(m), m.name)
  }

  function PrecursorList(materials: seq<Material>): seq<Precursor> {
    seq(|materials|, i requires 0 <= i < |materials| => PrecursorOf(materials[i]))
  }

  predicate HasFormula(p: Precursor) {
    p.formula != ""
  }

  /** The precursors of a reaction, dropping those without a formula. */
  function Precursors(materials: seq<Material>): (r: seq<Precursor>)
    ensures forall k :: 0 <= k < |r| ==> r[k].formula != ""
    ensures forall k :: 0 <= k < |materials| && MaterialFormula(materials[k]) != "" ==> PrecursorOf(materials[k]) in r
    ensures Seqs.IsSubsequence(r, PrecursorList(materials))
  {
    var all := PrecursorList(materials);
    Seqs.FilterIsSubsequence(all, HasFormula);
    assert forall k :: 0 <= k < |materials| ==> all[k] == PrecursorOf(materials[k]);
    Seqs.Filter(all, HasFormula)
  }

  /** `synth-ss-<index + 1>` or `synth-sg-<index + 1>`. */
  function RecipeId(index: nat, t: RecipeType): string {
    "synth-" + (if t == SolidStateType then "ss" else "sg") + "-" + Text.NatText(index + 1)
  }

  /** The dataset letter sits at index 7 and the number starts at index 9. */
  lemma RecipeIdParts(index: nat, t: RecipeType)
    ensures |RecipeId(index, t)| > 9
    ensures RecipeId(index, t)[7] == (if t == SolidStateType then 's' else 'g')
    ensures RecipeId(index, t)[9..] == Text.NatText(index + 1)
  {
    var head := "synth-" + (if t == SolidStateType then "ss" else "sg") + "-";
    assert |head| == 9 && head[7] == (if t == SolidStateType then 's' else 'g');
    assert RecipeId(index, t) == head + Text.NatText(index + 1);
  }

  /** Different positions or datasets never share an id. */
  lemma RecipeIdInjective(i: nat, t: RecipeType, j: nat, u: RecipeType)
    requires RecipeId(i, t) == RecipeId(j, u)
    ensures i == j && t == u
  {
    RecipeIdParts(i, t);
    RecipeIdParts(j, u);
    var digits := Text.NatText(i + 1);
    assert digits == Text.NatText(j + 1);
    Text.NatTextRoundTrip(i + 1);
    Text.NatTextRoundTrip(j + 1);
    assert i + 1 == Text.DigitsValue(digits) == j + 1;
  }

  /** `parseReaction`. */
  function ParseReaction(reaction: Reaction, index: nat, t: RecipeType): (r: Recipe)
    ensures r.id == RecipeId(index, t) && r.synthesisType == t
    ensures r.targetFormula == "" <==> reaction.target.None? || (reaction.target.value.formula == "" && reaction.target.value.text == "")
    ensures forall k :: 0 <= k < |r.precursors| ==> r.precursors[k].formula != ""
  {
    var ops := reaction.operations;
    Recipe(
      RecipeId(index, t),
      reaction.doi,
      TargetFormula(reaction.target),
      TargetName(reaction.target),
      Precursors(reaction.precursors),
      Least(Candidates(ops, Temperature, Low)),
      Greatest(Candidates(ops, Temperature, High)),
      Least(Candidates(ops, Time, Low)),
      Greatest(Candidates(ops, Time, High)),
      AtmosphereFrom(ops, 0),
      OperationTypes(ops),
      t)
  }

  /** `reactions.map((r, i) => parseReaction(r, i, t))`. */
  function ParseAll(reactions: seq<Reaction>, t: RecipeType): (r: seq<Recipe>)
    ensures |r| == |reactions|
  {
    seq(|reactions|, i requires 0 <= i < |reactions| => ParseReaction(reactions[i], i, t))
  }

  predicate IsValid(r: Recipe) {
    r.targetFormula != ""
  }

  /** The valid recipes: the parsed solid-state records, then the sol-gel ones, keeping those that name a target. */
  function Dataset(solidState: seq<Reaction>, solGel: seq<Reaction>): (r: seq<Recipe>)
    ensures forall i :: 0 <= i < |r| ==> r[i].targetFormula != ""
    ensures Seqs.IsSubsequence(r, ParseAll(solidState, SolidStateType) + ParseAll(solGel, SolGelType))
  {
    var all := ParseAll(solidState, SolidStateType) + ParseAll(solGel, SolGelType);
    Seqs.FilterIsSubsequence(all, IsValid);
    Seqs.Filter(all, IsValid)
  }

  function RecordId(r: Recipe): string {
    r.id
  }

  lemma ParseAllId(reactions: seq<Reaction>, t: RecipeType, i: nat)
    requires i < |reactions|
    ensures ParseAll(reactions, t)[i].id == RecipeId(i, t)
  {
  }

  /**
   * Records numbered by position within their own dataset, one dataset after
   * the other, never share an id.
   */
  lemma PositionalIdsDistinct(a: seq<Recipe>, b: seq<Recipe>, i: nat, j: nat)
    requires forall k :: 0 <= k < |a| ==> a[k].id == RecipeId(k, SolidStateType)
    requires forall k :: 0 <= k < |b| ==> b[k].id == RecipeId(k, SolGelType)
    requires i < j < |a| + |b|
    ensures RecordId((a + b)[i]) != RecordId((a + b)[j])
  {
    var ti := if i < |a| then SolidStateType else SolGelType;
    var tj := if j < |a| then SolidStateType else SolGelType;
    var ii := if i < |a| then i else i - |a|;
    var jj := if j < |a| then j else j - |a|;
    assert RecordId((a + b)[i]) == RecipeId(ii, ti);
    assert RecordId((a + b)[j]) == RecipeId(jj, tj);
    if RecipeId(ii, ti) == RecipeId(jj, tj) {
      RecipeIdInjective(ii, ti, jj, tj);
    }
  }

  /** Ids of the records parsed from both datasets, one after the other, are pairwise different. */
  lemma ParsedIdsDistinct(solidState: seq<Reaction>, solGel: seq<Reaction>)
    ensures var all := ParseAll(solidState, SolidStateType) + ParseAll(solGel, SolGelType);
      forall i, j :: 0 <= i < j < |all| ==> RecordId(all[i]) != RecordId(all[j])
  {
    var a := ParseAll(solidState, SolidStateType);
    var b := ParseAll(solGel, SolGelType);
    forall k | 0 <= k < |a|
      ensures a[k].id == RecipeId(k, SolidStateType)
    {
      ParseAllId(solidState, SolidStateType, k);
    }
    forall k | 0 <= k < |b|
      ensures b[k].id == RecipeId(k, SolGelType)
    {
      ParseAllId(solGel, SolGelType, k);
    }
    forall i, j | 0 <= i < j < |a + b|
      ensures RecordId((a + b)[i]) != RecordId((a + b)[j])
    {
      PositionalIdsDistinct(a, b, i, j);
    }
  }

  /** No two records of the dataset share an id. */
  lemma DatasetIdsDistinct(solidState: seq<Reaction>, solGel: seq<Reaction>)
    ensures var d := Dataset(solidState, solGel);
      forall i, j :: 0 <= i < j < |d| ==> d[i].id != d[j].id
  {
    var all := ParseAll(solidState, SolidStateType) + ParseAll(solGel, SolGelType);
    ParsedIdsDistinct(solidState, solGel);
    Seqs.FilterKeepsDistinct(all, IsValid, RecordId);
  }

  /** The web copy: the first 5000 valid recipes. */
  function WebRecipes(dataset: seq<Recipe>): (r: seq<Recipe>)
    ensures |r| == if |dataset| < 5000 then |dataset| else 5000
    ensures r == dataset[..|r|]
  {
    Seqs.SliceTo(dataset, 5000)
  }

  /** The web query: lower-cased, then whitespace removed; the target formula is only lower-cased. */
  predicate WebFormulaMatches(r: Recipe, normalized: string) {
    Overlaps(Text.Lower(r.targetFormula), normalized)
  }

  /** The generated web `searchByFormula(formula, limit)`. */
  function WebSearchByFormula(recipes: seq<Recipe>, formula: string, limit: int): (r: seq<Recipe>)
    ensures Seqs.IsSubsequence(r, recipes)
    ensures limit >= 0 ==> |r| <= limit
    ensures forall i :: 0 <= i < |r| ==> WebFormulaMatches(r[i], Text.RemoveSpaces(Text.Lower(formula)))
  {
    var q := Text.RemoveSpaces(Text.Lower(formula));
    Seqs.FirstMatching(recipes, x => WebFormulaMatches(x, q), limit)
  }
  /**
   * `filter(...).slice(0, limit)`: the result is the front of the complete
   * result, `limit` long when there are that many matches, and a match is
   * left out only when `limit` matches come before it.
   */
  lemma WebSearchByFormulaFirstLimit(recipes: seq<Recipe>, formula: string, limit: int)
    ensures var all := WebSearchByFormula(recipes, formula, |recipes|);
      limit >= 0 ==> WebSearchByFormula(recipes, formula, limit) == all[..if limit < |all| then limit else |all|]
    ensures forall i :: 0 <= i < |recipes| && WebFormulaMatches(recipes[i], Text.RemoveSpaces(Text.Lower(formula))) && |WebSearchByFormula(recipes[..i], formula, limit)| < limit ==>
      recipes[i] in WebSearchByFormula(recipes, formula, limit)
  {
    var q := Text.RemoveSpaces(Text.Lower(formula));
    Seqs.FirstMatchingIsPrefix(recipes, x => WebFormulaMatches(x, q), limit);
    forall i | 0 <= i < |recipes| && WebFormulaMatches(recipes[i], Text.RemoveSpaces(Text.Lower(formula))) && |WebSearchByFormula(recipes[..i], formula, limit)| < limit
      ensures recipes[i] in WebSearchByFormula(recipes, formula, limit)
    {
      Seqs.FirstMatchingEarly(recipes, x => WebFormulaMatches(x, q), limit, i);
    }
  }


  /** The web query normalisation is the server's `normalizeFormula`. */
  lemma WebQueryIsNormalized(formula: string)
    ensures Text.RemoveSpaces(Text.Lower(formula)) == NormalizeFormula(formula)
  {
    Text.RemoveSpacesLower(formula);
  }

  /** Over records whose target formulas hold no whitespace, the web search is the server's search over all types. */
  lemma WebSearchByFormulaAgrees(recipes: seq<Recipe>, formula: string, limit: int)
    requires forall i, k :: 0 <= i < |recipes| && 0 <= k < |recipes[i].targetFormula| ==> !Text.IsSpace(recipes[i].targetFormula[k])
    ensures WebSearchByFormula(recipes, formula, limit) == SearchByFormula(recipes, formula, AllTypes, limit)
  {
    var q := NormalizeFormula(formula);
    WebQueryIsNormalized(formula);
    forall i | 0 <= i < |recipes|
      ensures WebFormulaMatches(recipes[i], q) == FormulaMatches(recipes[i], q, AllTypes)
    {
      Text.RemoveSpacesKeeps(recipes[i].targetFormula);
    }
    Seqs.FirstMatchingAgree(recipes, x => WebFormulaMatches(x, q), x => FormulaMatches(x, q, AllTypes), limit);
  }

  lemma SpacedTargetNormalized()
    ensures NormalizeFormula("Co O") == "coo"
  {
    assert "Co O"[1..] == "o O" && "o O"[1..] == " O" && " O"[1..] == "O" && "O"[1..] == "";
    assert Text.RemoveSpaces("Co O") == "CoO";
  }

  lemma QueryNormalized()
    ensures NormalizeFormula("CoO") == "coo"
    ensures Text.RemoveSpaces(Text.Lower("CoO")) == "coo"
  {
    assert "CoO"[1..] == "oO" && "oO"[1..] == "O" && "O"[1..] == "";
    assert Text.RemoveSpaces("CoO") == "CoO";
    assert Text.Lower("CoO") == "coo";
    assert "coo"[1..] == "oo" && "oo"[1..] == "o" && "o"[1..] == "";
  }

  lemma SpacedTargetDoesNotOverlap()
    ensures !Overlaps("co o", "coo")
  {
    Text.ContainsIff("co o", "coo");
    Text.ContainsIff("coo", "co o");
    assert forall i :: !Text.OccursAt("co o", "coo", i) by {
      assert "co o"[0..3][2] == ' ' && "co o"[1..4][0] == 'o';
    }
  }

  /**
   * A record whose target is written "Co O" is found by the server's search
   * for "CoO" but not by the web search, which keeps the target's space.
   */
  lemma WebSearchKeepsTargetSpaces(r: Recipe)
    requires r.targetFormula == "Co O"
    ensures FormulaMatches(r, NormalizeFormula("CoO"), AllTypes)
    ensures !WebFormulaMatches(r, Text.RemoveSpaces(Text.Lower("CoO")))
  {
    SpacedTargetNormalized();
    QueryNormalized();
    Text.ContainsAt("coo", "coo", 0);
    assert Text.Lower("Co O") == "co o";
    SpacedTargetDoesNotOverlap();
  }

  predicate WebPrecursorMatches(r: Recipe, normalized: string) {
    exists k :: 0 <= k < |r.precursors| && Overlaps(Text.Lower(r.precursors[k].formula), normalized)
  }

  /** The generated web `searchByPrecursor(precursor, limit)`. */
  function WebSearchByPrecursor(recipes: seq<Recipe>, precursor: string, limit: int): (r: seq<Recipe>)
    ensures Seqs.IsSubsequence(r, recipes)
    ensures limit >= 0 ==> |r| <= limit
    ensures forall i :: 0 <= i < |r| ==> WebPrecursorMatches(r[i], Text.RemoveSpaces(Text.Lower(precursor)))
  {
    var q := Text.RemoveSpaces(Text.Lower(precursor));
    Seqs.FirstMatching(recipes, x => WebPrecursorMatches(x, q), limit)
  }
  /**
   * `filter(...).slice(0, limit)`: the result is the front of the complete
   * result, `limit` long when there are that many matches, and a match is
   * left out only when `limit` matches come before it.
   */
  lemma WebSearchByPrecursorFirstLimit(recipes: seq<Recipe>, precursor: string, limit: int)
    ensures var all := WebSearchByPrecursor(recipes, precursor, |recipes|);
      limit >= 0 ==> WebSearchByPrecursor(recipes, precursor, limit) == all[..if limit < |all| then limit else |all|]
    ensures forall i :: 0 <= i < |recipes| && WebPrecursorMatches(recipes[i], Text.RemoveSpaces(Text.Lower(precursor))) && |WebSearchByPrecursor(recipes[..i], precursor, limit)| < limit ==>
      recipes[i] in WebSearchByPrecursor(recipes, precursor, limit)
  {
    var q := Text.RemoveSpaces(Text.Lower(precursor));
    Seqs.FirstMatchingIsPrefix(recipes, x => WebPrecursorMatches(x, q), limit);
    forall i | 0 <= i < |recipes| && WebPrecursorMatches(recipes[i], Text.RemoveSpaces(Text.Lower(precursor))) && |WebSearchByPrecursor(recipes[..i], precursor, limit)| < limit
      ensures recipes[i] in WebSearchByPrecursor(recipes, precursor, limit)
    {
      Seqs.FirstMatchingEarly(recipes, x => WebPrecursorMatches(x, q), limit, i);
    }
  }


  /** The generated web `searchByTemperature(minTemp, maxTemp, limit)`: no element filter, `limit` third. */
  function WebSearchByTemperature(recipes: seq<Recipe>, minTemp: real, maxTemp: real, limit: int): (r: seq<Recipe>)
    ensures Seqs.IsSubsequence(r, recipes)
    ensures limit >= 0 ==> |r| <= limit
    ensures forall i :: 0 <= i < |r| ==> TemperatureOverlaps(r[i], minTemp, maxTemp)
  {
    Seqs.FirstMatching(recipes, x => TemperatureOverlaps(x, minTemp, maxTemp), limit)
  }
  /**
   * `filter(...).slice(0, limit)`: the result is the front of the complete
   * result, `limit` long when there are that many matches, and a match is
   * left out only when `limit` matches come before it.
   */
  lemma WebSearchByTemperatureFirstLimit(recipes: seq<Recipe>, minTemp: real, maxTemp: real, limit: int)
    ensures var all := WebSearchByTemperature(recipes, minTemp, maxTemp, |recipes|);
      limit >= 0 ==> WebSearchByTemperature(recipes, minTemp, maxTemp, limit) == all[..if limit < |all| then limit else |all|]
    ensures forall i :: 0 <= i < |recipes| && TemperatureOverlaps(recipes[i], minTemp, maxTemp) && |WebSearchByTemperature(recipes[..i], minTemp, maxTemp, limit)| < limit ==>
      recipes[i] in WebSearchByTemperature(recipes, minTemp, maxTemp, limit)
  {
    Seqs.FirstMatchingIsPrefix(recipes, x => TemperatureOverlaps(x, minTemp, maxTemp), limit);
    forall i | 0 <= i < |recipes| && TemperatureOverlaps(recipes[i], minTemp, maxTemp) && |WebSearchByTemperature(recipes[..i], minTemp, maxTemp, limit)| < limit
      ensures recipes[i] in WebSearchByTemperature(recipes, minTemp, maxTemp, limit)
    {
      Seqs.FirstMatchingEarly(recipes, x => TemperatureOverlaps(x, minTemp, maxTemp), limit, i);
    }
  }


  /** The web temperature search is the server's with the element filter left out. */
  lemma WebSearchByTemperatureAgrees(recipes: seq<Recipe>, minTemp: real, maxTemp: real, limit: int)
    ensures WebSearchByTemperature(recipes, minTemp, maxTemp, limit) == SearchByTemperature(recipes, minTemp, maxTemp, None, limit)
  {
    Seqs.FirstMatchingAgree(recipes, x => TemperatureOverlaps(x, minTemp, maxTemp), x => TemperatureMatches(x, minTemp, maxTemp, None), limit);
  }
}
