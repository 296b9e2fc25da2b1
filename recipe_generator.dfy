/**
 * The recipe generator: from a target formula and a route id to a full
 * recipe — one precursor per metal element, the middle window of the route's
 * temperature and time ranges, the atmosphere, the numbered procedure with its
 * sintering override, the safety notes and up to three literature references
 * — and the method menu the conversation shows before a route is chosen.
 */
module RecipeGenerator {
  import opened Wrappers
  import Text
  import Seqs
  import EP = ElementParser
  import opened PrecursorDb
  import opened SynthesisMethods
  import SynthesisData
  import ParseSynthesis

  /** The interface language; Korean is the generator's default. */
  datatype Language = Korean | English

  /** The text of a localized entry in `lang`. */
  function InLanguage(lang: Language, text: Localized): string {
    if lang == Korean then text.ko else text.en
  }

  // ---------------------------------------------------------------
  // Precursors
  // ---------------------------------------------------------------

  datatype PrecursorChoice = PrecursorChoice(element: string, precursor: PrecursorInfo, stoichiometry: string)

  /** The non-metals that get no precursor of their own. */
  const SkippedElements: seq<string> := ["O", "N", "C", "H"]

  /** `parsed.elements.find(e => e.symbol === element)`. */
  function FindElement(elements: seq<EP.ParsedElement>, symbol: string): (r: Option<EP.ParsedElement>)
    ensures r.Some? ==> r.value in elements && r.value.symbol == symbol
    ensures r.None? <==> forall i :: 0 <= i < |elements| ==> elements[i].symbol != symbol
  {
    if elements == [] then None
    else if elements[0].symbol == symbol then Some(elements[0])
    else FindElement(elements[1..], symbol)
  }

  /** `"<count> mol"` for the element's entry, `"1 mol"` when there is none. */
  function Stoichiometry(elements: seq<EP.ParsedElement>, symbol: string): string {
    match FindElement(elements, symbol)
    case Some(e) => Text.NumberText(e.count) + " mol"
    case None => "1 mol"
  }

  /** The fallback lookup: the best solid-state compound, else the best solution one. */
  function Fallback(element: string): Option<PrecursorInfo> {
    var solid := GetBestPrecursor(element, "solid-state");
    if solid.Some? then solid else GetBestPrecursor(element, "solution")
  }

  /**
   * The entry one pass of the precursor loop pushes for `element`: nothing for
   * O, N, C and H; the route's best compound with the parsed count; failing
   * that, for a catalogued element, the fallback compound at one mole.
   */
  function ChoiceFor(element: string, elements: seq<EP.ParsedElement>, methodId: string): Option<PrecursorChoice> {
    if element in SkippedElements then None
    else
      match GetBestPrecursor(element, methodId)
      case Some(p) => Some(PrecursorChoice(element, p, Stoichiometry(elements, element)))
      case None =>
        if HasElement(element) && Fallback(element).Some? then Some(PrecursorChoice(element, Fallback(element).value, "1 mol"))
        else None
  }

  /**
   * The choice in terms of the ranked lists: the route's first compound when
   * it has one; otherwise the first solid-state compound, else the first
   * solution compound, at one mole; nothing when all three lists are empty.
   */
  lemma ChoiceForFacts(element: string, elements: seq<EP.ParsedElement>, methodId: string)
    ensures var r := ChoiceFor(element, elements, methodId);
      && (r.Some? ==> r.value.element == element && element !in SkippedElements && r.value.precursor in Catalogued(element))
      && (r.None? <==> (element in SkippedElements
           || (GetPrecursors(element, methodId) == [] && GetPrecursors(element, "solid-state") == [] && GetPrecursors(element, "solution") == [])))
      && (element !in SkippedElements && GetPrecursors(element, methodId) != [] ==>
           r == Some(PrecursorChoice(element, GetPrecursors(element, methodId)[0], Stoichiometry(elements, element))))
      && (GetPrecursors(element, methodId) == [] && r.Some? ==>
           && r.value.stoichiometry == "1 mol"
           && r.value.precursor == (if GetPrecursors(element, "solid-state") != [] then GetPrecursors(element, "solid-state")[0]
                                    else GetPrecursors(element, "solution")[0]))
  {
  }

  /** The choice of an element of the target, as the loop makes it. */
  function Choice(elements: seq<EP.ParsedElement>, methodId: string): string -> Option<PrecursorChoice> {
    (e: string) => ChoiceFor(e, elements, methodId)
  }

  /** A choice is always for the element it was asked about. */
  ghost predicate KeepsElement(choose: string -> Option<PrecursorChoice>) {
    forall e :: choose(e).Some? ==> choose(e).value.element == e
  }

  lemma ChoiceKeepsElement(elements: seq<EP.ParsedElement>, methodId: string)
    ensures KeepsElement(Choice(elements, methodId))
  {
  }

  /** The element gets an entry. */
  function Chosen(choose: string -> Option<PrecursorChoice>): string -> bool {
    (e: string) => choose(e).Some?
  }

  /** The entries pushed for `unique`, in order. */
  function PrecursorsFor(unique: seq<string>, choose: string -> Option<PrecursorChoice>): seq<PrecursorChoice> {
    if unique == [] then []
    else
      var rest := PrecursorsFor(unique[..|unique| - 1], choose);
      match choose(unique[|unique| - 1])
      case Some(c) => rest + [c]
      case None => rest
  }

  /** The elements reported missing: not skipped, yet without any entry. */
  function MissingFor(unique: seq<string>, choose: string -> Option<PrecursorChoice>): seq<string> {
    if unique == [] then []
    else
      var rest := MissingFor(unique[..|unique| - 1], choose);
      var e := unique[|unique| - 1];
      if e !in SkippedElements && choose(e).None? then rest + [e] else rest
  }

  function ChoiceElements(cs: seq<PrecursorChoice>): seq<string> {
    seq(|cs|, i requires 0 <= i < |cs| => cs[i].element)
  }

  /**
   * The entries are, in order, one per element that gets one: their elements
   * are the chosen elements of `unique`, and each entry is that element's
   * choice.
   */
  lemma {:induction false} PrecursorsForFacts(unique: seq<string>, choose: string -> Option<PrecursorChoice>)
    requires KeepsElement(choose)
    ensures ChoiceElements(PrecursorsFor(unique, choose)) == Seqs.Filter(unique, Chosen(choose))
    ensures forall i :: 0 <= i < |PrecursorsFor(unique, choose)| ==>
      choose(ChoiceElements(PrecursorsFor(unique, choose))[i]) == Some(PrecursorsFor(unique, choose)[i])
  {
    if unique != [] {
      var init, e := unique[..|unique| - 1], unique[|unique| - 1];
      PrecursorsForFacts(init, choose);
      assert unique == init + [e];
      Seqs.FilterAppend(init, [e], Chosen(choose));
      var rest := PrecursorsFor(init, choose);
      if choose(e).Some? {
        assert ChoiceElements(rest + [choose(e).value]) == ChoiceElements(rest) + [e];
      }
    }
  }

  /**
   * The entries follow `uniqueElements` order, each is its element's choice
   * and, when the elements are distinct, there is at most one per element;
   * an element of the list has an entry iff it has a choice.
   */
  lemma PrecursorsForShape(unique: seq<string>, choose: string -> Option<PrecursorChoice>)
    requires KeepsElement(choose)
    ensures Seqs.IsSubsequence(ChoiceElements(PrecursorsFor(unique, choose)), unique)
    ensures Seqs.NoDuplicates(unique) ==> Seqs.NoDuplicates(ChoiceElements(PrecursorsFor(unique, choose)))
    ensures forall e :: e in unique ==> (e in ChoiceElements(PrecursorsFor(unique, choose)) <==> choose(e).Some?)
  {
    var ps := PrecursorsFor(unique, choose);
    PrecursorsForFacts(unique, choose);
    Seqs.FilterIsSubsequence(unique, Chosen(choose));
    if Seqs.NoDuplicates(unique) {
      Seqs.FilterKeepsDistinct(unique, Chosen(choose), (e: string) => e);
    }
    forall e | e in unique
      ensures e in ChoiceElements(ps) <==> choose(e).Some?
    {
      var k :| 0 <= k < |unique| && unique[k] == e;
      assert Chosen(choose)(unique[k]) ==> unique[k] in Seqs.Filter(unique, Chosen(choose));
    }
  }

  /**
   * With the generator's own choice no entry is for O, N, C or H, and each
   * compound comes from its element's catalog list.
   */
  lemma PrecursorsSkipNonMetals(unique: seq<string>, elements: seq<EP.ParsedElement>, methodId: string)
    ensures forall i :: 0 <= i < |PrecursorsFor(unique, Choice(elements, methodId))| ==>
      var c := PrecursorsFor(unique, Choice(elements, methodId))[i];
      c.element !in SkippedElements && c.element in unique && c.precursor in Catalogued(c.element)
  {
    var ps := PrecursorsFor(unique, Choice(elements, methodId));
    ChoiceKeepsElement(elements, methodId);
    PrecursorsForFacts(unique, Choice(elements, methodId));
    forall i | 0 <= i < |ps|
      ensures ps[i].element !in SkippedElements && ps[i].element in unique && ps[i].precursor in Catalogued(ps[i].element)
    {
      var e := ChoiceElements(ps)[i];
      ChoiceForFacts(e, elements, methodId);
      assert e in Seqs.Filter(unique, Chosen(Choice(elements, methodId)));
    }
  }

  /** An element is reported missing iff it is neither skipped nor given an entry. */
  lemma {:induction false} MissingForIff(unique: seq<string>, choose: string -> Option<PrecursorChoice>, e: string)
    ensures e in MissingFor(unique, choose) <==> e in unique && e !in SkippedElements && choose(e).None?
  {
    if unique != [] {
      MissingForIff(unique[..|unique| - 1], choose, e);
      assert unique == unique[..|unique| - 1] + [unique[|unique| - 1]];
    }
  }

  /**
   * The `hasElement` test on the fallback path never decides anything: a
   * fallback compound only exists for a catalogued element.
   */
  lemma FallbackNeedsCatalog(element: string)
    ensures Fallback(element).Some? ==> HasElement(element)
  {
  }

  /** For a parsed formula, the primary stoichiometry is the element's summed count. */
  lemma StoichiometryOfParsed(formula: string, symbol: string)
    requires symbol in EP.FormulaOf(formula).uniqueElements
    ensures Stoichiometry(EP.FormulaOf(formula).elements, symbol) ==
      Text.NumberText(EP.Total(EP.Tokens(Text.Trim(formula)), symbol)) + " mol"
  {
    var parsed := EP.FormulaOf(formula);
    EP.FormulaOfFacts(formula);
    var k :| 0 <= k < |parsed.uniqueElements| && parsed.uniqueElements[k] == symbol;
    assert parsed.elements[k].symbol == symbol;
    var found := FindElement(parsed.elements, symbol);
    assert found.Some?;
    var j :| 0 <= j < |parsed.elements| && parsed.elements[j] == found.value;
  }

  /** One pass of the precursor loop for an element that is not skipped. */
  method ChooseOne(element: string, elements: seq<EP.ParsedElement>, methodId: string) returns (r: Option<PrecursorChoice>)
    requires element !in SkippedElements
    ensures r == ChoiceFor(element, elements, methodId)
  {
    var precursor := GetBestPrecursor(element, methodId);
    if precursor.Some? {
      var elInfo := FindElement(elements, element);
      var stoichiometry := if elInfo.Some? then Text.NumberText(elInfo.value.count) + " mol" else "1 mol";
      return Some(PrecursorChoice(element, precursor.value, stoichiometry));
    } else if HasElement(element) {
      var fallbackPrecursor := GetBestPrecursor(element, "solid-state");
      if fallbackPrecursor.None? {
        fallbackPrecursor := GetBestPrecursor(element, "solution");
      }
      if fallbackPrecursor.Some? {
        return Some(PrecursorChoice(element, fallbackPrecursor.value, "1 mol"));
      }
    }
    return None;
  }

  lemma SkippedChoice(element: string, elements: seq<EP.ParsedElement>, methodId: string)
    requires element in SkippedElements
    ensures ChoiceFor(element, elements, methodId) == None
  {
  }

  /** One more element of the list adds its entry, or reports it missing. */
  lemma PrecursorsForSnoc(unique: seq<string>, i: nat, choose: string -> Option<PrecursorChoice>)
    requires i < |unique|
    ensures PrecursorsFor(unique[..i + 1], choose) ==
      PrecursorsFor(unique[..i], choose) + (if choose(unique[i]).Some? then [choose(unique[i]).value] else [])
    ensures MissingFor(unique[..i + 1], choose) ==
      MissingFor(unique[..i], choose) + (if unique[i] !in SkippedElements && choose(unique[i]).None? then [unique[i]] else [])
  {
    assert unique[..i + 1][..i] == unique[..i];
  }

  /**
   * The precursor loop: walks `uniqueElements`, pushing each entry and
   * collecting the elements without one.
   */
  method ChoosePrecursors(unique: seq<string>, elements: seq<EP.ParsedElement>, methodId: string)
    returns (precursors: seq<PrecursorChoice>, missingElements: seq<string>)
    ensures precursors == PrecursorsFor(unique, Choice(elements, methodId))
    ensures missingElements == MissingFor(unique, Choice(elements, methodId))
  {
    ghost var choose := Choice(elements, methodId);
    precursors, missingElements := [], [];
    var i := 0;
    while i < |unique|
      invariant 0 <= i <= |unique|
      invariant precursors == PrecursorsFor(unique[..i], choose)
      invariant missingElements == MissingFor(unique[..i], choose)
    {
      var element := unique[i];
      PrecursorsForSnoc(unique, i, choose);
      if element !in SkippedElements {
        var entry := ChooseOne(element, elements, methodId);
        assert entry == choose(element);
        if entry.Some? {
          precursors := precursors + [entry.value];
        } else {
          missingElements := missingElements + [element];
        }
      } else {
        SkippedChoice(element, elements, methodId);
        assert choose(element) == None;
      }
      i := i + 1;
    }
    Seqs.TakeAll(unique);
  }

  // ---------------------------------------------------------------
  // Conditions
  // ---------------------------------------------------------------

  /** The 30 %-70 % part of a range, each end rounded half up. */
  function MiddleWindow(r: Range): Range {
    var span := r.max - r.min;
    Range(r.min + Text.Round(span * 0.3) as real, r.min + Text.Round(span * 0.7) as real)
  }

  /** Rounding keeps order. */
  lemma RoundMonotone(x: real, y: real)
    requires x <= y
    ensures Text.Round(x) <= Text.Round(y)
  {
  }

  /**
   * For a range with whole-number ends the window lies inside it, lower end
   * first. (A fractional span can round up past `max`.)
   */
  lemma WindowInside(r: Range)
    requires r.min <= r.max
    requires (r.max - r.min).Floor as real == r.max - r.min
    ensures r.min <= MiddleWindow(r).min <= MiddleWindow(r).max <= r.max
  {
    var span := r.max - r.min;
    var n := span.Floor;
    RoundMonotone(span * 0.3, span * 0.7);
    assert span * 0.7 + 0.5 < n as real + 1.0;
    assert Text.Round(span * 0.7) <= n;
  }

  /** A range ending before 0.3 of a unit past a whole span can overshoot. */
  lemma WindowOvershoots()
    ensures MiddleWindow(Range(0.0, 0.8)).max > 0.8
  {
    assert Text.Round(0.8 * 0.7) == 1;
  }

  /** `"<lo>-<hi>"` followed by the unit. */
  function WindowText(r: Range, unit: string): string {
    var w := MiddleWindow(r);
    Text.NumberText(w.min) + "-" + Text.NumberText(w.max) + unit
  }

  /** A window with whole-number ends is printed as those two numbers. */
  lemma WindowTextOfWhole(r: Range, unit: string, lo: nat, hi: nat)
    requires MiddleWindow(r) == Range(lo as real, hi as real)
    ensures WindowText(r, unit) == Text.NatText(lo) + "-" + Text.NatText(hi) + unit
  {
    Text.NumberTextOfInt(lo);
    Text.NumberTextOfInt(hi);
  }

  /** The solid-state temperature range gives 980-1220 °C. */
  lemma SolidStateTemperatureWindow()
    ensures WindowText(Range(800.0, 1400.0), "°C") == "980-1220°C"
  {
    assert Text.Round(600.0 * 0.3) == 180 && Text.Round(600.0 * 0.7) == 420;
    WindowTextOfWhole(Range(800.0, 1400.0), "°C", 980, 1220);
    assert Text.NatText(980) == "980" && Text.NatText(1220) == "1220";
  }

  /** The solid-state time range gives 19-35 h. */
  lemma SolidStateTimeWindow()
    ensures WindowText(Range(6.0, 48.0), "h") == "19-35h"
  {
    assert Text.Round(42.0 * 0.3) == 13 && Text.Round(42.0 * 0.7) == 29;
    WindowTextOfWhole(Range(6.0, 48.0), "h", 19, 35);
    assert Text.NatText(19) == "19" && Text.NatText(35) == "35";
  }

  /** The catalog entry behind those windows. */
  lemma SolidStateRanges()
    ensures GetMethod("solid-state").value.conditions.temperatureRange == Range(800.0, 1400.0)
    ensures GetMethod("solid-state").value.conditions.timeRange == Range(6.0, 48.0)
    ensures GetMethod("solid-state").value.conditions.atmosphere[0] == "air"
  {
  }

  const ReducingAtmosphere: string := "Ar/H2 (5%)"

  /** The reducing gas when one is needed, else the route's first atmosphere. */
  function Atmosphere(route: SynthesisMethod, needsReducing: bool): (r: string)
    requires |route.conditions.atmosphere| > 0
    ensures needsReducing ==> r == ReducingAtmosphere
    ensures !needsReducing ==> r == route.conditions.atmosphere[0]
  {
    if needsReducing then ReducingAtmosphere else route.conditions.atmosphere[0]
  }

  datatype RecipeConditions = RecipeConditions(temperature: string, time: string, atmosphere: string, heatingRate: Option<string>)

  /** The `conditions` record of a recipe. */
  function ConditionsFor(route: SynthesisMethod, needsReducing: bool): RecipeConditions
    requires |route.conditions.atmosphere| > 0
  {
    RecipeConditions(
      WindowText(route.conditions.temperatureRange, "°C"),
      WindowText(route.conditions.timeRange, "h"),
      Atmosphere(route, needsReducing),
      Some("5°C/min"))
  }

  // ---------------------------------------------------------------
  // Procedure
  // ---------------------------------------------------------------

  datatype ProcedureStep = ProcedureStep(
    step: nat,
    name: string,
    action: string,
    details: Option<string>,
    temperature: Option<string>,
    time: Option<string>)

  /** The entry for a method step at position `index`. */
  function StepEntry(s: SynthesisStep, index: nat, lang: Language): ProcedureStep {
    ProcedureStep(index + 1, s.name, InLanguage(lang, s.description),
      if s.details.Some? then Some(InLanguage(lang, s.details.value)) else None,
      s.temperature, s.time)
  }

  /** `route.steps.map(...)`. */
  function ProcedureOf(steps: seq<SynthesisStep>, lang: Language): seq<ProcedureStep> {
    seq(|steps|, i requires 0 <= i < |steps| => StepEntry(steps[i], i, lang))
  }

  /** One entry per step, in order, numbered from 1, with the step's name, texts and conditions. */
  lemma ProcedureOfFacts(steps: seq<SynthesisStep>, lang: Language)
    ensures |ProcedureOf(steps, lang)| == |steps|
    ensures forall i :: 0 <= i < |steps| ==>
      && ProcedureOf(steps, lang)[i].step == i + 1
      && ProcedureOf(steps, lang)[i].name == steps[i].name
      && ProcedureOf(steps, lang)[i].action == InLanguage(lang, steps[i].description)
      && ProcedureOf(steps, lang)[i].temperature == steps[i].temperature
      && ProcedureOf(steps, lang)[i].time == steps[i].time
      && (ProcedureOf(steps, lang)[i].details.Some? <==> steps[i].details.Some?)
  {
  }

  /** `procedure.findIndex(p => p.name === name)`. */
  function FirstNamed(procedure: seq<ProcedureStep>, name: string): (r: int)
    ensures -1 <= r < |procedure|
    ensures r >= 0 ==> procedure[r].name == name && forall j :: 0 <= j < r ==> procedure[j].name != name
    ensures r == -1 ==> forall j :: 0 <= j < |procedure| ==> procedure[j].name != name
  {
    if procedure == [] then -1
    else if procedure[0].name == name then 0
    else var k := FirstNamed(procedure[1..], name); if k == -1 then -1 else k + 1
  }

  /** The details of the sintering step under a reducing gas. */
  function ReducingDetails(lang: Language): string {
    if lang == Korean then "환원 분위기(Ar/H2)에서 가열하여 금속 상 형성"
    else "Heat under reducing atmosphere (Ar/H2) to form metallic phase"
  }

  /** The procedure after the override, when the override applies. */
  function SinteringOverride(procedure: seq<ProcedureStep>, lang: Language): seq<ProcedureStep> {
    var k := FirstNamed(procedure, "sintering");
    if k >= 0 then procedure[k := procedure[k].(details := Some(ReducingDetails(lang)))] else procedure
  }

  /** The procedure of a recipe: the override applies only to a reducing solid-state run. */
  function ProcedureFor(route: SynthesisMethod, needsReducing: bool, lang: Language): seq<ProcedureStep> {
    var procedure := ProcedureOf(route.steps, lang);
    if needsReducing && route.id == "solid-state" then SinteringOverride(procedure, lang) else procedure
  }

  /**
   * Only the first sintering step changes, and only its details; every other
   * entry, and every other field, stays as it was.
   */
  lemma SinteringOverrideFacts(procedure: seq<ProcedureStep>, lang: Language)
    ensures |SinteringOverride(procedure, lang)| == |procedure|
    ensures forall i :: 0 <= i < |procedure| && i != FirstNamed(procedure, "sintering") ==>
      SinteringOverride(procedure, lang)[i] == procedure[i]
    ensures FirstNamed(procedure, "sintering") >= 0 ==>
      var k := FirstNamed(procedure, "sintering");
      SinteringOverride(procedure, lang)[k] == procedure[k].(details := Some(ReducingDetails(lang)))
  {
  }

  /** Entries not named "sintering" are untouched, and no entry changes beyond its details. */
  lemma SinteringOverrideShape(procedure: seq<ProcedureStep>, lang: Language)
    ensures |SinteringOverride(procedure, lang)| == |procedure|
    ensures forall i :: 0 <= i < |procedure| && procedure[i].name != "sintering" ==>
      SinteringOverride(procedure, lang)[i] == procedure[i]
    ensures forall i :: 0 <= i < |procedure| ==>
      SinteringOverride(procedure, lang)[i] == procedure[i].(details := SinteringOverride(procedure, lang)[i].details)
  {
    SinteringOverrideFacts(procedure, lang);
  }

  /**
   * The procedure keeps the step list's shape; with no reducing solid-state
   * run it is the plain copy, and otherwise only the sintering entry's details
   * differ from it.
   */
  lemma ProcedureForFacts(route: SynthesisMethod, needsReducing: bool, lang: Language)
    ensures |ProcedureFor(route, needsReducing, lang)| == |route.steps|
    ensures !(needsReducing && route.id == "solid-state") ==> ProcedureFor(route, needsReducing, lang) == ProcedureOf(route.steps, lang)
    ensures forall i :: 0 <= i < |route.steps| && route.steps[i].name != "sintering" ==>
      ProcedureFor(route, needsReducing, lang)[i] == ProcedureOf(route.steps, lang)[i]
    ensures forall i :: 0 <= i < |route.steps| ==>
      ProcedureFor(route, needsReducing, lang)[i] == ProcedureOf(route.steps, lang)[i].(details := ProcedureFor(route, needsReducing, lang)[i].details)
  {
    var plain := ProcedureOf(route.steps, lang);
    ProcedureOfFacts(route.steps, lang);
    SinteringOverrideShape(plain, lang);
  }

  /** The findIndex loop. */
  method FindStepIndex(procedure: seq<ProcedureStep>, name: string) returns (idx: int)
    ensures idx == FirstNamed(procedure, name)
  {
    var i := 0;
    while i < |procedure|
      invariant 0 <= i <= |procedure|
      invariant forall j :: 0 <= j < i ==> procedure[j].name != name
    {
      if procedure[i].name == name {
        FirstNamedIs(procedure, name, i);
        return i;
      }
      i := i + 1;
    }
    return -1;
  }

  /** The first index carrying the name is what FirstNamed returns. */
  lemma {:induction false} FirstNamedIs(procedure: seq<ProcedureStep>, name: string, i: nat)
    requires i < |procedure| && procedure[i].name == name
    requires forall j :: 0 <= j < i ==> procedure[j].name != name
    ensures FirstNamed(procedure, name) == i
  {
    if i > 0 {
      FirstNamedIs(procedure[1..], name, i - 1);
    }
  }

  // ---------------------------------------------------------------
  // Characterization and safety
  // ---------------------------------------------------------------

  function Characterization(lang: Language): seq<string> {
    if lang == Korean then [
      "XRD: 결정 구조 및 상 확인",
      "SEM-EDS: 형태 및 조성 분석",
      "TEM: 나노구조 관찰 (나노입자의 경우)",
      "BET: 비표면적 측정",
      "XPS: 표면 화학 상태 분석"]
    else [
      "XRD: Crystal structure and phase confirmation",
      "SEM-EDS: Morphology and composition analysis",
      "TEM: Nanostructure observation (for nanoparticles)",
      "BET: Specific surface area measurement",
      "XPS: Surface chemical state analysis"]
  }

  /** The hydrogen warning. */
  function HydrogenNote(lang: Language): (r: string)
    ensures r != ""
  {
    if lang == Korean then "H2 가스 사용 시 환기 철저" else "Ensure proper ventilation when using H2 gas"
  }

  /** General note `i` (from 0) of the three every recipe carries. */
  function GeneralNote(i: nat, lang: Language): (r: string)
    requires i < 3
    ensures r != ""
  {
    match i
    case 0 => if lang == Korean then "고온 작업 시 내열장갑 착용" else "Wear heat-resistant gloves during high-temperature operations"
    case 1 => if lang == Korean then "분말 취급 시 마스크 착용" else "Wear a mask when handling powders"
    case _ => if lang == Korean then "화학물질 취급 시 실험복, 보안경 착용" else "Wear lab coat and safety goggles when handling chemicals"
  }

  /** The three notes every recipe carries. */
  function GeneralNotes(lang: Language): seq<string> {
    [GeneralNote(0, lang), GeneralNote(1, lang), GeneralNote(2, lang)]
  }

  function NonEmpty(s: string): bool {
    s != ""
  }

  /** The four notes with the hydrogen one blanked unless needed, blanks filtered out. */
  function SafetyNotes(lang: Language, needsReducing: bool): seq<string> {
    Seqs.Filter([GeneralNote(0, lang), GeneralNote(1, lang), if needsReducing then HydrogenNote(lang) else "", GeneralNote(2, lang)], NonEmpty)
  }

  /** Filtering four values drops exactly the third one when it fails the test. */
  lemma FilterFour<T>(a: T, b: T, c: T, d: T, p: T -> bool)
    requires p(a) && p(b) && p(d)
    ensures Seqs.Filter([a, b, c, d], p) == [a, b] + (if p(c) then [c] else []) + [d]
  {
    assert [a, b, c, d] == [a, b] + [c] + [d];
    assert [a, b] == [a] + [b];
    Seqs.FilterAppend([a, b] + [c], [d], p);
    Seqs.FilterAppend([a, b], [c], p);
    Seqs.FilterAppend([a], [b], p);
    assert Seqs.Filter([a], p) == [a] && Seqs.Filter([b], p) == [b] && Seqs.Filter([d], p) == [d];
    assert Seqs.Filter([c], p) == if p(c) then [c] else [];
  }

  /** The warning about hydrogen differs from each general note. */
  lemma HydrogenNoteIsNotGeneral(lang: Language, i: nat)
    requires i < 3
    ensures HydrogenNote(lang) != GeneralNote(i, lang)
  {
    if i == 0 {
      assert HydrogenNote(lang) != GeneralNote(0, lang);
    } else if i == 1 {
      assert HydrogenNote(lang) != GeneralNote(1, lang);
    } else {
      assert HydrogenNote(lang) != GeneralNote(2, lang);
    }
  }

  /** The hydrogen note is listed, third, exactly when a reducing gas is used. */
  lemma SafetyNotesFacts(lang: Language, needsReducing: bool)
    ensures |SafetyNotes(lang, needsReducing)| == if needsReducing then 4 else 3
    ensures needsReducing ==> SafetyNotes(lang, needsReducing)[2] == HydrogenNote(lang)
    ensures !needsReducing ==> SafetyNotes(lang, needsReducing) == GeneralNotes(lang)
    ensures HydrogenNote(lang) in SafetyNotes(lang, needsReducing) <==> needsReducing
  {
    HydrogenNoteIsNotGeneral(lang, 0);
    HydrogenNoteIsNotGeneral(lang, 1);
    HydrogenNoteIsNotGeneral(lang, 2);
    NotesFiltered(GeneralNote(0, lang), GeneralNote(1, lang), GeneralNote(2, lang), HydrogenNote(lang), needsReducing);
  }

  /** The filtering behind SafetyNotes over any four non-blank notes, the optional one distinct. */
  lemma NotesFiltered(g0: string, g1: string, g2: string, h: string, needed: bool)
    requires g0 != "" && g1 != "" && g2 != "" && h != ""
    requires h != g0 && h != g1 && h != g2
    ensures var notes := Seqs.Filter([g0, g1, if needed then h else "", g2], NonEmpty);
      && |notes| == (if needed then 4 else 3)
      && (needed ==> notes[2] == h)
      && (!needed ==> notes == [g0, g1, g2])
      && (h in notes <==> needed)
  {
    FilterFour(g0, g1, if needed then h else "", g2, NonEmpty);
  }

  // ---------------------------------------------------------------
  // References
  // ---------------------------------------------------------------

  datatype Reference = Reference(material: string, doi: string, temperature: Option<string>)

  /** A dataset record as a reference; a missing or zero maximum temperature is left out. */
  function ReferenceOf(r: SynthesisData.Recipe): Reference {
    Reference(r.targetFormula, r.doi,
      if r.temperatureMax.Some? && r.temperatureMax.value != 0.0 then Some(Text.NumberText(r.temperatureMax.value) + "°C") else None)
  }

  predicate DoiListed(refs: seq<Reference>, doi: string) {
    exists i :: 0 <= i < |refs| && refs[i].doi == doi
  }

  predicate DistinctDois(refs: seq<Reference>) {
    forall i, j :: 0 <= i < j < |refs| ==> refs[i].doi != refs[j].doi
  }

  /** The web search on each element in turn, at most three records each, concatenated. */
  function SearchResults(recipes: seq<SynthesisData.Recipe>, elements: seq<string>): seq<SynthesisData.Recipe> {
    if elements == [] then []
    else ParseSynthesis.WebSearchByFormula(recipes, elements[0], 3) + SearchResults(recipes, elements[1..])
  }

  /**
   * The references loop over a stream of records: an unseen DOI is pushed,
   * and the walk stops as soon as three references are held.
   */
  function Collect(refs: seq<Reference>, records: seq<SynthesisData.Recipe>): seq<Reference>
    decreases |records|
  {
    if records == [] || |refs| >= 3 then refs
    else
      var next := if DoiListed(refs, records[0].doi) then refs else refs + [ReferenceOf(records[0])];
      Collect(next, records[1..])
  }

  /** The references of a recipe: from the searches on the first two unique elements. */
  function ReferencesFor(recipes: seq<SynthesisData.Recipe>, unique: seq<string>): seq<Reference> {
    Collect([], SearchResults(recipes, Seqs.SliceTo(unique, 2)))
  }

  /** The walk keeps what it started with as a prefix, and stops growing at three. */
  lemma {:induction false} CollectExtends(refs: seq<Reference>, records: seq<SynthesisData.Recipe>)
    ensures refs <= Collect(refs, records)
    ensures |refs| <= 3 ==> |Collect(refs, records)| <= 3
    decreases |records|
  {
    if records != [] && |refs| < 3 {
      var next := if DoiListed(refs, records[0].doi) then refs else refs + [ReferenceOf(records[0])];
      CollectExtends(next, records[1..]);
    }
  }

  /** The walk pushes only unseen DOIs. */
  lemma {:induction false} CollectDistinct(refs: seq<Reference>, records: seq<SynthesisData.Recipe>)
    requires DistinctDois(refs)
    ensures DistinctDois(Collect(refs, records))
    decreases |records|
  {
    if records != [] && |refs| < 3 {
      var next := if DoiListed(refs, records[0].doi) then refs else refs + [ReferenceOf(records[0])];
      assert DistinctDois(next);
      CollectDistinct(next, records[1..]);
    }
  }

  /** Every reference the walk adds is built from a record it walked. */
  lemma {:induction false} CollectFrom(refs: seq<Reference>, records: seq<SynthesisData.Recipe>)
    ensures forall i :: |refs| <= i < |Collect(refs, records)| ==> exists k :: 0 <= k < |records| && Collect(refs, records)[i] == ReferenceOf(records[k])
    decreases |records|
  {
    if records != [] && |refs| < 3 {
      var next := if DoiListed(refs, records[0].doi) then refs else refs + [ReferenceOf(records[0])];
      CollectFrom(next, records[1..]);
      CollectExtends(next, records[1..]);
      var out := Collect(next, records[1..]);
      forall i | |refs| <= i < |out|
        ensures exists k :: 0 <= k < |records| && out[i] == ReferenceOf(records[k])
      {
        if i < |next| {
          assert out[i] == next[i] == ReferenceOf(records[0]);
        } else {
          var k :| 0 <= k < |records[1..]| && out[i] == ReferenceOf(records[1..][k]);
          assert records[1..][k] == records[k + 1];
          assert out[i] == ReferenceOf(records[k + 1]);
        }
      }
      assert out == Collect(refs, records);
      assert forall i :: |refs| <= i < |Collect(refs, records)| ==> exists k :: 0 <= k < |records| && Collect(refs, records)[i] == ReferenceOf(records[k]);
    } else {
      assert Collect(refs, records) == refs;
    }
  }

  /** A walk that ends with fewer than three references has seen the DOI of every record. */
  lemma {:induction false} CollectSees(refs: seq<Reference>, records: seq<SynthesisData.Recipe>)
    ensures |Collect(refs, records)| < 3 ==> forall k :: 0 <= k < |records| ==> DoiListed(Collect(refs, records), records[k].doi)
    decreases |records|
  {
    if records != [] && |refs| < 3 {
      var next := if DoiListed(refs, records[0].doi) then refs else refs + [ReferenceOf(records[0])];
      CollectSees(next, records[1..]);
      CollectExtends(next, records[1..]);
      var out := Collect(next, records[1..]);
      assert DoiListed(out, records[0].doi) by {
        var i :| 0 <= i < |next| && next[i].doi == records[0].doi by {
          if !DoiListed(refs, records[0].doi) {
            assert next[|refs|].doi == records[0].doi;
          }
        }
        assert out[i] == next[i];
      }
      if |out| < 3 {
        forall k | 0 <= k < |records|
          ensures DoiListed(out, records[k].doi)
        {
          if k > 0 {
            assert records[1..][k - 1] == records[k];
          }
        }
      }
    }
  }

  /**
   * Starting from at most three distinct references, the walk keeps them as a
   * prefix, holds at most three with distinct DOIs, adds only references of
   * records it walked, and, if it ends with fewer than three, has seen the
   * DOI of every record.
   */
  lemma CollectFacts(refs: seq<Reference>, records: seq<SynthesisData.Recipe>)
    requires |refs| <= 3 && DistinctDois(refs)
    ensures |Collect(refs, records)| <= 3
    ensures DistinctDois(Collect(refs, records))
    ensures refs <= Collect(refs, records)
    ensures forall i :: |refs| <= i < |Collect(refs, records)| ==> exists k :: 0 <= k < |records| && Collect(refs, records)[i] == ReferenceOf(records[k])
    ensures |Collect(refs, records)| < 3 ==> forall k :: 0 <= k < |records| ==> DoiListed(Collect(refs, records), records[k].doi)
  {
    CollectExtends(refs, records);
    CollectDistinct(refs, records);
    CollectFrom(refs, records);
    CollectSees(refs, records);
  }

  /** A record of the walk is one of the searches' results. */
  lemma {:induction false} SearchResultsFrom(recipes: seq<SynthesisData.Recipe>, elements: seq<string>, k: nat)
    requires k < |SearchResults(recipes, elements)|
    ensures exists e :: 0 <= e < |elements| && SearchResults(recipes, elements)[k] in ParseSynthesis.WebSearchByFormula(recipes, elements[e], 3)
  {
    var first := ParseSynthesis.WebSearchByFormula(recipes, elements[0], 3);
    if k >= |first| {
      SearchResultsFrom(recipes, elements[1..], k - |first|);
      var e :| 0 <= e < |elements[1..]| && SearchResults(recipes, elements[1..])[k - |first|] in ParseSynthesis.WebSearchByFormula(recipes, elements[1..][e], 3);
      assert elements[1..][e] == elements[e + 1];
    } else {
      assert SearchResults(recipes, elements)[k] == first[k];
    }
  }

  /**
   * At most three references with distinct DOIs, each built from a record the
   * search found for one of the first two unique elements.
   */
  lemma ReferencesFacts(recipes: seq<SynthesisData.Recipe>, unique: seq<string>)
    ensures |ReferencesFor(recipes, unique)| <= 3
    ensures DistinctDois(ReferencesFor(recipes, unique))
    ensures forall i :: 0 <= i < |ReferencesFor(recipes, unique)| ==>
      exists e, x :: 0 <= e < |unique| && e < 2 && x in ParseSynthesis.WebSearchByFormula(recipes, unique[e], 3) && ReferencesFor(recipes, unique)[i] == ReferenceOf(x)
  {
    var first := Seqs.SliceTo(unique, 2);
    var records := SearchResults(recipes, first);
    CollectFacts([], records);
    forall i | 0 <= i < |ReferencesFor(recipes, unique)|
      ensures exists e, x :: 0 <= e < |unique| && e < 2 && x in ParseSynthesis.WebSearchByFormula(recipes, unique[e], 3) && ReferencesFor(recipes, unique)[i] == ReferenceOf(x)
    {
      var k :| 0 <= k < |records| && ReferencesFor(recipes, unique)[i] == ReferenceOf(records[k]);
      SearchResultsFrom(recipes, first, k);
      var e :| 0 <= e < |first| && records[k] in ParseSynthesis.WebSearchByFormula(recipes, first[e], 3);
      assert first[e] == unique[e];
    }
  }

  /** Fewer than three references means every DOI the searches found is among them. */
  lemma ReferencesComplete(recipes: seq<SynthesisData.Recipe>, unique: seq<string>, k: nat)
    requires |ReferencesFor(recipes, unique)| < 3
    requires k < |SearchResults(recipes, Seqs.SliceTo(unique, 2))|
    ensures DoiListed(ReferencesFor(recipes, unique), SearchResults(recipes, Seqs.SliceTo(unique, 2))[k].doi)
  {
    CollectFacts([], SearchResults(recipes, Seqs.SliceTo(unique, 2)));
  }

  /** Once three references are held the walk adds nothing. */
  lemma CollectFull(refs: seq<Reference>, records: seq<SynthesisData.Recipe>)
    requires |refs| >= 3
    ensures Collect(refs, records) == refs
  {
  }

  /** One record of the walk. */
  lemma CollectStep(refs: seq<Reference>, records: seq<SynthesisData.Recipe>, more: seq<SynthesisData.Recipe>, j: nat)
    requires j < |records| && |refs| < 3
    ensures Collect(refs, records[j..] + more) ==
      Collect(if DoiListed(refs, records[j].doi) then refs else refs + [ReferenceOf(records[j])], records[j + 1..] + more)
  {
    assert (records[j..] + more)[0] == records[j];
    assert (records[j..] + more)[1..] == records[j + 1..] + more;
  }

  /**
   * The inner loop of the references block: it walks one search's records
   * and breaks once three references are held. Either it ends full, holding
   * the whole walk's result, or it leaves the rest of the walk to go.
   */
  method CollectSimilar(refs0: seq<Reference>, similar: seq<SynthesisData.Recipe>, ghost rest: seq<SynthesisData.Recipe>)
    returns (references: seq<Reference>)
    requires |refs0| < 3
    ensures |references| >= 3 ==> references == Collect(refs0, similar + rest)
    ensures |references| < 3 ==> Collect(references, rest) == Collect(refs0, similar + rest)
  {
    references := refs0;
    assert similar[0..] == similar;
    var j := 0;
    while j < |similar|
      invariant 0 <= j <= |similar|
      invariant |references| < 3
      invariant Collect(references, similar[j..] + rest) == Collect(refs0, similar + rest)
    {
      CollectStep(references, similar, rest, j);
      if !DoiListed(references, similar[j].doi) {
        references := references + [ReferenceOf(similar[j])];
      }
      if |references| >= 3 {
        CollectFull(references, similar[j + 1..] + rest);
        return;
      }
      j := j + 1;
    }
    assert similar[|similar|..] + rest == rest;
  }

  /** The nested loops of the references block, with both `break`s. */
  method CollectReferences(recipes: seq<SynthesisData.Recipe>, unique: seq<string>) returns (references: seq<Reference>)
    ensures references == ReferencesFor(recipes, unique)
  {
    var first := Seqs.SliceTo(unique, 2);
    references := [];
    var i := 0;
    while i < |first|
      invariant 0 <= i <= |first|
      invariant |references| < 3
      invariant Collect(references, SearchResults(recipes, first[i..])) == ReferencesFor(recipes, unique)
    {
      var similar := ParseSynthesis.WebSearchByFormula(recipes, first[i], 3);
      ghost var rest := SearchResults(recipes, first[i + 1..]);
      assert first[i..][1..] == first[i + 1..];
      references := CollectSimilar(references, similar, rest);
      if |references| >= 3 {
        break;
      }
      i := i + 1;
    }
    assert first[|first|..] == [];
  }

  // ---------------------------------------------------------------
  // The generator
  // ---------------------------------------------------------------

  datatype Target = Target(formula: string, name: string, elements: seq<string>)

  datatype GeneratedRecipe = GeneratedRecipe(
    target: Target,
    route: SynthesisMethod,
    precursors: seq<PrecursorChoice>,
    conditions: RecipeConditions,
    procedure: seq<ProcedureStep>,
    characterization: seq<string>,
    safetyNotes: seq<string>,
    references: seq<Reference>)

  /** The recipe for a parsed target and a catalog entry. */
  function Build(parsed: EP.ParsedFormula, route: SynthesisMethod, lang: Language, recipes: seq<SynthesisData.Recipe>): GeneratedRecipe
    requires WellFormed(route)
  {
    var unique := parsed.uniqueElements;
    var needsReducing := NeedsReducingAtmosphere(route.id, unique);
    GeneratedRecipe(
      Target(parsed.formula, EP.GenerateMaterialName(unique), unique),
      route,
      PrecursorsFor(unique, Choice(parsed.elements, route.id)),
      ConditionsFor(route, needsReducing),
      ProcedureFor(route, needsReducing, lang),
      Characterization(lang),
      SafetyNotes(lang, needsReducing),
      ReferencesFor(recipes, unique))
  }

  /** What `generateRecipe` returns. */
  function Generate(targetFormula: string, methodId: string, lang: Language, recipes: seq<SynthesisData.Recipe>): Option<GeneratedRecipe> {
    var parsed := EP.FormulaOf(targetFormula);
    if |parsed.uniqueElements| == 0 then None
    else match GetMethod(methodId)
      case None => None
      case Some(route) =>
        CatalogWellFormed(methodId);
        Some(Build(parsed, route, lang, recipes))
  }

  /** No recipe exactly when the formula has no element or the route id is unknown. */
  lemma GenerateNoneIff(targetFormula: string, methodId: string, lang: Language, recipes: seq<SynthesisData.Recipe>)
    ensures Generate(targetFormula, methodId, lang, recipes).None? <==>
      EP.FormulaOf(targetFormula).uniqueElements == [] || methodId !in MethodIds
  {
  }

  /** A recipe is the build of the parsed formula with the catalog entry of the route. */
  lemma GenerateIsBuild(targetFormula: string, methodId: string, lang: Language, recipes: seq<SynthesisData.Recipe>)
    requires Generate(targetFormula, methodId, lang, recipes).Some?
    ensures GetMethod(methodId).Some? && WellFormed(GetMethod(methodId).value)
    ensures Generate(targetFormula, methodId, lang, recipes) == Some(Build(EP.FormulaOf(targetFormula), GetMethod(methodId).value, lang, recipes))
    ensures GetMethod(methodId).value.id == methodId
  {
    CatalogWellFormed(methodId);
  }

  /**
   * A built recipe echoes the formula and names its elements, has one
   * precursor entry per chosen element, the middle windows of the route's
   * ranges, the reducing gas exactly when a noble metal meets solid-state (the
   * route's first atmosphere otherwise), one procedure entry per step, the
   * hydrogen note exactly under the reducing gas, and at most three
   * references with distinct DOIs.
   */
  lemma BuildFacts(parsed: EP.ParsedFormula, route: SynthesisMethod, lang: Language, recipes: seq<SynthesisData.Recipe>)
    requires WellFormed(route)
    ensures var g := Build(parsed, route, lang, recipes);
      var needsReducing := NeedsReducingAtmosphere(route.id, parsed.uniqueElements);
      && g.target == Target(parsed.formula, EP.GenerateMaterialName(parsed.uniqueElements), parsed.uniqueElements)
      && g.route == route
      && g.precursors == PrecursorsFor(parsed.uniqueElements, Choice(parsed.elements, route.id))
      && g.conditions.temperature == WindowText(route.conditions.temperatureRange, "°C")
      && g.conditions.time == WindowText(route.conditions.timeRange, "h")
      && (needsReducing ==> g.conditions.atmosphere == ReducingAtmosphere)
      && (!needsReducing ==> g.conditions.atmosphere == route.conditions.atmosphere[0])
      && |g.procedure| == |route.steps|
      && (HydrogenNote(lang) in g.safetyNotes <==> needsReducing)
      && |g.references| <= 3 && DistinctDois(g.references)
  {
    var needsReducing := NeedsReducingAtmosphere(route.id, parsed.uniqueElements);
    ProcedureForFacts(route, needsReducing, lang);
    SafetyNotesFacts(lang, needsReducing);
    ReferencesFacts(recipes, parsed.uniqueElements);
  }

  /** The procedure part of `generateRecipe`: the step map, then the sintering override. */
  method BuildProcedure(route: SynthesisMethod, needsReducing: bool, lang: Language) returns (procedure: seq<ProcedureStep>)
    ensures procedure == ProcedureFor(route, needsReducing, lang)
  {
    procedure := ProcedureOf(route.steps, lang);
    if needsReducing && route.id == "solid-state" {
      var sinteringIdx := FindStepIndex(procedure, "sintering");
      if sinteringIdx >= 0 {
        procedure := procedure[sinteringIdx := procedure[sinteringIdx].(details := Some(ReducingDetails(lang)))];
      }
    }
  }

  /** The recipe for an element list and a well-formed route, phase by phase. */
  method BuildRecipe(parsed: EP.ParsedFormula, route: SynthesisMethod, lang: Language, recipes: seq<SynthesisData.Recipe>)
    returns (recipe: GeneratedRecipe)
    requires WellFormed(route)
    ensures recipe == Build(parsed, route, lang, recipes)
  {
    var unique := parsed.uniqueElements;
    var precursors, missingElements := ChoosePrecursors(unique, parsed.elements, route.id);
    var needsReducing := NeedsReducingAtmosphere(route.id, unique);
    var conditions := ConditionsFor(route, needsReducing);
    var procedure := BuildProcedure(route, needsReducing, lang);
    var references := CollectReferences(recipes, unique);
    recipe := GeneratedRecipe(
      Target(parsed.formula, EP.GenerateMaterialName(unique), unique),
      route, precursors, conditions, procedure,
      Characterization(lang), SafetyNotes(lang, needsReducing), references);
  }

  /** `generateRecipe(targetFormula, methodId, language)` against the dataset `recipes`. */
  method GenerateRecipe(targetFormula: string, methodId: string, lang: Language, recipes: seq<SynthesisData.Recipe>)
    returns (r: Option<GeneratedRecipe>)
    ensures r == Generate(targetFormula, methodId, lang, recipes)
  {
    var parsed := EP.ParseFormula(targetFormula);
    if |parsed.uniqueElements| == 0 {
      return None;
    }
    var route := GetMethod(methodId);
    if route.None? {
      return None;
    }
    CatalogWellFormed(methodId);
    var recipe := BuildRecipe(parsed, route.value, lang, recipes);
    return Some(recipe);
  }

  /**
   * Under a reducing gas with a solid-state route, the first sintering entry
   * gets the reducing details and the hydrogen note is added.
   */
  lemma ReducingRecipe(parsed: EP.ParsedFormula, route: SynthesisMethod, lang: Language, recipes: seq<SynthesisData.Recipe>)
    requires WellFormed(route) && route.id == "solid-state"
    requires NeedsReducingAtmosphere(route.id, parsed.uniqueElements)
    requires FirstNamed(ProcedureOf(route.steps, lang), "sintering") >= 0
    ensures var g := Build(parsed, route, lang, recipes);
      && g.procedure[FirstNamed(ProcedureOf(route.steps, lang), "sintering")].details == Some(ReducingDetails(lang))
      && |g.safetyNotes| == 4
  {
    ProcedureOfFacts(route.steps, lang);
    SinteringOverrideFacts(ProcedureOf(route.steps, lang), lang);
    SafetyNotesFacts(lang, true);
  }

  /** In the solid-state procedure the sintering entry is the sixth. */
  lemma SolidStateSinteringEntry(lang: Language)
    ensures FirstNamed(ProcedureOf(SolidState.steps, lang), "sintering") == 5
  {
    OneSinteringStep();
    FirstNamedInProcedure(SolidState.steps, lang, "sintering", 5);
  }

  /** The first procedure entry with a name is the first route step with it. */
  lemma FirstNamedInProcedure(steps: seq<SynthesisStep>, lang: Language, name: string, k: nat)
    requires k < |steps| && steps[k].name == name
    requires forall j :: 0 <= j < |steps| && j != k ==> steps[j].name != name
    ensures FirstNamed(ProcedureOf(steps, lang), name) == k
  {
    ProcedureOfFacts(steps, lang);
    FirstNamedIs(ProcedureOf(steps, lang), name, k);
  }

  // ---------------------------------------------------------------
  // Method menu
  // ---------------------------------------------------------------

  /** The question line of the method menu. */
  function MenuQuestion(lang: Language): string {
    if lang == Korean then "어떤 합성 방법을 원하시나요?" else "Which synthesis method would you prefer?"
  }

  /** The phrase the conversation driver looks for in an assistant message. */
  function MenuTrigger(lang: Language): string {
    if lang == Korean then "어떤 합성 방법" else "Which synthesis method"
  }

  /** Line `i` (from 0) of `formatMethodSelection`. */
  function MenuLine(i: nat, targetFormula: string, lang: Language): string
    requires i < 10
  {
    match i
    case 0 => if lang == Korean then "**" + targetFormula + "** 합성을 도와드릴게요! 🧪" else "I'll help you synthesize **" + targetFormula + "**! 🧪"
    case 2 => MenuQuestion(lang)
    case 4 =>
      if lang == Korean then "1. 🔥 **Solid-State (고상 합성)** - 고온 소결, 대량 합성에 적합"
      else "1. 🔥 **Solid-State** - High-temperature sintering, suitable for bulk synthesis"
    case 5 =>
      if lang == Korean then "2. 🧪 **Sol-Gel (솔-겔)** - 균일한 조성, 낮은 온도"
      else "2. 🧪 **Sol-Gel** - Homogeneous mixing, lower temperature"
    case 6 =>
      if lang == Korean then "3. 💧 **Hydrothermal (수열 합성)** - 나노입자, 형태 제어"
      else "3. 💧 **Hydrothermal** - Nanoparticles, morphology control"
    case 7 =>
      if lang == Korean then "4. ⚗️ **Solution-Based (용액 기반)** - 빠른 합성, 금속 나노입자"
      else "4. ⚗️ **Solution-Based** - Fast synthesis, metal nanoparticles"
    case 9 => if lang == Korean then "_숫자나 방법명을 입력해주세요._" else "_Enter a number or method name._"
    case _ => ""
  }

  /** The lines of `formatMethodSelection`. */
  function MenuLines(targetFormula: string, lang: Language): seq<string> {
    seq(10, i requires 0 <= i < 10 => MenuLine(i, targetFormula, lang))
  }

  /** `formatMethodSelection(targetFormula, language)`. */
  function FormatMethodSelection(targetFormula: string, lang: Language): string {
    Text.Join(MenuLines(targetFormula, lang), "\n")
  }

  /** A joined list contains each of its parts. */
  lemma {:induction false} JoinContainsPart(parts: seq<string>, sep: string, k: nat)
    requires k < |parts|
    ensures Text.Contains(Text.Join(parts, sep), parts[k])
  {
    if |parts| == 1 {
      Text.ContainsAt(parts[0], parts[0], 0);
    } else if k == 0 {
      assert Text.Join(parts, sep) == parts[0] + (sep + Text.Join(parts[1..], sep));
      Text.ContainsInside("", parts[0], sep + Text.Join(parts[1..], sep), parts[0]) by {
        Text.ContainsAt(parts[0], parts[0], 0);
      }
      assert "" + parts[0] + (sep + Text.Join(parts[1..], sep)) == Text.Join(parts, sep);
    } else {
      JoinContainsPart(parts[1..], sep, k - 1);
      Text.ContainsInside(parts[0] + sep, Text.Join(parts[1..], sep), "", parts[k]);
      assert parts[0] + sep + Text.Join(parts[1..], sep) + "" == Text.Join(parts, sep);
    }
  }

  /** The question line starts with the trigger phrase. */
  lemma TriggerInQuestion(lang: Language)
    ensures Text.Contains(MenuQuestion(lang), MenuTrigger(lang))
  {
    assert MenuQuestion(lang)[..|MenuTrigger(lang)|] == MenuTrigger(lang);
    Text.ContainsAt(MenuQuestion(lang), MenuTrigger(lang), 0);
  }

  /** Menu lines whose third line is the question carry the trigger phrase once joined. */
  lemma JoinedMenuHasTrigger(lines: seq<string>, lang: Language)
    requires |lines| > 2 && lines[2] == MenuQuestion(lang)
    ensures Text.Contains(Text.Join(lines, "\n"), MenuTrigger(lang))
  {
    JoinContainsPart(lines, "\n", 2);
    TriggerInQuestion(lang);
    Text.ContainsTransitive(Text.Join(lines, "\n"), MenuQuestion(lang), MenuTrigger(lang));
  }

  /** The menu carries its language's trigger phrase, whatever the formula. */
  lemma MenuHasTrigger(targetFormula: string, lang: Language)
    ensures Text.Contains(FormatMethodSelection(targetFormula, lang), MenuTrigger(lang))
  {
    var lines := MenuLines(targetFormula, lang);
    assert lines[2] == MenuLine(2, targetFormula, lang);
    JoinedMenuHasTrigger(lines, lang);
  }
}
