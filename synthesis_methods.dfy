/**
 * The synthesis-method catalog: four routes (solid-state, sol-gel,
 * hydrothermal, solution) with their condition ranges, atmospheres and
 * step lists, lookups by id, and the one rule deciding when a reducing
 * atmosphere is needed.
 */
module SynthesisMethods {
  import opened Wrappers
  import Seqs

  /** A text in both interface languages. */
  datatype Localized = Localized(en: string, ko: string)

  datatype SynthesisStep = SynthesisStep(
    name: string,
    description: Localized,
    temperature: Option<string>,
    time: Option<string>,
    atmosphere: Option<string>,
    details: Option<Localized>)

  /** A closed interval `[min, max]` of degrees Celsius or hours. */
  datatype Range = Range(min: real, max: real)

  datatype Conditions = Conditions(
    temperatureRange: Range,
    timeRange: Range,
    atmosphere: seq<string>,
    pressure: Option<string>)

  datatype SynthesisMethod = SynthesisMethod(
    id: string,
    name: Localized,
    description: Localized,
    icon: string,
    conditions: Conditions,
    steps: seq<SynthesisStep>,
    reducingRequired: bool)

  /** A step that only carries a description. */
  function Plain(name: string, en: string, ko: string): SynthesisStep {
    SynthesisStep(name, Localized(en, ko), None, None, None, None)
  }

  // ---------------------------------------------------------------
  // Solid-state
  // ---------------------------------------------------------------

  /** Step `i` (from 0) of the solid-state route. */
  function SolidStateStep(i: nat): SynthesisStep
    requires i < 7
  {
    match i
    case 0 =>
      Plain("weighing", "Weigh precursors in stoichiometric ratio", "화학양론비에 맞게 전구체 칭량")
    case 1 =>
      SynthesisStep("mixing", Localized("Ball mill with grinding media", "볼밀로 균일하게 혼합"),
        None, Some("4-6h"), None,
        Some(Localized("Use ethanol or acetone as mixing medium. Agate or ZrO2 balls recommended.",
        "에탄올 또는 아세톤을 혼합 매질로 사용. 마노 또는 ZrO2 볼 권장.")))
    case 2 =>
      SynthesisStep("drying", Localized("Dry the mixture", "혼합물 건조"),
        Some("80-100°C"), Some("overnight"), None, None)
    case 3 =>
      SynthesisStep("calcining", Localized("Pre-calcine to decompose carbonates/nitrates", "탄산염/질산염 분해를 위한 1차 하소"),
        Some("500-700°C"), Some("2-4h"), Some("air"), None)
    case 4 =>
      SynthesisStep("regrinding", Localized("Regrind and pelletize", "재분쇄 후 펠렛 성형"),
        None, None, None,
        Some(Localized("Press into pellets at 100-200 MPa for better contact.", "100-200 MPa로 가압하여 펠렛 성형.")))
    case 5 =>
      SynthesisStep("sintering", Localized("Final sintering at high temperature", "고온에서 최종 소결"),
        Some("900-1200°C"), Some("12-24h"), None, None)
    case _ =>
      SynthesisStep("cooling", Localized("Cool to room temperature", "상온까지 서냉"),
        None, None, None,
        Some(Localized("Cool at 2-5°C/min to prevent cracking.", "균열 방지를 위해 2-5°C/분으로 서냉.")))
  }

  // ---------------------------------------------------------------
  // Sol-gel
  // ---------------------------------------------------------------

  /** Step `i` (from 0) of the sol-gel route. */
  function SolGelStep(i: nat): SynthesisStep
    requires i < 6
  {
    match i
    case 0 =>
      SynthesisStep("dissolution", Localized("Dissolve metal precursors in water/ethanol", "금속 전구체를 물/에탄올에 용해"),
        None, None, None,
        Some(Localized("Heat gently if needed. Ensure complete dissolution.", "필요시 가열. 완전 용해 확인.")))
    case 1 =>
      SynthesisStep("chelation", Localized("Add chelating agent", "킬레이트제 첨가"),
        None, None, None,
        Some(Localized("Use citric acid (molar ratio metal:citric = 1:1.5-2) or EDTA. Stir until clear.",
        "구연산 (금속:구연산 = 1:1.5-2 몰비) 또는 EDTA 사용. 투명해질 때까지 교반.")))
    case 2 =>
      SynthesisStep("pH-adjustment", Localized("Adjust pH with ammonia", "암모니아로 pH 조절"),
        None, None, None,
        Some(Localized("Adjust to pH 6-7 for stable gel formation.", "안정적 겔 형성을 위해 pH 6-7로 조절.")))
    case 3 =>
      SynthesisStep("gelation", Localized("Evaporate to form gel", "증발시켜 겔 형성"),
        Some("80-120°C"), None, None,
        Some(Localized("Heat on hot plate with stirring until viscous gel forms.", "핫플레이트에서 교반하며 점성 겔 형성까지 가열.")))
    case 4 =>
      SynthesisStep("drying", Localized("Dry the gel", "겔 건조"),
        Some("150-200°C"), Some("6-12h"), None,
        Some(Localized("Dry in oven until xerogel (dry powder) forms.", "건조 분말(xerogel)이 될 때까지 오븐에서 건조.")))
    case _ =>
      SynthesisStep("calcining", Localized("Calcine to crystallize", "결정화를 위한 하소"),
        Some("500-800°C"), Some("2-6h"), Some("air"),
        Some(Localized("Slow heating (2°C/min) to avoid rapid gas evolution.", "급격한 가스 발생 방지를 위해 천천히 승온 (2°C/분).")))
  }

  // ---------------------------------------------------------------
  // Hydrothermal
  // ---------------------------------------------------------------

  /** Step `i` (from 0) of the hydrothermal route. */
  function HydrothermalStep(i: nat): SynthesisStep
    requires i < 7
  {
    match i
    case 0 =>
      SynthesisStep("preparation", Localized("Prepare aqueous precursor solution", "수용액 전구체 준비"),
        None, None, None,
        Some(Localized("Dissolve metal salts in DI water. Concentration typically 0.01-0.1 M.",
        "금속염을 DI water에 용해. 농도는 보통 0.01-0.1 M.")))
    case 1 =>
      SynthesisStep("mineralizer", Localized("Add mineralizer/surfactant if needed", "필요시 광화제/계면활성제 첨가"),
        None, None, None,
        Some(Localized("Common mineralizers: NaOH, KOH, urea. Surfactants: PVP, CTAB for morphology control.",
        "일반적 광화제: NaOH, KOH, 요소. 형태 제어용 계면활성제: PVP, CTAB.")))
    case 2 =>
      SynthesisStep("pH-adjustment", Localized("Adjust pH", "pH 조절"),
        None, None, None,
        Some(Localized("pH affects crystal morphology and size. Typical range: pH 8-12.",
        "pH가 결정 형태와 크기에 영향. 일반적 범위: pH 8-12.")))
    case 3 =>
      SynthesisStep("transfer", Localized("Transfer to Teflon-lined autoclave", "테프론 라이닝 오토클레이브에 이송"),
        None, None, None,
        Some(Localized("Fill to 70-80% capacity. Leave headspace for pressure.", "용량의 70-80%만 채움. 압력을 위한 공간 확보.")))
    case 4 =>
      SynthesisStep("reaction", Localized("Heat in autoclave", "오토클레이브에서 반응"),
        Some("150-220°C"), Some("12-24h"), None,
        Some(Localized("Place in preheated oven. Do not disturb during reaction.", "예열된 오븐에 넣음. 반응 중 흔들지 않음.")))
    case 5 =>
      Plain("cooling", "Cool naturally to room temperature", "자연 냉각")
    case _ =>
      SynthesisStep("washing", Localized("Wash and collect product", "생성물 세척 및 수집"),
        None, None, None,
        Some(Localized("Centrifuge, wash with water and ethanol 3x each. Dry at 60°C.",
        "원심분리 후 물과 에탄올로 각각 3회 세척. 60°C에서 건조.")))
  }

  // ---------------------------------------------------------------
  // Solution-based
  // ---------------------------------------------------------------

  /** Step `i` (from 0) of the solution route. */
  function SolutionStep(i: nat): SynthesisStep
    requires i < 7
  {
    match i
    case 0 =>
      SynthesisStep("dissolution", Localized("Dissolve metal salts in solvent", "금속염을 용매에 용해"),
        None, None, None,
        Some(Localized("Use water, ethanol, or ethylene glycol. Sonicate if needed.",
        "물, 에탄올, 또는 에틸렌 글리콜 사용. 필요시 초음파 처리.")))
    case 1 =>
      SynthesisStep("stabilizer", Localized("Add capping agent/stabilizer", "캡핑제/안정제 첨가"),
        None, None, None,
        Some(Localized("PVP, citrate, or oleylamine to prevent agglomeration.",
        "응집 방지를 위해 PVP, 시트레이트, 또는 올레일아민 사용.")))
    case 2 =>
      SynthesisStep("reduction", Localized("Add reducing agent and react", "환원제 첨가 및 반응"),
        Some("RT-100°C"), Some("1-4h"), None,
        Some(Localized("Common reducers: NaBH4 (fast, strong), ascorbic acid (mild), EG (polyol).",
        "일반적 환원제: NaBH4 (빠름, 강함), 아스코르브산 (온화), EG (폴리올).")))
    case 3 =>
      SynthesisStep("color-change", Localized("Monitor color change", "색 변화 관찰"),
        None, None, None,
        Some(Localized("Color change indicates reduction: e.g., yellow→brown (Au), orange→black (Pt).",
        "색 변화가 환원을 나타냄: 예) 노랑→갈색 (Au), 주황→검정 (Pt).")))
    case 4 =>
      SynthesisStep("separation", Localized("Separate product", "생성물 분리"),
        None, None, None,
        Some(Localized("Centrifuge at 8000-10000 rpm for 10-15 min.", "8000-10000 rpm에서 10-15분 원심분리.")))
    case 5 =>
      SynthesisStep("washing", Localized("Wash multiple times", "여러 번 세척"),
        None, None, None,
        Some(Localized("Wash with ethanol and water alternately, 3x each.", "에탄올과 물로 번갈아 각각 3회 세척.")))
    case _ =>
      SynthesisStep("drying", Localized("Dry under vacuum or inert gas", "진공 또는 불활성 기체 하에서 건조"),
        Some("60°C"), Some("12h"), None,
        Some(Localized("Vacuum dry to prevent oxidation of metal nanoparticles.", "금속 나노입자 산화 방지를 위해 진공 건조.")))
  }

  // ---------------------------------------------------------------
  // The catalog and its lookups
  // ---------------------------------------------------------------

  /** The catalog's keys, in the order the catalog object declares them. */
  const MethodIds: seq<string> := ["solid-state", "sol-gel", "hydrothermal", "solution"]

  /**
   * The catalog's entries by position: the position's key as id, the display
   * name and description in both languages, the icon, the condition ranges,
   * the atmospheres and the steps.
   */
  function Entry(k: nat): (r: SynthesisMethod)
    requires k < 4
    ensures r.id == MethodIds[k]
    ensures WellFormed(r)
  {
    match k
    case 0 =>
      SynthesisMethod(
        "solid-state",
        Localized("Solid-State", "고상 합성"),
        Localized("High-temperature sintering of solid precursors", "고체 전구체의 고온 소결 반응"),
        "🔥",
        Conditions(Range(800.0, 1400.0), Range(6.0, 48.0), ["air", "Ar", "N2", "Ar/H2 (5%)", "O2"], None),
        seq(7, i requires 0 <= i < 7 => SolidStateStep(i)),
        false)
    case 1 =>
      SynthesisMethod(
        "sol-gel",
        Localized("Sol-Gel", "솔-겔"),
        Localized("Solution-based synthesis through gel formation", "겔 형성을 통한 용액 기반 합성"),
        "🧪",
        Conditions(Range(400.0, 800.0), Range(2.0, 12.0), ["air", "N2"], None),
        seq(6, i requires 0 <= i < 6 => SolGelStep(i)),
        false)
    case 2 =>
      SynthesisMethod(
        "hydrothermal",
        Localized("Hydrothermal", "수열 합성"),
        Localized("Synthesis in aqueous solution under pressure", "고압 수용액 조건에서의 합성"),
        "💧",
        Conditions(Range(120.0, 250.0), Range(6.0, 48.0), ["autogenous pressure"], Some("1-100 atm")),
        seq(7, i requires 0 <= i < 7 => HydrothermalStep(i)),
        false)
    case _ =>
      SynthesisMethod(
        "solution",
        Localized("Solution-Based", "용액 기반"),
        Localized("Wet chemical reduction or precipitation", "습식 화학 환원 또는 침전법"),
        "⚗️",
        Conditions(Range(25.0, 100.0), Range(0.5, 6.0), ["air", "N2", "Ar"], None),
        seq(7, i requires 0 <= i < 7 => SolutionStep(i)),
        true)
  }

  const SolidState: SynthesisMethod := Entry(0)
  const SolGel: SynthesisMethod := Entry(1)
  const Hydrothermal: SynthesisMethod := Entry(2)
  const Solution: SynthesisMethod := Entry(3)

  /** The position of a catalog key, or -1 for any other string. */
  function KeyIndex(id: string): (k: int)
    ensures k < 0 <==> id !in MethodIds
    ensures 0 <= k ==> k < 4 && MethodIds[k] == id
  {
    if id == "solid-state" then 0
    else if id == "sol-gel" then 1
    else if id == "hydrothermal" then 2
    else if id == "solution" then 3
    else -1
  }

  /** `getMethod(id)`: the entry stored under `id`, or null for any other string. */
  function GetMethod(id: string): (r: Option<SynthesisMethod>)
    ensures r.Some? <==> id in MethodIds
    ensures r.Some? ==> r.value.id == id
  {
    var k := KeyIndex(id);
    if k < 0 then None else Some(Entry(k))
  }

  /** `getAllMethods()`: the entries in declaration order. */
  function GetAllMethods(): seq<SynthesisMethod> {
    [SolidState, SolGel, Hydrothermal, Solution]
  }

  /** The list holds, in key order, exactly the entries the lookup returns. */
  lemma AllMethodsInOrder()
    ensures |GetAllMethods()| == |MethodIds|
    ensures forall i :: 0 <= i < |MethodIds| ==>
      GetAllMethods()[i].id == MethodIds[i] && GetMethod(MethodIds[i]) == Some(GetAllMethods()[i])
  {
  }

  /** No two keys collide, so each key finds the entry at its own position. */
  lemma CatalogKeys()
    ensures Seqs.NoDuplicates(MethodIds)
    ensures forall k :: 0 <= k < 4 ==> GetMethod(MethodIds[k]) == Some(Entry(k))
  {
  }

  /** Condition ranges run upwards and there is always an atmosphere to pick first. */
  predicate WellFormed(m: SynthesisMethod) {
    && m.conditions.temperatureRange.min <= m.conditions.temperatureRange.max
    && m.conditions.timeRange.min <= m.conditions.timeRange.max
    && |m.conditions.atmosphere| > 0
  }

  lemma CatalogWellFormed(id: string)
    requires id in MethodIds
    ensures GetMethod(id).Some? && WellFormed(GetMethod(id).value)
  {
  }

  /** How many steps of a list carry `name`. */
  function StepsNamed(steps: seq<SynthesisStep>, name: string): (n: nat)
    ensures n <= |steps|
    ensures n == 0 <==> forall i :: 0 <= i < |steps| ==> steps[i].name != name
  {
    if steps == [] then 0
    else (if steps[0].name == name then 1 else 0) + StepsNamed(steps[1..], name)
  }

  /** The solid-state route has a single sintering step, the sixth. */
  lemma OneSinteringStep()
    ensures StepsNamed(SolidState.steps, "sintering") == 1
    ensures SolidState.steps[5].name == "sintering"
    ensures forall j :: 0 <= j < |SolidState.steps| && j != 5 ==> SolidState.steps[j].name != "sintering"
  {
    var s := SolidState.steps;
    forall i | 0 <= i < 7 && i != 5
      ensures s[i].name != "sintering"
    {
      assert s[i] == SolidStateStep(i);
    }
    StepsNamedOnce(s, "sintering", 5);
  }

  /** A name carried by exactly one step is counted once. */
  lemma {:induction false} StepsNamedOnce(steps: seq<SynthesisStep>, name: string, k: nat)
    requires k < |steps| && steps[k].name == name
    requires forall i :: 0 <= i < |steps| && i != k ==> steps[i].name != name
    ensures StepsNamed(steps, name) == 1
  {
    if k > 0 {
      StepsNamedOnce(steps[1..], name, k - 1);
    } else {
      assert forall i :: 0 <= i < |steps[1..]| ==> steps[1..][i].name != name by {
        forall i | 0 <= i < |steps[1..]|
          ensures steps[1..][i].name != name
        {
          assert steps[1..][i] == steps[i + 1];
        }
      }
    }
  }

  // ---------------------------------------------------------------
  // Reducing atmosphere
  // ---------------------------------------------------------------

  const NobleMetals: seq<string> := ["Au", "Pt", "Pd", "Ag", "Ir", "Ru", "Rh", "Os"]

  /** `targetElements.some(el => noblemetals.includes(el))`. */
  function HasNoble(elements: seq<string>): (r: bool)
    ensures r <==> exists i :: 0 <= i < |elements| && elements[i] in NobleMetals
  {
    if elements == [] then false
    else elements[0] in NobleMetals || HasNoble(elements[1..])
  }

  /**
   * `needsReducingAtmosphere(method, targetElements)`: only a solid-state
   * route with a noble metal among the targets asks for a reducing gas;
   * the method's `reducingRequired` flag is not consulted.
   */
  function NeedsReducingAtmosphere(methodId: string, elements: seq<string>): (r: bool)
    ensures r <==> methodId == "solid-state" && exists i :: 0 <= i < |elements| && elements[i] in NobleMetals
  {
    methodId == "solid-state" && HasNoble(elements)
  }

  /** Only the element set matters: the verdict for a concatenation is the disjunction. */
  lemma {:induction false} NeedsReducingAppend(methodId: string, a: seq<string>, b: seq<string>)
    ensures NeedsReducingAtmosphere(methodId, a + b) <==>
            NeedsReducingAtmosphere(methodId, a) || NeedsReducingAtmosphere(methodId, b)
  {
    if a != [] {
      assert (a + b)[0] == a[0] && (a + b)[1..] == a[1..] + b;
      NeedsReducingAppend(methodId, a[1..], b);
    } else {
      assert a + b == b;
    }
  }

  /** The solution route sets `reducingRequired`, yet never gets a reducing atmosphere. */
  lemma ReducingFlagIgnored(elements: seq<string>)
    ensures GetMethod("solution").value.reducingRequired
    ensures !NeedsReducingAtmosphere("solution", elements)
  {
  }

  /** Gold under solid-state needs it; cobalt oxide does not. */
  lemma GoldNeedsReducing()
    ensures NeedsReducingAtmosphere("solid-state", ["Au"])
    ensures !NeedsReducingAtmosphere("solid-state", ["Co", "O"])
    ensures !NeedsReducingAtmosphere("sol-gel", ["Au"])
  {
    assert ["Au"][0] == "Au";
  }
}
