/**
 * The research lab's combination screening. Every k-element combination of
 * an element universe gets a score from what the materials database knows
 * about its chemical system and how many literature recipes its formula
 * finds; the combinations that score are reported best first.
 */
module Research {
  import opened Wrappers
  import Text
  import Seqs
  import SynthesisData
  import ParseSynthesis
  import opened ElementCombinations

  /**
   * One material the materials database returns for a chemical system: its
   * reduced formula and, when known, its energy above the convex hull.
   */
  datatype MaterialHit = MaterialHit(formula: string, energyAboveHull: Option<real>)

  /** What the screening reports about one combination. */
  datatype Candidate = Candidate(
    elements: seq<string>,
    formula: string,
    materialsFound: nat,
    stablePhases: nat,
    synthesisRecipes: nat,
    score: int,
    reasoning: seq<string>,
    knownPhases: seq<string>)

  /** The weights: 2 per material found, 10 per stable phase, 5 per recipe. */
  function Score(materials: nat, stable: nat, recipes: nat): int {
    materials * 2 + stable * 10 + recipes * 5
  }

  /** One more material, stable phase or recipe raises the score by exactly 2, 10 or 5. */
  lemma ScoreIncrements(m: nat, s: nat, r: nat)
    ensures Score(m + 1, s, r) == Score(m, s, r) + 2
    ensures Score(m, s + 1, r) == Score(m, s, r) + 10
    ensures Score(m, s, r + 1) == Score(m, s, r) + 5
  {
  }

  /** All counts are non-negative, so a zero score means nothing was found. */
  lemma ScoreZeroIff(m: nat, s: nat, r: nat)
    ensures Score(m, s, r) >= 0
    ensures Score(m, s, r) == 0 <==> m == 0 && s == 0 && r == 0
  {
  }

  // Stable phases and known phases

  /** A phase counts as stable when its energy above the hull is below 0.05 eV/atom. */
  predicate IsStable(h: MaterialHit) {
    h.energyAboveHull.Some? && h.energyAboveHull.value < 0.05
  }

  /** How many hits are stable. */
  function StableCount(hits: seq<MaterialHit>): nat {
    if hits == [] then 0
    else StableCount(hits[..|hits| - 1]) + (if IsStable(hits[|hits| - 1]) then 1 else 0)
  }

  lemma {:induction false} StableCountBound(hits: seq<MaterialHit>)
    ensures StableCount(hits) <= |hits|
    ensures StableCount(hits) == |Seqs.Filter(hits, IsStable)|
  {
    if hits != [] {
      var init, last := hits[..|hits| - 1], hits[|hits| - 1];
      StableCountBound(init);
      assert hits == init + [last];
      Seqs.FilterAppend(init, [last], IsStable);
    }
  }

  predicate NonEmpty(s: string) {
    s != ""
  }

  /** `hits.map(h => h.formula)`. */
  function Formulas(hits: seq<MaterialHit>): (r: seq<string>)
    ensures |r| == |hits| && forall i :: 0 <= i < |hits| ==> r[i] == hits[i].formula
  {
    seq(|hits|, i requires 0 <= i < |hits| => hits[i].formula)
  }

  /** The distinct non-empty formulas of the first three hits, in order of first appearance. */
  function KnownPhases(hits: seq<MaterialHit>): seq<string> {
    Seqs.Dedup(Seqs.Filter(Formulas(Seqs.SliceTo(hits, 3)), NonEmpty))
  }

  /** At most three, all different, none empty, each the formula of one of the first three hits. */
  lemma KnownPhasesFacts(hits: seq<MaterialHit>)
    ensures |KnownPhases(hits)| <= 3
    ensures Seqs.NoDuplicates(KnownPhases(hits))
    ensures forall k :: 0 <= k < |KnownPhases(hits)| ==>
              KnownPhases(hits)[k] != "" && exists j :: 0 <= j < 3 && j < |hits| && hits[j].formula == KnownPhases(hits)[k]
  {
    var names := Seqs.Filter(Formulas(Seqs.SliceTo(hits, 3)), NonEmpty);
    var known := KnownPhases(hits);
    DedupShorter(names);
    forall k | 0 <= k < |known|
      ensures known[k] != "" && exists j :: 0 <= j < 3 && j < |hits| && hits[j].formula == known[k]
    {
      assert known[k] in names;
      var firstThree := Seqs.SliceTo(hits, 3);
      var j :| 0 <= j < |firstThree| && Formulas(firstThree)[j] == known[k];
      assert hits[j] == firstThree[j];
    }
  }

  lemma {:induction false} DedupShorter<T>(s: seq<T>)
    ensures |Seqs.Dedup(s)| <= |s|
  {
    if s != [] {
      var init := s[..|s| - 1];
      DedupShorter(init);
      assert s == init + [s[|s| - 1]];
      Seqs.DedupSnoc(init, s[|s| - 1]);
    }
  }

  // Reasons

  const NobleList: seq<string> := ["Pt", "Pd", "Ir", "Ru", "Rh", "Au", "Ag"]
  const MagneticList: seq<string> := ["Fe", "Co", "Ni"]
  const RefractoryList: seq<string> := ["W", "Mo", "Ta", "Nb", "Re"]

  function NobleReason(): string { "귀금속 포함 → 촉매/전극 응용 가능" }
  function MagneticReason(): string { "자성 원소 포함 → 자성체/스핀트로닉스 응용" }
  function RefractoryReason(): string { "고융점 원소 포함 → 고온 구조재료 응용" }
  function FallbackReason(): string { "데이터베이스에 관련 정보 있음" }

  /** `elements.some(e => list.includes(e))`. */
  predicate HasAny(elements: seq<string>, list: seq<string>) {
    exists k :: 0 <= k < |elements| && elements[k] in list
  }

  function MaterialsReason(n: nat): string {
    "Materials Project에서 " + Text.NatText(n) + "개 화합물 발견"
  }

  function StableReason(n: nat): string {
    Text.NatText(n) + "개 열역학적 안정상 존재 (E_hull ≈ 0)"
  }

  function RecipeReason(n: nat): string {
    Text.NatText(n) + "개 합성 레시피 존재 → 실험적 합성 가능성 높음"
  }

  /** The reasons drawn from the counts, in the order they are pushed. */
  function CountReasons(m: nat, s: nat, r: nat): (reasons: seq<string>)
    ensures |reasons| > 0 <==> Score(m, s, r) > 0
  {
    (if m > 0 then [MaterialsReason(m)] else [])
    + (if s > 0 then [StableReason(s)] else [])
    + (if r > 0 then [RecipeReason(r)] else [])
  }

  /** The reasons drawn from which elements the combination holds. */
  function DomainReasons(elements: seq<string>): seq<string> {
    (if HasAny(elements, NobleList) then [NobleReason()] else [])
    + (if HasAny(elements, MagneticList) then [MagneticReason()] else [])
    + (if HasAny(elements, RefractoryList) then [RefractoryReason()] else [])
  }

  /** Each domain reason is given exactly when the combination holds an element of its list. */
  lemma DomainReasonsIff(elements: seq<string>)
    ensures NobleReason() in DomainReasons(elements) <==> HasAny(elements, NobleList)
    ensures MagneticReason() in DomainReasons(elements) <==> HasAny(elements, MagneticList)
    ensures RefractoryReason() in DomainReasons(elements) <==> HasAny(elements, RefractoryList)
  {
    assert NobleReason()[0] != MagneticReason()[0] && NobleReason()[0] != RefractoryReason()[0];
    assert MagneticReason()[0] != RefractoryReason()[0];
  }

  /** Osmium is a noble metal of the element groups but not of the reasons' list. */
  lemma OsmiumGivesNoNobleReason()
    ensures "Os" in NobleMetals && !HasAny(["Os"], NobleList)
  {
  }

  /** The whole reasoning list; the catch-all reason is added when a positive score found no reason. */
  function Reasons(m: nat, s: nat, r: nat, elements: seq<string>): seq<string> {
    var found := CountReasons(m, s, r) + DomainReasons(elements);
    found + (if Score(m, s, r) > 0 && |found| == 0 then [FallbackReason()] else [])
  }

  /**
   * A positive score always has a reason from its counts, so the catch-all
   * reason is never added: every scoring combination has at least one reason.
   */
  lemma FallbackNeverAdded(m: nat, s: nat, r: nat, elements: seq<string>)
    ensures Reasons(m, s, r, elements) == CountReasons(m, s, r) + DomainReasons(elements)
    ensures Score(m, s, r) > 0 ==> |Reasons(m, s, r, elements)| > 0
  {
  }

  // Screening one combination

  /**
   * The screening of one combination. `lookup(elements, limit)` stands for the
   * materials-database search of the chemical system: it receives the
   * elements sorted (the search sorts its argument in place, so the result
   * reports them sorted too), and a failed search gives no hits. `recipes`
   * is the web recipe subset that the web formula search reads.
   */
  function Screen(combo: seq<string>, recipes: seq<SynthesisData.Recipe>,
                  lookup: (seq<string>, nat) -> seq<MaterialHit>): (c: Candidate)
  {
    var elements := Text.SortStrings(combo);
    var hits := lookup(elements, 5);
    var formula := Text.Join(combo, "");
    var m, s := |hits|, StableCount(hits);
    var r := |ParseSynthesis.WebSearchByFormula(recipes, formula, 5)|;
    Candidate(elements, formula, m, s, r, Score(m, s, r), Reasons(m, s, r, elements), KnownPhases(hits))
  }

  /** What one screening result satisfies. */
  lemma ScreenFacts(combo: seq<string>, recipes: seq<SynthesisData.Recipe>,
                    lookup: (seq<string>, nat) -> seq<MaterialHit>)
    ensures var c := Screen(combo, recipes, lookup);
      && Text.StringsSorted(c.elements) && multiset(c.elements) == multiset(combo)
      && c.formula == Text.Join(combo, "")
      && c.stablePhases <= c.materialsFound
      && c.synthesisRecipes <= 5
      && c.score == Score(c.materialsFound, c.stablePhases, c.synthesisRecipes)
      && (c.score > 0 ==> |c.reasoning| > 0)
      && (c.score == 0 <==> c.materialsFound == 0 && c.stablePhases == 0 && c.synthesisRecipes == 0)
      && |c.knownPhases| <= 3 && Seqs.NoDuplicates(c.knownPhases)
  {
    var c := Screen(combo, recipes, lookup);
    Text.SortStringsCorrect(combo);
    StableCountBound(lookup(c.elements, 5));
    KnownPhasesFacts(lookup(c.elements, 5));
  }

  /** Sorting keeps the members, so the domain reasons follow the combination as given. */
  lemma SortedMembers(combo: seq<string>, list: seq<string>)
    ensures HasAny(Text.SortStrings(combo), list) <==> HasAny(combo, list)
  {
    var sorted := Text.SortStrings(combo);
    Text.SortStringsCorrect(combo);
    if HasAny(combo, list) {
      var k :| 0 <= k < |combo| && combo[k] in list;
      assert combo[k] in multiset(sorted);
    }
    if HasAny(sorted, list) {
      var k :| 0 <= k < |sorted| && sorted[k] in list;
      assert sorted[k] in multiset(combo);
    }
  }

  /** The known-phases loop over the first three hits. */
  method CollectKnownPhases(hits: seq<MaterialHit>) returns (knownPhases: seq<string>)
    ensures knownPhases == KnownPhases(hits)
  {
    var firstThree := Seqs.SliceTo(hits, 3);
    knownPhases := [];
    var i := 0;
    while i < |firstThree|
      invariant 0 <= i <= |firstThree|
      invariant knownPhases == Seqs.Dedup(Seqs.Filter(Formulas(firstThree)[..i], NonEmpty))
    {
      var phaseName := firstThree[i].formula;
      PhasesStep(Formulas(firstThree), i);
      if phaseName != "" && phaseName !in knownPhases {
        knownPhases := knownPhases + [phaseName];
      }
      i := i + 1;
    }
    assert Formulas(firstThree)[..i] == Formulas(firstThree);
  }

  /** The loop counting hull values below the threshold. */
  method CountStable(hits: seq<MaterialHit>) returns (stablePhases: nat)
    ensures stablePhases == StableCount(hits)
  {
    stablePhases := 0;
    var j := 0;
    while j < |hits|
      invariant 0 <= j <= |hits|
      invariant stablePhases == StableCount(hits[..j])
    {
      assert hits[..j + 1][..j] == hits[..j];
      if IsStable(hits[j]) {
        stablePhases := stablePhases + 1;
      }
      j := j + 1;
    }
    assert hits[..j] == hits;
  }

  /** The pushes of the reasons drawn from the counts. */
  method AddCountReasons(m: nat, s: nat, r: nat) returns (reasoning: seq<string>)
    ensures reasoning == CountReasons(m, s, r)
  {
    reasoning := [];
    if m > 0 {
      reasoning := reasoning + [MaterialsReason(m)];
    }
    if s > 0 {
      reasoning := reasoning + [StableReason(s)];
    }
    if r > 0 {
      reasoning := reasoning + [RecipeReason(r)];
    }
  }

  /** The pushes of the reasons drawn from the elements. */
  method AddDomainReasons(before: seq<string>, elements: seq<string>) returns (reasoning: seq<string>)
    ensures reasoning == before + DomainReasons(elements)
  {
    reasoning := before;
    if HasAny(elements, NobleList) {
      reasoning := reasoning + [NobleReason()];
    }
    if HasAny(elements, MagneticList) {
      reasoning := reasoning + [MagneticReason()];
    }
    if HasAny(elements, RefractoryList) {
      reasoning := reasoning + [RefractoryReason()];
    }
  }

  /** The reasons pushed one after another, then the catch-all. */
  method CollectReasons(m: nat, s: nat, r: nat, elements: seq<string>) returns (reasoning: seq<string>)
    ensures reasoning == Reasons(m, s, r, elements)
  {
    var counted := AddCountReasons(m, s, r);
    reasoning := AddDomainReasons(counted, elements);
    if Score(m, s, r) > 0 && |reasoning| == 0 {
      reasoning := reasoning + [FallbackReason()];
    }
  }

  /**
   * `screenCombination`: the formula, the database search on the sorted
   * elements, the count of materials, the known phases from the first three,
   * the count of stable phases, the web recipe count, the reasons and the
   * score.
   */
  method ScreenCombination(combo: seq<string>, recipes: seq<SynthesisData.Recipe>,
                           lookup: (seq<string>, nat) -> seq<MaterialHit>) returns (c: Candidate)
    ensures c == Screen(combo, recipes, lookup)
  {
    var formula := Text.Join(combo, "");
    var elements := Text.SortStrings(combo);
    var hits := lookup(elements, 5);
    var materialsFound := |hits|;
    var knownPhases := CollectKnownPhases(hits);
    var stablePhases := CountStable(hits);
    var synthesisRecipes := |ParseSynthesis.WebSearchByFormula(recipes, formula, 5)|;
    var reasoning := CollectReasons(materialsFound, stablePhases, synthesisRecipes, elements);
    var score := Score(materialsFound, stablePhases, synthesisRecipes);
    c := Candidate(elements, formula, materialsFound, stablePhases, synthesisRecipes, score, reasoning, knownPhases);
  }

  /** One step of the known-phases loop. */
  lemma PhasesStep(names: seq<string>, i: nat)
    requires i < |names|
    ensures Seqs.Dedup(Seqs.Filter(names[..i + 1], NonEmpty))
         == var d := Seqs.Dedup(Seqs.Filter(names[..i], NonEmpty));
            if names[i] != "" && names[i] !in d then d + [names[i]] else d
  {
    var before := Seqs.Filter(names[..i], NonEmpty);
    assert names[..i + 1] == names[..i] + [names[i]];
    Seqs.FilterAppend(names[..i], [names[i]], NonEmpty);
    if names[i] != "" {
      assert Seqs.Filter([names[i]], NonEmpty) == [names[i]];
      Seqs.DedupSnoc(before, names[i]);
      Seqs.DedupMembers(before);
    } else {
      assert Seqs.Filter([names[i]], NonEmpty) == [];
      assert before + [] == before;
    }
  }

  // Conducting the research

  /**
   * The element universe: the group the question names, else the symbols it
   * mentions, else the first twelve common transition metals.
   */
  function Universe(message: string): (r: seq<string>)
    ensures ParseElementGroup(message).Some? ==> r == GroupElements(ParseElementGroup(message).value)
    ensures ParseElementGroup(message).None? && |MentionedElements(message)| > 0 ==> r == MentionedElements(message)
    ensures ParseElementGroup(message).None? && |MentionedElements(message)| == 0 ==> r == CommonTransitionMetals[..12]
    ensures |r| > 0
  {
    var group := ParseElementGroup(message);
    var query := ParseResearchQuery(message);
    if group.Some? then GroupElements(group.value)
    else if query.elements.Some? && |query.elements.value| > 0 then query.elements.value
    else CommonTransitionMetals[..12]
  }

  /** `p` lists each index below `n` once. */
  predicate IsPermutation(p: seq<nat>, n: nat) {
    |p| == n && (forall i :: 0 <= i < n ==> p[i] < n)
    && (forall i, j :: 0 <= i < j < n ==> p[i] != p[j])
    && (forall v :: 0 <= v < n ==> v in p)
  }

  /** The elements of `all` at the indices `p` lists, in that order. */
  function Pick<T>(all: seq<T>, p: seq<nat>): (r: seq<T>)
    requires forall i :: 0 <= i < |p| ==> p[i] < |all|
    ensures |r| == |p| && forall i :: 0 <= i < |p| ==> r[i] == all[p[i]]
  {
    seq(|p|, i requires 0 <= i < |p| => all[p[i]])
  }

  /**
   * Picking by a permutation reorders and neither adds nor drops: the
   * index of the last element is taken out of `p`, and the rest is a
   * permutation of the shorter list.
   */
  lemma {:induction false} PickPermutation<T>(all: seq<T>, p: seq<nat>)
    requires IsPermutation(p, |all|)
    ensures multiset(Pick(all, p)) == multiset(all)
    decreases |all|
  {
    if |all| > 0 {
      var q := PermutationStep(all, p);
      PickPermutation(all[..|all| - 1], q);
      assert all == all[..|all| - 1] + [all[|all| - 1]];
    }
  }

  /**
   * One step of the induction: the entry of `p` naming the last element is
   * taken out, which leaves a permutation `q` of the shorter list, and
   * picking by `p` is picking by `q` with the last element added.
   */
  lemma PermutationStep<T>(all: seq<T>, p: seq<nat>) returns (q: seq<nat>)
    requires |all| > 0 && IsPermutation(p, |all|)
    ensures IsPermutation(q, |all| - 1)
    ensures multiset(Pick(all, p)) == multiset(Pick(all[..|all| - 1], q)) + multiset{all[|all| - 1]}
  {
    var n := |all|;
    assert n - 1 in p;
    var k := Seqs.IndexOf(p, n - 1);
    q := DropIndex(p, k);
    DropLast(p, k);
    PickSplit(all, p, k);
    MultisetInsert(Pick(all[..n - 1], q), k, all[n - 1]);
  }

  lemma MultisetInsert<T>(s: seq<T>, k: nat, x: T)
    requires k <= |s|
    ensures multiset(s[..k] + [x] + s[k..]) == multiset(s) + multiset{x}
  {
    assert s == s[..k] + s[k..];
  }

  /** `p` without its entry at `k`. */
  function DropIndex(p: seq<nat>, k: nat): (q: seq<nat>)
    requires k < |p|
    ensures |q| == |p| - 1
    ensures forall i :: 0 <= i < |q| ==> q[i] == if i < k then p[i] else p[i + 1]
  {
    p[..k] + p[k + 1..]
  }

  /** Dropping the entry that holds the largest index leaves a permutation of one fewer. */
  lemma DropLast(p: seq<nat>, k: nat)
    requires |p| > 0 && IsPermutation(p, |p|) && k < |p| && p[k] == |p| - 1
    ensures IsPermutation(DropIndex(p, k), |p| - 1)
  {
    var n := |p|;
    var q := DropIndex(p, k);
    forall i | 0 <= i < n - 1
      ensures q[i] < n - 1
    {
      assert q[i] == p[if i < k then i else i + 1];
    }
    forall i, j | 0 <= i < j < n - 1
      ensures q[i] != q[j]
    {
      assert q[i] == p[if i < k then i else i + 1];
      assert q[j] == p[if j < k then j else j + 1];
    }
    forall v | 0 <= v < n - 1
      ensures v in q
    {
      assert v in p;
      var j :| 0 <= j < n && p[j] == v;
      if j < k {
        assert q[j] == v;
      } else {
        assert q[j - 1] == v;
      }
    }
  }

  /** Picking by `p` is picking by `p` without entry `k` from the front, with the last element put back at `k`. */
  lemma PickSplit<T>(all: seq<T>, p: seq<nat>, k: nat)
    requires |all| > 0 && IsPermutation(p, |all|) && k < |p| && p[k] == |all| - 1
    requires IsPermutation(DropIndex(p, k), |all| - 1)
    ensures var rest := Pick(all[..|all| - 1], DropIndex(p, k));
      Pick(all, p) == rest[..k] + [all[|all| - 1]] + rest[k..]
  {
    var n := |all|;
    var rest := Pick(all[..n - 1], DropIndex(p, k));
    var whole := rest[..k] + [all[n - 1]] + rest[k..];
    forall i | 0 <= i < n
      ensures Pick(all, p)[i] == whole[i]
    {
      if i < k {
        assert whole[i] == rest[i];
      } else if i > k {
        assert whole[i] == rest[i - 1];
      }
    }
  }

  /**
   * The shuffle: the combinations in the order `perm` gives. The source sorts
   * with a random comparator, which yields some order of the list; `perm` is
   * that order (ignored when it is not a permutation, where the list stays
   * as it is).
   */
  function Shuffle<T>(all: seq<T>, perm: seq<nat>): (r: seq<T>)
    ensures multiset(r) == multiset(all)
    ensures |r| == |all|
    ensures forall i :: 0 <= i < |r| ==> r[i] in all
  {
    if IsPermutation(perm, |all|) then
      PickPermutation(all, perm);
      Pick(all, perm)
    else all
  }

  /**
   * The combinations screened: all of them when there are at most 30, else
   * the first 30 of the shuffled list, which take each combination at most
   * as often as the list holds it.
   */
  function Selection<T>(all: seq<T>, perm: seq<nat>): (r: seq<T>)
    ensures |all| <= 30 ==> r == all
    ensures |all| > 30 ==> |r| == 30 && multiset(r) <= multiset(all) && forall i :: 0 <= i < 30 ==> r[i] in all
  {
    if |all| > 30 then
      var shuffled := Shuffle(all, perm);
      assert shuffled == shuffled[..30] + shuffled[30..];
      shuffled[..30]
    else all
  }

  /** The screening results that score, in the order the combinations were screened. */
  function Kept(combos: seq<seq<string>>, recipes: seq<SynthesisData.Recipe>,
                lookup: (seq<string>, nat) -> seq<MaterialHit>): seq<Candidate>
  {
    if combos == [] then []
    else
      var c := Screen(combos[|combos| - 1], recipes, lookup);
      Kept(combos[..|combos| - 1], recipes, lookup) + (if c.score > 0 then [c] else [])
  }

  lemma {:induction false} KeptScore(combos: seq<seq<string>>, recipes: seq<SynthesisData.Recipe>,
                                     lookup: (seq<string>, nat) -> seq<MaterialHit>)
    ensures forall i :: 0 <= i < |Kept(combos, recipes, lookup)| ==> Kept(combos, recipes, lookup)[i].score > 0
    ensures |Kept(combos, recipes, lookup)| <= |combos|
  {
    if combos != [] {
      var prefix := combos[..|combos| - 1];
      KeptScore(prefix, recipes, lookup);
      KeepIfScoring(Kept(prefix, recipes, lookup), Screen(combos[|combos| - 1], recipes, lookup));
    }
  }

  /** Keeping one more result only when it scores keeps every kept result scoring, and adds at most one. */
  lemma KeepIfScoring(kept: seq<Candidate>, c: Candidate)
    requires forall i :: 0 <= i < |kept| ==> kept[i].score > 0
    ensures var next := kept + (if c.score > 0 then [c] else []);
      |next| <= |kept| + 1 && forall i :: 0 <= i < |next| ==> next[i].score > 0
  {
  }

  lemma KeptSnoc(combos: seq<seq<string>>, i: nat, recipes: seq<SynthesisData.Recipe>,
                 lookup: (seq<string>, nat) -> seq<MaterialHit>)
    requires i < |combos|
    ensures Kept(combos[..i + 1], recipes, lookup)
         == Kept(combos[..i], recipes, lookup)
            + (if Screen(combos[i], recipes, lookup).score > 0 then [Screen(combos[i], recipes, lookup)] else [])
  {
    assert combos[..i + 1][..i] == combos[..i];
  }

  /** The sort key of `(a, b) => b.score - a.score`: descending score. */
  function NegScore(c: Candidate): int {
    -c.score
  }

  /** The top fifteen of the scoring results by descending score, ties in screening order. */
  function TopCandidates(kept: seq<Candidate>): seq<Candidate> {
    Seqs.SliceTo(Seqs.SortBy(kept, NegScore), 15)
  }

  /**
   * The reported candidates: the best fifteen of the scoring results (all of
   * them when there are fewer), by non-increasing score, each taken from the
   * results at most as often as it occurs there, and no result left out
   * scores more than one reported.
   */
  lemma TopCandidatesFacts(kept: seq<Candidate>)
    requires forall i :: 0 <= i < |kept| ==> kept[i].score > 0
    ensures |TopCandidates(kept)| == if |kept| < 15 then |kept| else 15
    ensures multiset(TopCandidates(kept)) <= multiset(kept)
    ensures forall i :: 0 <= i < |TopCandidates(kept)| ==> TopCandidates(kept)[i].score > 0 && TopCandidates(kept)[i] in kept
    ensures forall i, j :: 0 <= i < j < |TopCandidates(kept)| ==> TopCandidates(kept)[i].score >= TopCandidates(kept)[j].score
    ensures forall c, i :: c in multiset(kept) - multiset(TopCandidates(kept)) && 0 <= i < |TopCandidates(kept)| ==>
      c.score <= TopCandidates(kept)[i].score
  {
    var sorted := Seqs.SortBy(kept, NegScore);
    Seqs.SortByCorrect(kept, NegScore);
    var top := TopCandidates(kept);
    assert top == sorted[..|top|];
    SortedPrefixBest(sorted, |top|);
    forall i | 0 <= i < |top|
      ensures top[i].score > 0 && top[i] in kept
    {
      assert top[i] == sorted[i];
      assert sorted[i] in multiset(kept);
    }
  }

  /** A prefix of a list sorted by descending score is sorted and holds its best entries. */
  lemma SortedPrefixBest(sorted: seq<Candidate>, n: nat)
    requires n <= |sorted| && Seqs.SortedBy(sorted, NegScore)
    ensures multiset(sorted[..n]) <= multiset(sorted)
    ensures forall i, j :: 0 <= i < j < n ==> sorted[..n][i].score >= sorted[..n][j].score
    ensures forall c, i :: c in multiset(sorted) - multiset(sorted[..n]) && 0 <= i < n ==> c.score <= sorted[..n][i].score
  {
    var top := sorted[..n];
    var rest := sorted[n..];
    assert sorted == top + rest;
    assert multiset(sorted) == multiset(top) + multiset(rest);
    forall i, j | 0 <= i < j < n
      ensures top[i].score >= top[j].score
    {
      assert NegScore(sorted[i]) <= NegScore(sorted[j]);
    }
    forall c, i | c in multiset(sorted) - multiset(top) && 0 <= i < n
      ensures c.score <= top[i].score
    {
      assert c in multiset(rest);
      var j :| 0 <= j < |rest| && rest[j] == c;
      assert sorted[n + j] == c;
      assert NegScore(sorted[i]) <= NegScore(sorted[n + j]);
    }
  }

  /**
   * The first half of `conductResearch`: the universe and the system size
   * from the question, the count, the cap of 30, the combinations and the
   * shuffled sample when there are more than the cap.
   */
  method SelectCombinations(message: string, perm: seq<nat>) returns (screened: seq<seq<string>>)
    ensures screened == Selection(Combinations(Universe(message), ParseSystemSizeAsWritten(message)), perm)
  {
    var elements := Universe(message);
    var systemSize := ParseSystemSizeAsWritten(message);
    var totalCombinations := CombinationCount(|elements|, systemSize);
    var maxScreening := if totalCombinations < 30 then totalCombinations else 30;
    var allCombinations := GenerateCombinations(elements, systemSize);
    CountMatches(elements, systemSize);
    if systemSize == |elements| {
      BinomAll(|elements|);
    }
    assert totalCombinations == |allCombinations|;
    screened := allCombinations;
    if |allCombinations| > maxScreening {
      screened := Shuffle(allCombinations, perm)[..maxScreening];
    }
  }

  /** The screening loop: every combination screened, the scoring ones kept in order. */
  method ScreenAll(screened: seq<seq<string>>, recipes: seq<SynthesisData.Recipe>,
                   lookup: (seq<string>, nat) -> seq<MaterialHit>) returns (kept: seq<Candidate>)
    ensures kept == Kept(screened, recipes, lookup)
  {
    kept := [];
    var i := 0;
    while i < |screened|
      invariant 0 <= i <= |screened|
      invariant kept == Kept(screened[..i], recipes, lookup)
    {
      var result := ScreenCombination(screened[i], recipes, lookup);
      KeptSnoc(screened, i, recipes, lookup);
      if result.score > 0 {
        kept := kept + [result];
      }
      i := i + 1;
    }
    assert screened[..i] == screened;
  }

  /**
   * `conductResearch`: the combinations selected, each screened, and the
   * scoring ones sorted by score with the top fifteen returned. `screened`
   * is the list of combinations screened.
   */
  method ConductResearch(message: string, recipes: seq<SynthesisData.Recipe>,
                         lookup: (seq<string>, nat) -> seq<MaterialHit>, perm: seq<nat>)
    returns (candidates: seq<Candidate>, screened: seq<seq<string>>)
    ensures screened == Selection(Combinations(Universe(message), ParseSystemSizeAsWritten(message)), perm)
    ensures candidates == TopCandidates(Kept(screened, recipes, lookup))
    ensures |candidates| == if |Kept(screened, recipes, lookup)| < 15 then |Kept(screened, recipes, lookup)| else 15
    ensures multiset(candidates) <= multiset(Kept(screened, recipes, lookup))
    ensures forall i :: 0 <= i < |candidates| ==> candidates[i].score > 0
    ensures forall i, j :: 0 <= i < j < |candidates| ==> candidates[i].score >= candidates[j].score
    ensures forall c, i :: c in multiset(Kept(screened, recipes, lookup)) - multiset(candidates) && 0 <= i < |candidates| ==>
      c.score <= candidates[i].score
  {
    screened := SelectCombinations(message, perm);
    var kept := ScreenAll(screened, recipes, lookup);
    KeptScore(screened, recipes, lookup);
    TopCandidatesFacts(kept);
    candidates := TopCandidates(kept);
  }
}
