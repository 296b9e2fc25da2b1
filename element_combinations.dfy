/**
 * Element groups, all k-element combinations of a list, the binomial count
 * of them, and the reading of a research question: the element group or the
 * element symbols it names, the size of system it asks for, whether it wants
 * stable phases and which application it is about.
 */
module ElementCombinations {
  import opened Wrappers
  import Text
  import Seqs

  // ---------------------------------------------------------------------
  // Element groups
  // ---------------------------------------------------------------------

  /** Common transition metals, leaving out radioactive and rare ones. */
  const CommonTransitionMetals: seq<string> := [
    "Ti", "V", "Cr", "Mn", "Fe", "Co", "Ni", "Cu", "Zn",
    "Zr", "Nb", "Mo", "Ru", "Rh", "Pd", "Ag",
    "Hf", "Ta", "W", "Re", "Os", "Ir", "Pt", "Au"]

  /** Noble metals, the ones used for catalysis. */
  const NobleMetals: seq<string> := ["Ru", "Rh", "Pd", "Os", "Ir", "Pt", "Au", "Ag"]

  /** The named element groups. */
  datatype ElementGroup =
    | TransitionMetals | NobleMetalGroup | Alkali | AlkalineEarth
    | Lanthanides | Chalcogens | Halogens | Pnictogens

  /** The elements of a group, in the order the group lists them. */
  function GroupElements(g: ElementGroup): (r: seq<string>)
    ensures |r| > 0
  {
    match g
    case TransitionMetals => CommonTransitionMetals
    case NobleMetalGroup => NobleMetals
    case Alkali => ["Li", "Na", "K", "Rb", "Cs"]
    case AlkalineEarth => ["Be", "Mg", "Ca", "Sr", "Ba"]
    case Lanthanides => ["La", "Ce", "Pr", "Nd", "Sm", "Eu", "Gd", "Tb", "Dy", "Ho", "Er", "Tm", "Yb", "Lu"]
    case Chalcogens => ["O", "S", "Se", "Te"]
    case Halogens => ["F", "Cl", "Br", "I"]
    case Pnictogens => ["N", "P", "As", "Sb", "Bi"]
  }

  // ---------------------------------------------------------------------
  // Binomial coefficients
  // ---------------------------------------------------------------------

  /** The number of k-element subsets of an n-element set, by Pascal's rule. */
  function Binom(n: nat, k: int): nat
    decreases n
  {
    if k < 0 then 0
    else if k == 0 then 1
    else if n == 0 then 0
    else Binom(n - 1, k - 1) + Binom(n - 1, k)
  }

  /** There are no subsets larger than the set. */
  lemma {:induction false} BinomAbove(n: nat, k: int)
    requires k > n
    ensures Binom(n, k) == 0
    decreases n
  {
    if n > 0 {
      BinomAbove(n - 1, k - 1);
      BinomAbove(n - 1, k);
    }
  }

  /** The whole set is its only subset of its own size. */
  lemma {:induction false} BinomAll(n: nat)
    ensures Binom(n, n) == 1
    decreases n
  {
    if n > 0 {
      BinomAll(n - 1);
      BinomAbove(n - 1, n);
    }
  }

  /**
   * The multiplicative step: (k+1)·C(n, k+1) = (n-k)·C(n, k). It is what
   * makes the product (n/1)·((n-1)/2)·… of the count loop binomial.
   */
  lemma {:induction false} BinomStep(n: nat, k: nat)
    requires k < n
    ensures (k + 1) * Binom(n, k + 1) == (n - k) * Binom(n, k)
    decreases n
  {
    if k == 0 {
      // C(n, 1) = n
      BinomOne(n);
    } else {
      var a, b, c := Binom(n - 1, k - 1), Binom(n - 1, k), Binom(n - 1, k + 1);
      BinomStep(n - 1, k - 1);
      assert k * b == (n - k) * a;
      if k < n - 1 {
        BinomStep(n - 1, k);
      } else {
        BinomAbove(n - 1, k + 1);
      }
      assert (k + 1) * c == (n - 1 - k) * b;
      assert Binom(n, k + 1) == b + c && Binom(n, k) == a + b;
      StepArithmetic(n, k, a, b, c);
    }
  }

  /** Both sides of BinomStep are n·C(n-1, k). */
  lemma StepArithmetic(n: int, k: int, a: int, b: int, c: int)
    requires k * b == (n - k) * a && (k + 1) * c == (n - 1 - k) * b
    ensures (k + 1) * (b + c) == (n - k) * (a + b)
  {
    calc {
      (k + 1) * (b + c);
      (k + 1) * b + (k + 1) * c;
      (k + 1) * b + (n - 1 - k) * b;
      n * b;
      k * b + (n - k) * b;
      (n - k) * a + (n - k) * b;
      (n - k) * (a + b);
    }
  }

  lemma {:induction false} BinomOne(n: nat)
    ensures Binom(n, 1) == n
    decreases n
  {
    if n > 0 {
      BinomOne(n - 1);
    }
  }

  // ---------------------------------------------------------------------
  // Combinations
  // ---------------------------------------------------------------------

  /**
   * What `combine(start, combo)` appends to the result: `combo` itself once
   * it has `size` elements, else, for every index i from `start` on, the
   * combinations that continue `combo` with `arr[i]`.
   */
  function CombsFrom<T>(arr: seq<T>, size: int, start: nat, combo: seq<T>): seq<seq<T>>
    requires start <= |arr|
    decreases |arr| - start, 1
  {
    if |combo| == size then [combo] else CombsLoop(arr, size, combo, start)
  }

  /** The iterations of the loop of `combine` from index `i` on. */
  function CombsLoop<T>(arr: seq<T>, size: int, combo: seq<T>, i: nat): seq<seq<T>>
    requires i <= |arr|
    decreases |arr| - i, 0
  {
    if i == |arr| then []
    else CombsFrom(arr, size, i + 1, combo + [arr[i]]) + CombsLoop(arr, size, combo, i + 1)
  }

  /** The combinations `generateCombinations(arr, size)` returns. */
  function Combinations<T>(arr: seq<T>, size: int): seq<seq<T>> {
    CombsFrom(arr, size, 0, [])
  }

  /**
   * `combine`: the recursion with its loop. The source pushes onto one shared
   * `combo` array and pops after the recursive call; here `combo` is a value
   * and the call receives `combo + [arr[i]]`, which is what the array holds
   * during that call.
   */
  method Combine<T>(arr: seq<T>, size: int, start: nat, combo: seq<T>, result: seq<seq<T>>) returns (out: seq<seq<T>>)
    requires start <= |arr|
    ensures out == result + CombsFrom(arr, size, start, combo)
    decreases |arr| - start
  {
    if |combo| == size {
      return result + [combo];
    }
    out := result;
    var i := start;
    while i < |arr|
      invariant start <= i <= |arr|
      invariant out + CombsLoop(arr, size, combo, i) == result + CombsFrom(arr, size, start, combo)
    {
      ghost var before := out;
      out := Combine(arr, size, i + 1, combo + [arr[i]], out);
      Seqs.AppendAssoc(before, CombsFrom(arr, size, i + 1, combo + [arr[i]]), CombsLoop(arr, size, combo, i + 1));
      i := i + 1;
    }
  }

  /**
   * `generateCombinations`: every `size`-element combination of `arr`, each
   * keeping the order of `arr`, C(|arr|, size) of them.
   */
  method GenerateCombinations<T>(arr: seq<T>, size: int) returns (result: seq<seq<T>>)
    ensures result == Combinations(arr, size)
    ensures |result| == Binom(|arr|, size)
    ensures forall c :: c in result ==> |c| == size
  {
    result := Combine(arr, size, 0, [], []);
    CombinationsCount(arr, size);
    CombinationsPositions(arr, size);
  }

  // Counting

  lemma {:induction false} CombsFromCount<T>(arr: seq<T>, size: int, start: nat, combo: seq<T>)
    requires start <= |arr| && |combo| <= size
    ensures |CombsFrom(arr, size, start, combo)| == Binom(|arr| - start, size - |combo|)
    decreases |arr| - start, 1
  {
    if |combo| < size {
      CombsLoopCount(arr, size, combo, start);
    }
  }

  lemma {:induction false} CombsLoopCount<T>(arr: seq<T>, size: int, combo: seq<T>, i: nat)
    requires i <= |arr| && |combo| < size
    ensures |CombsLoop(arr, size, combo, i)| == Binom(|arr| - i, size - |combo|)
    decreases |arr| - i, 0
  {
    if i < |arr| {
      CombsFromCount(arr, size, i + 1, combo + [arr[i]]);
      CombsLoopCount(arr, size, combo, i + 1);
    }
  }

  /** A combination already longer than `size` never reaches it. */
  lemma {:induction false} CombsFromOver<T>(arr: seq<T>, size: int, start: nat, combo: seq<T>)
    requires start <= |arr| && |combo| > size
    ensures CombsFrom(arr, size, start, combo) == []
    decreases |arr| - start, 1
  {
    CombsLoopOver(arr, size, combo, start);
  }

  lemma {:induction false} CombsLoopOver<T>(arr: seq<T>, size: int, combo: seq<T>, i: nat)
    requires i <= |arr| && |combo| > size
    ensures CombsLoop(arr, size, combo, i) == []
    decreases |arr| - i, 0
  {
    if i < |arr| {
      CombsFromOver(arr, size, i + 1, combo + [arr[i]]);
      CombsLoopOver(arr, size, combo, i + 1);
    }
  }

  /** There are C(|arr|, size) combinations; none for a negative size. */
  lemma CombinationsCount<T>(arr: seq<T>, size: int)
    ensures |Combinations(arr, size)| == Binom(|arr|, size)
  {
    if size < 0 {
      CombsFromOver(arr, size, 0, []);
    } else {
      CombsFromCount(arr, size, 0, []);
    }
  }

  // Positions: which elements of `arr` each combination takes

  /** Every index of `t` is an index of a sequence of length `n`. */
  predicate Below(t: seq<nat>, n: nat) {
    forall j :: 0 <= j < |t| ==> t[j] < n
  }

  predicate AllBelow(ts: seq<seq<nat>>, n: nat) {
    forall i :: 0 <= i < |ts| ==> Below(ts[i], n)
  }

  /** The elements of `arr` at the positions `t`. */
  function Pick<T>(arr: seq<T>, t: seq<nat>): (r: seq<T>)
    requires Below(t, |arr|)
    ensures |r| == |t|
  {
    seq(|t|, j requires 0 <= j < |t| => arr[t[j]])
  }

  function Picks<T>(arr: seq<T>, ts: seq<seq<nat>>): (r: seq<seq<T>>)
    requires AllBelow(ts, |arr|)
    ensures |r| == |ts|
  {
    seq(|ts|, i requires 0 <= i < |ts| => Pick(arr, ts[i]))
  }

  /** The position tuples of CombsFrom: the same recursion over indices. */
  function PositionsFrom(n: nat, size: int, start: nat, prefix: seq<nat>): seq<seq<nat>>
    requires start <= n
    decreases n - start, 1
  {
    if |prefix| == size then [prefix] else PositionsLoop(n, size, prefix, start)
  }

  function PositionsLoop(n: nat, size: int, prefix: seq<nat>, i: nat): seq<seq<nat>>
    requires i <= n
    decreases n - i, 0
  {
    if i == n then []
    else PositionsFrom(n, size, i + 1, prefix + [i]) + PositionsLoop(n, size, prefix, i + 1)
  }

  /** Strictly increasing: the positions a combination takes, in the order of `arr`, each once. */
  predicate Increasing(t: seq<nat>) {
    forall a, b :: 0 <= a < b < |t| ==> t[a] < t[b]
  }

  /** `a` comes strictly before `b` in lexicographic order. */
  predicate LexLess(a: seq<nat>, b: seq<nat>) {
    exists j :: 0 <= j < |a| && j < |b| && a[..j] == b[..j] && a[j] < b[j]
  }

  predicate LexSorted(ts: seq<seq<nat>>) {
    forall i, j :: 0 <= i < j < |ts| ==> LexLess(ts[i], ts[j])
  }

  /**
   * A tuple that `combine` builds from `prefix` at `start`: of length `size`,
   * beginning with `prefix`, and continuing with increasing positions in
   * [lo, n).
   */
  predicate Extends(t: seq<nat>, prefix: seq<nat>, lo: nat, n: nat, size: int) {
    |t| == size && |prefix| <= |t| && t[..|prefix|] == prefix
    && (forall j :: |prefix| <= j < |t| ==> lo <= t[j] < n)
    && (forall a, b :: |prefix| <= a < b < |t| ==> t[a] < t[b])
  }

  lemma {:induction false} PositionsFromShape(n: nat, size: int, start: nat, prefix: seq<nat>)
    requires start <= n && |prefix| <= size
    ensures forall t :: t in PositionsFrom(n, size, start, prefix) ==> Extends(t, prefix, start, n, size)
    decreases n - start, 1
  {
    if |prefix| < size {
      PositionsLoopShape(n, size, prefix, start);
    }
  }

  lemma {:induction false} PositionsLoopShape(n: nat, size: int, prefix: seq<nat>, i: nat)
    requires i <= n && |prefix| < size
    ensures forall t :: t in PositionsLoop(n, size, prefix, i) ==> Extends(t, prefix, i, n, size)
    decreases n - i, 0
  {
    if i < n {
      var longer := prefix + [i];
      PositionsFromShape(n, size, i + 1, longer);
      PositionsLoopShape(n, size, prefix, i + 1);
      forall t | t in PositionsFrom(n, size, i + 1, longer)
        ensures Extends(t, prefix, i, n, size)
      {
        assert t[..|longer|] == longer;
        assert t[..|prefix|] == t[..|longer|][..|prefix|];
        assert t[|prefix|] == t[..|longer|][|prefix|] == i;
      }
    }
  }

  /** Every tuple that starts with `prefix` and takes a larger position after it comes later. */
  lemma Before(a: seq<nat>, b: seq<nat>, prefix: seq<nat>, i: nat)
    requires |prefix| < |a| && |prefix| < |b|
    requires a[..|prefix|] == prefix && b[..|prefix|] == prefix
    requires a[|prefix|] == i < b[|prefix|]
    ensures LexLess(a, b)
  {
    assert a[..|prefix|] == b[..|prefix|];
  }

  lemma {:induction false} PositionsFromSorted(n: nat, size: int, start: nat, prefix: seq<nat>)
    requires start <= n && |prefix| <= size
    ensures LexSorted(PositionsFrom(n, size, start, prefix))
    decreases n - start, 1
  {
    if |prefix| < size {
      PositionsLoopSorted(n, size, prefix, start);
    }
  }

  lemma {:induction false} PositionsLoopSorted(n: nat, size: int, prefix: seq<nat>, i: nat)
    requires i <= n && |prefix| < size
    ensures LexSorted(PositionsLoop(n, size, prefix, i))
    decreases n - i, 0
  {
    if i < n {
      var longer := prefix + [i];
      var first, rest := PositionsFrom(n, size, i + 1, longer), PositionsLoop(n, size, prefix, i + 1);
      PositionsFromSorted(n, size, i + 1, longer);
      PositionsLoopSorted(n, size, prefix, i + 1);
      PositionsFromShape(n, size, i + 1, longer);
      PositionsLoopShape(n, size, prefix, i + 1);
      forall a, b | a in first && b in rest
        ensures LexLess(a, b)
      {
        assert a[..|longer|] == longer;
        assert a[..|prefix|] == a[..|longer|][..|prefix|];
        assert a[|prefix|] == a[..|longer|][|prefix|];
        Before(a, b, prefix, i);
      }
      LexSortedAppend(first, rest);
    }
  }

  lemma LexSortedAppend(first: seq<seq<nat>>, rest: seq<seq<nat>>)
    requires LexSorted(first) && LexSorted(rest)
    requires forall a, b :: a in first && b in rest ==> LexLess(a, b)
    ensures LexSorted(first + rest)
  {
    forall i, j | 0 <= i < j < |first + rest|
      ensures LexLess((first + rest)[i], (first + rest)[j])
    {
      if j < |first| {
      } else if i >= |first| {
        assert (first + rest)[i] == rest[i - |first|];
      } else {
        assert (first + rest)[i] in first && (first + rest)[j] in rest;
      }
    }
  }

  /** Tuples built from positions below `n` stay below `n`. */
  lemma {:induction false} PositionsFromBelow(n: nat, size: int, start: nat, prefix: seq<nat>)
    requires start <= n && Below(prefix, n)
    ensures AllBelow(PositionsFrom(n, size, start, prefix), n)
    decreases n - start, 1
  {
    if |prefix| != size {
      PositionsLoopBelow(n, size, prefix, start);
    }
  }

  lemma {:induction false} PositionsLoopBelow(n: nat, size: int, prefix: seq<nat>, i: nat)
    requires i <= n && Below(prefix, n)
    ensures AllBelow(PositionsLoop(n, size, prefix, i), n)
    decreases n - i, 0
  {
    if i < n {
      PositionsFromBelow(n, size, i + 1, prefix + [i]);
      PositionsLoopBelow(n, size, prefix, i + 1);
      var first, rest := PositionsFrom(n, size, i + 1, prefix + [i]), PositionsLoop(n, size, prefix, i + 1);
      forall k | 0 <= k < |first + rest|
        ensures Below((first + rest)[k], n)
      {
        if k >= |first| {
          assert (first + rest)[k] == rest[k - |first|];
        }
      }
    }
  }

  lemma PicksAppend<T>(arr: seq<T>, a: seq<seq<nat>>, b: seq<seq<nat>>)
    requires AllBelow(a, |arr|) && AllBelow(b, |arr|)
    ensures AllBelow(a + b, |arr|)
    ensures Picks(arr, a + b) == Picks(arr, a) + Picks(arr, b)
  {
    assert forall k :: 0 <= k < |a + b| ==> (a + b)[k] == (if k < |a| then a[k] else b[k - |a|]);
  }

  /** The combinations are the elements of `arr` at the position tuples. */
  lemma {:induction false} CombsFromPositions<T>(arr: seq<T>, size: int, start: nat, prefix: seq<nat>)
    requires start <= |arr| && Below(prefix, |arr|)
    ensures AllBelow(PositionsFrom(|arr|, size, start, prefix), |arr|)
    ensures CombsFrom(arr, size, start, Pick(arr, prefix)) == Picks(arr, PositionsFrom(|arr|, size, start, prefix))
    decreases |arr| - start, 1
  {
    PositionsFromBelow(|arr|, size, start, prefix);
    if |prefix| != size {
      CombsLoopPositions(arr, size, prefix, start);
    }
  }

  lemma {:induction false} CombsLoopPositions<T>(arr: seq<T>, size: int, prefix: seq<nat>, i: nat)
    requires i <= |arr| && Below(prefix, |arr|)
    ensures AllBelow(PositionsLoop(|arr|, size, prefix, i), |arr|)
    ensures CombsLoop(arr, size, Pick(arr, prefix), i) == Picks(arr, PositionsLoop(|arr|, size, prefix, i))
    decreases |arr| - i, 0
  {
    PositionsLoopBelow(|arr|, size, prefix, i);
    if i < |arr| {
      var longer := prefix + [i];
      assert Pick(arr, longer) == Pick(arr, prefix) + [arr[i]];
      CombsFromPositions(arr, size, i + 1, longer);
      CombsLoopPositions(arr, size, prefix, i + 1);
      PicksAppend(arr, PositionsFrom(|arr|, size, i + 1, longer), PositionsLoop(|arr|, size, prefix, i + 1));
    }
  }

  /**
   * What the combinations are: the elements of `arr` at strictly increasing
   * position tuples of length `size`, listed in strictly increasing
   * lexicographic order of those tuples, so no subset of positions appears
   * twice.
   */
  lemma CombinationsPositions<T>(arr: seq<T>, size: int)
    ensures AllBelow(PositionsFrom(|arr|, size, 0, []), |arr|)
    ensures Combinations(arr, size) == Picks(arr, PositionsFrom(|arr|, size, 0, []))
    ensures forall t :: t in PositionsFrom(|arr|, size, 0, []) ==> |t| == size && Increasing(t)
    ensures LexSorted(PositionsFrom(|arr|, size, 0, []))
  {
    assert Pick(arr, []) == [];
    CombsFromPositions(arr, size, 0, []);
    if size >= 0 {
      PositionsFromShape(|arr|, size, 0, []);
      PositionsFromSorted(|arr|, size, 0, []);
    } else {
      CombsFromOver(arr, size, 0, []);
    }
  }

  // ---------------------------------------------------------------------
  // The count
  // ---------------------------------------------------------------------

  /**
   * `combinationCount(n, r)`: 0 when r > n, 1 when r is 0 or n, else the
   * product (n/1)·((n-1)/2)·…·((n-r+1)/r) rounded. With exact arithmetic
   * the product is C(n, r) at every step; a negative r skips the loop and
   * gives 1.
   */
  method CombinationCount(n: int, r: int) returns (c: int)
    ensures r > n ==> c == 0
    ensures r <= n && (r == 0 || r == n) ==> c == 1
    ensures 0 < r < n ==> c == Binom(n, r)
    ensures r < 0 && r <= n ==> c == 1
  {
    if r > n {
      return 0;
    }
    if r == 0 || r == n {
      return 1;
    }
    var result: real := 1.0;
    var i := 0;
    while i < r
      invariant 0 <= i <= r || (r < 0 && i == 0)
      invariant r > 0 ==> n > 0 && result == Binom(n, i) as real
      invariant r < 0 ==> result == 1.0
    {
      BinomStep(n, i);
      StepReal(Binom(n, i), Binom(n, i + 1), n - i, i + 1);
      result := result * (n - i) as real / (i + 1) as real;
      i := i + 1;
    }
    c := Text.Round(result);
    if r > 0 {
      Text.RoundOfInt(Binom(n, r));
    } else {
      Text.RoundOfInt(1);
    }
  }

  /** From k·b = m·a in the integers, a·m / k = b in the reals. */
  lemma StepReal(a: nat, b: nat, m: int, k: nat)
    requires k > 0 && k * b == m * a
    ensures a as real * m as real / k as real == b as real
  {
    assert (k * b) as real == (m * a) as real;
    assert k as real * b as real == m as real * a as real;
  }

  /** The number of combinations generated is the count, for every system size a query can give. */
  lemma CountMatches<T>(arr: seq<T>, size: int)
    requires 0 <= size
    ensures |Combinations(arr, size)| == (if size > |arr| then 0 else Binom(|arr|, size))
  {
    CombinationsCount(arr, size);
    if size > |arr| {
      BinomAbove(|arr|, size);
    }
  }

  // ---------------------------------------------------------------------
  // Reading a research question
  // ---------------------------------------------------------------------

  /** Some keyword occurs in the query once both are lower-cased (`toLowerCase().includes`). */
  predicate Mentions(query: string, keywords: seq<string>) {
    Text.ContainsAny(Text.Lower(query), keywords)
  }

  lemma MentionsKeyword(query: string, keywords: seq<string>, k: nat)
    requires k < |keywords| && Text.Contains(Text.Lower(query), keywords[k])
    ensures Mentions(query, keywords)
  {
  }

  /** Upper-casing the question changes nothing that Mentions sees. */
  lemma MentionsIgnoresCase(query: string, keywords: seq<string>)
    ensures Mentions(Text.Upper(query), keywords) == Mentions(query, keywords)
  {
    Text.LowerOfUpper(query);
  }

  const TransitionKeywords: seq<string> := ["전이금속", "transition metal"]
  const NobleKeywords: seq<string> := ["귀금속", "noble metal", "백금족"]
  const AlkaliKeywords: seq<string> := ["알칼리", "alkali"]
  const EarthKeywords: seq<string> := ["토", "earth"]
  const LanthanideKeywords: seq<string> := ["란탄", "희토류", "lanthanide", "rare earth"]

  /**
   * `parseElementGroup`: the first group, in the order transition metals,
   * noble metals, alkali (alkaline earth when "earth" is also mentioned),
   * lanthanides, whose keywords the question mentions.
   */
  function ParseElementGroup(query: string): (r: Option<ElementGroup>)
    ensures r.None? <==> !Mentions(query, TransitionKeywords) && !Mentions(query, NobleKeywords)
                         && !Mentions(query, AlkaliKeywords) && !Mentions(query, LanthanideKeywords)
    ensures r.Some? ==> r.value in {TransitionMetals, NobleMetalGroup, Alkali, AlkalineEarth, Lanthanides}
    ensures r == Some(Lanthanides) ==> Mentions(query, LanthanideKeywords)
  {
    if Mentions(query, TransitionKeywords) then Some(TransitionMetals)
    else if Mentions(query, NobleKeywords) then Some(NobleMetalGroup)
    else if Mentions(query, AlkaliKeywords) then
      (if Mentions(query, EarthKeywords) then Some(AlkalineEarth) else Some(Alkali))
    else if Mentions(query, LanthanideKeywords) then Some(Lanthanides)
    else None
  }

  /** Letter case of the question does not matter. */
  lemma ParseElementGroupIgnoresCase(query: string)
    ensures ParseElementGroup(Text.Upper(query)) == ParseElementGroup(query)
  {
    Text.LowerOfUpper(query);
  }

  /** "transition metal" wins over every other group keyword. */
  lemma TransitionMetalsFirst(query: string)
    requires Text.Contains(Text.Lower(query), "transition metal")
    ensures ParseElementGroup(query) == Some(TransitionMetals)
  {
    MentionsKeyword(query, TransitionKeywords, 1);
  }

  /**
   * "rare earth" together with "alkali" reads as the alkaline earths, not the
   * lanthanides: "rare earth" contains "earth" and the alkali test comes
   * first.
   */
  lemma RareEarthWithAlkali(query: string)
    requires Text.Contains(Text.Lower(query), "rare earth") && Text.Contains(Text.Lower(query), "alkali")
    requires !Mentions(query, TransitionKeywords) && !Mentions(query, NobleKeywords)
    ensures ParseElementGroup(query) == Some(AlkalineEarth)
  {
    MentionsKeyword(query, AlkaliKeywords, 1);
    Text.ContainsAt("rare earth", "earth", 5);
    Text.ContainsTransitive(Text.Lower(query), "rare earth", "earth");
    MentionsKeyword(query, EarthKeywords, 1);
  }

  /** "alkaline earth" alone names the alkaline earths: "alkaline" contains "alkali". */
  lemma AlkalineEarthQuery(query: string)
    requires Text.Contains(Text.Lower(query), "alkaline earth")
    requires !Mentions(query, TransitionKeywords) && !Mentions(query, NobleKeywords)
    ensures ParseElementGroup(query) == Some(AlkalineEarth)
  {
    var lq := Text.Lower(query);
    Text.ContainsAt("alkaline earth", "alkali", 0);
    Text.ContainsTransitive(lq, "alkaline earth", "alkali");
    Text.ContainsAt("alkaline earth", "earth", 9);
    Text.ContainsTransitive(lq, "alkaline earth", "earth");
    MentionsKeyword(query, AlkaliKeywords, 1);
    MentionsKeyword(query, EarthKeywords, 1);
  }

  const BinaryKeywords: seq<string> := ["2원", "이원", "binary"]
  const TernaryKeywords: seq<string> := ["3원", "삼원", "ternary"]
  const QuaternaryKeywords: seq<string> := ["4원", "사원", "quaternary"]
  const QuinaryKeywords: seq<string> := ["5원", "오원", "quinary"]

  /**
   * `parseSystemSize` as written: the first of binary, ternary, quaternary,
   * quinary whose keywords the question mentions, else 3.
   */
  function ParseSystemSizeAsWritten(query: string): (r: nat)
    ensures 2 <= r <= 5
    ensures r == 2 <==> Mentions(query, BinaryKeywords)
    ensures r == 4 ==> Mentions(query, QuaternaryKeywords) && !Mentions(query, TernaryKeywords)
  {
    if Mentions(query, BinaryKeywords) then 2
    else if Mentions(query, TernaryKeywords) then 3
    else if Mentions(query, QuaternaryKeywords) then 4
    else if Mentions(query, QuinaryKeywords) then 5
    else 3
  }

  /**
   * The word "quaternary" contains "ternary", which is tested first, so an
   * English request for a quaternary system gets size 3.
   */
  lemma QuaternaryReadAsTernary(query: string)
    requires Text.Contains(Text.Lower(query), "quaternary") && !Mentions(query, BinaryKeywords)
    ensures ParseSystemSizeAsWritten(query) == 3
  {
    Text.ContainsAt("quaternary", "ternary", 3);
    Text.ContainsTransitive(Text.Lower(query), "quaternary", "ternary");
    MentionsKeyword(query, TernaryKeywords, 2);
  }

  /**
   * The system size with the quaternary keywords tested before the ternary
   * ones, so that each English word selects its own size.
   */
  function ParseSystemSize(query: string): (r: nat)
    ensures 2 <= r <= 5
    ensures r == 2 <==> Mentions(query, BinaryKeywords)
    ensures r == 4 <==> !Mentions(query, BinaryKeywords) && Mentions(query, QuaternaryKeywords)
  {
    if Mentions(query, BinaryKeywords) then 2
    else if Mentions(query, QuaternaryKeywords) then 4
    else if Mentions(query, TernaryKeywords) then 3
    else if Mentions(query, QuinaryKeywords) then 5
    else 3
  }

  /** "quaternary" now gives 4. */
  lemma QuaternaryIsFour(query: string)
    requires Text.Contains(Text.Lower(query), "quaternary") && !Mentions(query, BinaryKeywords)
    ensures ParseSystemSize(query) == 4
  {
    MentionsKeyword(query, QuaternaryKeywords, 2);
  }

  /** The correction changes nothing for a question without a quaternary keyword. */
  lemma SystemSizeAgrees(query: string)
    requires !Mentions(query, QuaternaryKeywords)
    ensures ParseSystemSize(query) == ParseSystemSizeAsWritten(query)
  {
  }

  /** Absent every size keyword, the size is ternary. */
  lemma SystemSizeDefault(query: string)
    requires !Mentions(query, BinaryKeywords) && !Mentions(query, TernaryKeywords)
    requires !Mentions(query, QuaternaryKeywords) && !Mentions(query, QuinaryKeywords)
    ensures ParseSystemSize(query) == 3 && ParseSystemSizeAsWritten(query) == 3
  {
  }

  // Element symbols named in the question: /\b([A-Z][a-z]?)\b/g

  /**
   * The length of a match of `\b[A-Z][a-z]?\b` at index `p`, if there is one:
   * an upper-case letter not preceded by a word character, then possibly one
   * lower-case letter, then no word character.
   */
  function SymbolWordAt(s: string, p: nat): (r: Option<nat>)
    ensures r.Some? ==> (r.value == 1 || r.value == 2) && p + r.value <= |s|
  {
    if p < |s| && Text.IsUpper(s[p]) && (p == 0 || !Text.IsWordChar(s[p - 1])) then
      if p + 1 < |s| && Text.IsLower(s[p + 1]) && (p + 2 == |s| || !Text.IsWordChar(s[p + 2])) then Some(2)
      else if p + 1 == |s| || !Text.IsWordChar(s[p + 1]) then Some(1)
      else None
    else None
  }

  /** One or two letters, upper case then lower case: what `/^[A-Z][a-z]?$/` accepts. */
  predicate SymbolLike(t: string) {
    (|t| == 1 || |t| == 2) && Text.IsUpper(t[0]) && (|t| == 2 ==> Text.IsLower(t[1]))
  }

  /** The global match from index `p` on: each match, then the search resumes after it. */
  function MentionedFrom(s: string, p: nat): (r: seq<string>)
    requires p <= |s|
    ensures forall k :: 0 <= k < |r| ==> SymbolLike(r[k])
    decreases |s| - p
  {
    if p == |s| then []
    else match SymbolWordAt(s, p)
      case Some(len) => [s[p..p + len]] + MentionedFrom(s, p + len)
      case None => MentionedFrom(s, p + 1)
  }

  /**
   * `mentionedElements`. The source then keeps matches of length at most two
   * that look like a symbol; every match already does (the ensures of
   * MentionedFrom), so that filter keeps them all.
   */
  function MentionedElements(message: string): (r: seq<string>)
    ensures Seqs.Filter(r, SymbolLike) == r
  {
    var r := MentionedFrom(message, 0);
    Seqs.FilterAll(r, SymbolLike);
    r
  }

  /** Symbols separated by a hyphen are both found; "FeO" is one word and names nothing. */
  lemma MentionedExamples()
    ensures MentionedElements("Fe-Co") == ["Fe", "Co"]
    ensures MentionedElements("FeO") == []
  {
    var s := "Fe-Co";
    assert SymbolWordAt(s, 0) == Some(2) && s[0..2] == "Fe";
    assert SymbolWordAt(s, 2) == None && SymbolWordAt(s, 3) == Some(2) && s[3..5] == "Co";
    assert MentionedFrom(s, 3) == ["Co"];
    var t := "FeO";
    assert SymbolWordAt(t, 0) == None && SymbolWordAt(t, 1) == None && SymbolWordAt(t, 2) == None;
  }

  // Application

  datatype Application = Battery | Catalyst | Superconductor | Thermoelectric | Magnetic

  function ApplicationKeywords(a: Application): seq<string> {
    match a
    case Battery => ["배터리", "battery"]
    case Catalyst => ["촉매", "catalyst"]
    case Superconductor => ["초전도", "superconductor"]
    case Thermoelectric => ["열전", "thermoelectric"]
    case Magnetic => ["자성", "magnetic"]
  }

  /** The order of the tests; a later match overwrites an earlier one. */
  function Rank(a: Application): nat {
    match a
    case Battery => 0
    case Catalyst => 1
    case Superconductor => 2
    case Thermoelectric => 3
    case Magnetic => 4
  }

  /** One `if (...) application = ...` statement. */
  function Overwrite(query: string, a: Application, current: Option<Application>): Option<Application> {
    if Mentions(query, ApplicationKeywords(a)) then Some(a) else current
  }

  /**
   * The application: each test in turn overwrites the value, so the one
   * mentioned that is tested last wins.
   */
  function ParseApplication(query: string): (r: Option<Application>)
  {
    var battery := Overwrite(query, Battery, None);
    var catalyst := Overwrite(query, Catalyst, battery);
    var superconductor := Overwrite(query, Superconductor, catalyst);
    var thermoelectric := Overwrite(query, Thermoelectric, superconductor);
    Overwrite(query, Magnetic, thermoelectric)
  }

  /**
   * What the application is: one the question mentions, with no mentioned
   * application tested after it; none only when no application is mentioned.
   */
  lemma ParseApplicationLastWins(query: string)
    ensures var r := ParseApplication(query);
      && (r.Some? ==> Mentions(query, ApplicationKeywords(r.value)))
      && (r.Some? ==> forall a: Application :: Rank(a) > Rank(r.value) ==> !Mentions(query, ApplicationKeywords(a)))
      && (r.None? <==> forall a: Application :: !Mentions(query, ApplicationKeywords(a)))
  {
    var r := ParseApplication(query);
    var battery := Mentions(query, ApplicationKeywords(Battery));
    var catalyst := Mentions(query, ApplicationKeywords(Catalyst));
    var superconductor := Mentions(query, ApplicationKeywords(Superconductor));
    var thermoelectric := Mentions(query, ApplicationKeywords(Thermoelectric));
    var magnetic := Mentions(query, ApplicationKeywords(Magnetic));
    assert r == if magnetic then Some(Magnetic) else if thermoelectric then Some(Thermoelectric)
      else if superconductor then Some(Superconductor) else if catalyst then Some(Catalyst)
      else if battery then Some(Battery) else None;
    forall a: Application
      ensures Mentions(query, ApplicationKeywords(a)) == match a
        case Battery => battery case Catalyst => catalyst case Superconductor => superconductor
        case Thermoelectric => thermoelectric case Magnetic => magnetic
    {
    }
  }

  // The whole question

  datatype QueryType = CombinationScreening | PropertyScreening

  /** The parsed question; the band-gap range of the source is not modelled. */
  datatype ResearchQuery = ResearchQuery(
    queryType: QueryType,
    elements: Option<seq<string>>,
    systemSize: nat,
    stable: bool,
    application: Option<Application>,
    limit: nat)

  const StableKeywords: seq<string> := ["안정", "stable"]

  /**
   * `parseResearchQuery`: a named group makes it a combination screening
   * over that group; otherwise a property screening over the symbols named,
   * if any.
   */
  function ParseResearchQuery(message: string): (r: ResearchQuery)
    ensures r.queryType == CombinationScreening <==> ParseElementGroup(message).Some?
    ensures ParseElementGroup(message).Some? ==> r.elements == Some(GroupElements(ParseElementGroup(message).value))
    ensures ParseElementGroup(message).None? ==>
              (r.elements.Some? <==> |MentionedElements(message)| > 0)
              && (r.elements.Some? ==> r.elements.value == MentionedElements(message))
    ensures r.elements.Some? ==> |r.elements.value| > 0
    ensures r.systemSize == ParseSystemSizeAsWritten(message) && 2 <= r.systemSize <= 5 && r.limit == 20
    ensures r.stable <==> Mentions(message, StableKeywords)
    ensures r.application == ParseApplication(message)
  {
    var group := ParseElementGroup(message);
    var mentioned := MentionedElements(message);
    ResearchQuery(
      if group.Some? then CombinationScreening else PropertyScreening,
      if group.Some? then Some(GroupElements(group.value))
      else if |mentioned| > 0 then Some(mentioned) else None,
      ParseSystemSizeAsWritten(message),
      Mentions(message, StableKeywords),
      ParseApplication(message),
      20)
  }
}
