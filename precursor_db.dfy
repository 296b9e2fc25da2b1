/**
 * The precursor knowledge base: for each element symbol, the starting
 * compounds known for it and the synthesis routes each one suits, in order
 * of preference; plus the lookups that filter by route and rank by that
 * preference.
 */
module PrecursorDb {
  import opened Wrappers
  import Seqs

  datatype PrecursorType = Oxide | Carbonate | Nitrate | Hydroxide | Chloride | Organic | Metal

  /** A starting compound; `preferredFor` lists route ids, most preferred first. */
  datatype PrecursorInfo = PrecursorInfo(formula: string, name: string, kind: PrecursorType, preferredFor: seq<string>)

  /**
   * The table itself, `precursorDB`: the catalogued compounds of each key,
   * in declaration order; a symbol that is not a key has none.
   */
  function Entries(element: string): seq<PrecursorInfo> {
    match element
    case "Li" => [
        PrecursorInfo("Li2CO3", "lithium carbonate", Carbonate, ["solid-state"]),
        PrecursorInfo("LiOH·H2O", "lithium hydroxide monohydrate", Hydroxide, ["sol-gel", "solution"]),
        PrecursorInfo("LiNO3", "lithium nitrate", Nitrate, ["sol-gel"]),
        PrecursorInfo("Li2O", "lithium oxide", Oxide, ["solid-state"])
      ]
    case "Na" => [
        PrecursorInfo("Na2CO3", "sodium carbonate", Carbonate, ["solid-state"]),
        PrecursorInfo("NaOH", "sodium hydroxide", Hydroxide, ["hydrothermal", "solution"]),
        PrecursorInfo("NaNO3", "sodium nitrate", Nitrate, ["sol-gel"])
      ]
    case "K" => [
        PrecursorInfo("K2CO3", "potassium carbonate", Carbonate, ["solid-state"]),
        PrecursorInfo("KOH", "potassium hydroxide", Hydroxide, ["hydrothermal", "solution"]),
        PrecursorInfo("KNO3", "potassium nitrate", Nitrate, ["sol-gel"])
      ]
    case "Mg" => [
        PrecursorInfo("MgO", "magnesium oxide", Oxide, ["solid-state"]),
        PrecursorInfo("Mg(NO3)2·6H2O", "magnesium nitrate hexahydrate", Nitrate, ["sol-gel"]),
        PrecursorInfo("MgCl2", "magnesium chloride", Chloride, ["hydrothermal", "solution"])
      ]
    case "Ca" => [
        PrecursorInfo("CaCO3", "calcium carbonate", Carbonate, ["solid-state"]),
        PrecursorInfo("Ca(NO3)2·4H2O", "calcium nitrate tetrahydrate", Nitrate, ["sol-gel"]),
        PrecursorInfo("CaO", "calcium oxide", Oxide, ["solid-state"])
      ]
    case "Sr" => [
        PrecursorInfo("SrCO3", "strontium carbonate", Carbonate, ["solid-state"]),
        PrecursorInfo("Sr(NO3)2", "strontium nitrate", Nitrate, ["sol-gel"])
      ]
    case "Ba" => [
        PrecursorInfo("BaCO3", "barium carbonate", Carbonate, ["solid-state"]),
        PrecursorInfo("Ba(NO3)2", "barium nitrate", Nitrate, ["sol-gel"])
      ]
    case "Ti" => [
        PrecursorInfo("TiO2", "titanium dioxide", Oxide, ["solid-state"]),
        PrecursorInfo("Ti(OC4H9)4", "titanium butoxide", Organic, ["sol-gel"]),
        PrecursorInfo("TiCl4", "titanium tetrachloride", Chloride, ["hydrothermal"])
      ]
    case "V" => [
        PrecursorInfo("V2O5", "vanadium pentoxide", Oxide, ["solid-state"]),
        PrecursorInfo("NH4VO3", "ammonium metavanadate", Nitrate, ["sol-gel", "hydrothermal"])
      ]
    case "Cr" => [
        PrecursorInfo("Cr2O3", "chromium oxide", Oxide, ["solid-state"]),
        PrecursorInfo("Cr(NO3)3·9H2O", "chromium nitrate nonahydrate", Nitrate, ["sol-gel"])
      ]
    case "Mn" => [
        PrecursorInfo("MnO2", "manganese dioxide", Oxide, ["solid-state"]),
        PrecursorInfo("Mn(NO3)2·4H2O", "manganese nitrate tetrahydrate", Nitrate, ["sol-gel"]),
        PrecursorInfo("MnCl2·4H2O", "manganese chloride tetrahydrate", Chloride, ["hydrothermal", "solution"]),
        PrecursorInfo("Mn(CH3COO)2", "manganese acetate", Organic, ["sol-gel"])
      ]
    case "Fe" => [
        PrecursorInfo("Fe2O3", "iron(III) oxide", Oxide, ["solid-state"]),
        PrecursorInfo("Fe(NO3)3·9H2O", "iron nitrate nonahydrate", Nitrate, ["sol-gel"]),
        PrecursorInfo("FeCl3·6H2O", "iron chloride hexahydrate", Chloride, ["hydrothermal", "solution"]),
        PrecursorInfo("FeC2O4·2H2O", "iron oxalate dihydrate", Organic, ["solid-state"])
      ]
    case "Co" => [
        PrecursorInfo("Co3O4", "cobalt oxide", Oxide, ["solid-state"]),
        PrecursorInfo("Co(NO3)2·6H2O", "cobalt nitrate hexahydrate", Nitrate, ["sol-gel"]),
        PrecursorInfo("CoCl2·6H2O", "cobalt chloride hexahydrate", Chloride, ["hydrothermal", "solution"]),
        PrecursorInfo("Co(CH3COO)2", "cobalt acetate", Organic, ["sol-gel"])
      ]
    case "Ni" => [
        PrecursorInfo("NiO", "nickel oxide", Oxide, ["solid-state"]),
        PrecursorInfo("Ni(NO3)2·6H2O", "nickel nitrate hexahydrate", Nitrate, ["sol-gel"]),
        PrecursorInfo("NiCl2·6H2O", "nickel chloride hexahydrate", Chloride, ["hydrothermal", "solution"]),
        PrecursorInfo("Ni(CH3COO)2", "nickel acetate", Organic, ["sol-gel"])
      ]
    case "Cu" => [
        PrecursorInfo("CuO", "copper oxide", Oxide, ["solid-state"]),
        PrecursorInfo("Cu(NO3)2·3H2O", "copper nitrate trihydrate", Nitrate, ["sol-gel"]),
        PrecursorInfo("CuCl2·2H2O", "copper chloride dihydrate", Chloride, ["hydrothermal", "solution"]),
        PrecursorInfo("Cu(CH3COO)2", "copper acetate", Organic, ["sol-gel"])
      ]
    case "Zn" => [
        PrecursorInfo("ZnO", "zinc oxide", Oxide, ["solid-state"]),
        PrecursorInfo("Zn(NO3)2·6H2O", "zinc nitrate hexahydrate", Nitrate, ["sol-gel"]),
        PrecursorInfo("ZnCl2", "zinc chloride", Chloride, ["hydrothermal", "solution"]),
        PrecursorInfo("Zn(CH3COO)2", "zinc acetate", Organic, ["sol-gel"])
      ]
    case "Zr" => [
        PrecursorInfo("ZrO2", "zirconium dioxide", Oxide, ["solid-state"]),
        PrecursorInfo("Zr(NO3)4·5H2O", "zirconium nitrate", Nitrate, ["sol-gel"]),
        PrecursorInfo("ZrOCl2·8H2O", "zirconium oxychloride", Chloride, ["hydrothermal"])
      ]
    case "Nb" => [
        PrecursorInfo("Nb2O5", "niobium pentoxide", Oxide, ["solid-state"]),
        PrecursorInfo("NbCl5", "niobium pentachloride", Chloride, ["hydrothermal"])
      ]
    case "Mo" => [
        PrecursorInfo("MoO3", "molybdenum trioxide", Oxide, ["solid-state"]),
        PrecursorInfo("(NH4)6Mo7O24", "ammonium heptamolybdate", Nitrate, ["sol-gel", "hydrothermal"])
      ]
    case "Ru" => [
        PrecursorInfo("RuO2", "ruthenium dioxide", Oxide, ["solid-state"]),
        PrecursorInfo("RuCl3·xH2O", "ruthenium chloride hydrate", Chloride, ["hydrothermal", "solution"]),
        PrecursorInfo("Ru(NO)(NO3)3", "ruthenium nitrosyl nitrate", Nitrate, ["sol-gel"])
      ]
    case "Rh" => [
        PrecursorInfo("Rh2O3", "rhodium oxide", Oxide, ["solid-state"]),
        PrecursorInfo("RhCl3·xH2O", "rhodium chloride hydrate", Chloride, ["solution"])
      ]
    case "Pd" => [
        PrecursorInfo("PdO", "palladium oxide", Oxide, ["solid-state"]),
        PrecursorInfo("PdCl2", "palladium chloride", Chloride, ["solution"]),
        PrecursorInfo("Pd(NO3)2", "palladium nitrate", Nitrate, ["sol-gel"])
      ]
    case "Ag" => [
        PrecursorInfo("Ag2O", "silver oxide", Oxide, ["solid-state"]),
        PrecursorInfo("AgNO3", "silver nitrate", Nitrate, ["sol-gel", "solution"])
      ]
    case "W" => [
        PrecursorInfo("WO3", "tungsten trioxide", Oxide, ["solid-state"]),
        PrecursorInfo("(NH4)2WO4", "ammonium tungstate", Nitrate, ["sol-gel", "hydrothermal"])
      ]
    case "Re" => [
        PrecursorInfo("Re2O7", "rhenium heptoxide", Oxide, ["solid-state"]),
        PrecursorInfo("NH4ReO4", "ammonium perrhenate", Nitrate, ["sol-gel"])
      ]
    case "Os" => [
        PrecursorInfo("OsO2", "osmium dioxide", Oxide, ["solid-state"]),
        PrecursorInfo("OsCl3", "osmium trichloride", Chloride, ["solution"])
      ]
    case "Ir" => [
        PrecursorInfo("IrO2", "iridium dioxide", Oxide, ["solid-state"]),
        PrecursorInfo("IrCl3·xH2O", "iridium chloride hydrate", Chloride, ["hydrothermal", "solution"]),
        PrecursorInfo("H2IrCl6", "hexachloroiridic acid", Chloride, ["solution"])
      ]
    case "Pt" => [
        PrecursorInfo("PtO2", "platinum dioxide", Oxide, ["solid-state"]),
        PrecursorInfo("H2PtCl6", "hexachloroplatinic acid", Chloride, ["solution"]),
        PrecursorInfo("Pt(NH3)4Cl2", "tetraammineplatinum chloride", Chloride, ["hydrothermal"])
      ]
    case "Au" => [
        PrecursorInfo("HAuCl4", "chloroauric acid", Chloride, ["solution"]),
        PrecursorInfo("Au2O3", "gold oxide", Oxide, ["solid-state"])
      ]
    case "La" => [
        PrecursorInfo("La2O3", "lanthanum oxide", Oxide, ["solid-state"]),
        PrecursorInfo("La(NO3)3·6H2O", "lanthanum nitrate hexahydrate", Nitrate, ["sol-gel"])
      ]
    case "Ce" => [
        PrecursorInfo("CeO2", "cerium dioxide", Oxide, ["solid-state"]),
        PrecursorInfo("Ce(NO3)3·6H2O", "cerium nitrate hexahydrate", Nitrate, ["sol-gel"])
      ]
    case "Y" => [
        PrecursorInfo("Y2O3", "yttrium oxide", Oxide, ["solid-state"]),
        PrecursorInfo("Y(NO3)3·6H2O", "yttrium nitrate hexahydrate", Nitrate, ["sol-gel"])
      ]
    case "Nd" => [
        PrecursorInfo("Nd2O3", "neodymium oxide", Oxide, ["solid-state"]),
        PrecursorInfo("Nd(NO3)3·6H2O", "neodymium nitrate hexahydrate", Nitrate, ["sol-gel"])
      ]
    case "Sm" => [
        PrecursorInfo("Sm2O3", "samarium oxide", Oxide, ["solid-state"]),
        PrecursorInfo("Sm(NO3)3·6H2O", "samarium nitrate hexahydrate", Nitrate, ["sol-gel"])
      ]
    case "Gd" => [
        PrecursorInfo("Gd2O3", "gadolinium oxide", Oxide, ["solid-state"]),
        PrecursorInfo("Gd(NO3)3·6H2O", "gadolinium nitrate hexahydrate", Nitrate, ["sol-gel"])
      ]
    case "Al" => [
        PrecursorInfo("Al2O3", "aluminum oxide", Oxide, ["solid-state"]),
        PrecursorInfo("Al(NO3)3·9H2O", "aluminum nitrate nonahydrate", Nitrate, ["sol-gel"]),
        PrecursorInfo("Al(OC4H9)3", "aluminum butoxide", Organic, ["sol-gel"])
      ]
    case "Si" => [
        PrecursorInfo("SiO2", "silicon dioxide", Oxide, ["solid-state"]),
        PrecursorInfo("Si(OC2H5)4", "tetraethyl orthosilicate (TEOS)", Organic, ["sol-gel"])
      ]
    case "Sn" => [
        PrecursorInfo("SnO2", "tin dioxide", Oxide, ["solid-state"]),
        PrecursorInfo("SnCl4·5H2O", "tin chloride pentahydrate", Chloride, ["hydrothermal", "solution"])
      ]
    case "Pb" => [
        PrecursorInfo("PbO", "lead oxide", Oxide, ["solid-state"]),
        PrecursorInfo("Pb(NO3)2", "lead nitrate", Nitrate, ["sol-gel"]),
        PrecursorInfo("Pb(CH3COO)2", "lead acetate", Organic, ["sol-gel"])
      ]
    case "Bi" => [
        PrecursorInfo("Bi2O3", "bismuth oxide", Oxide, ["solid-state"]),
        PrecursorInfo("Bi(NO3)3·5H2O", "bismuth nitrate pentahydrate", Nitrate, ["sol-gel"])
      ]
    case "P" => [
        PrecursorInfo("NH4H2PO4", "ammonium dihydrogen phosphate", Nitrate, ["solid-state", "sol-gel"]),
        PrecursorInfo("H3PO4", "phosphoric acid", Oxide, ["sol-gel"])
      ]
    case "S" => [
        PrecursorInfo("Na2S", "sodium sulfide", Oxide, ["hydrothermal"]),
        PrecursorInfo("thiourea", "thiourea", Organic, ["hydrothermal", "solution"])
      ]
    case "C" => [
        PrecursorInfo("citric acid", "citric acid", Organic, ["sol-gel"]),
        PrecursorInfo("sucrose", "sucrose", Organic, ["sol-gel"])
      ]
    case "N" => [
        PrecursorInfo("NH4NO3", "ammonium nitrate", Nitrate, ["sol-gel"]),
        PrecursorInfo("urea", "urea", Organic, ["hydrothermal"])
      ]
    case _ => []
  }

  /** The keys of `precursorDB`, in declaration order. */
  const TableKeys: seq<string> := [
    "Li", "Na", "K", "Mg", "Ca", "Sr", "Ba", "Ti", "V", "Cr", "Mn", "Fe", "Co", "Ni", "Cu", "Zn", "Zr", "Nb", "Mo", "Ru", "Rh", "Pd", "Ag", "W", "Re", "Os", "Ir", "Pt", "Au", "La", "Ce", "Y", "Nd", "Sm", "Gd", "Al", "Si", "Sn", "Pb", "Bi", "P", "S", "C", "N"
  ]

  /** `hasElement(element)`: `element in precursorDB`. */
  predicate HasElement(element: string) {
    element in TableKeys
  }

  /** Every key of the table lists a compound (checked a few keys at a time). */
  lemma KeysHaveEntries(element: string)
    requires element in TableKeys
    ensures Entries(element) != []
  {
    if element in ["Li", "Na", "K", "Mg", "Ca", "Sr"] {
      KeysHaveEntries0(element);
    } else if element in ["Ba", "Ti", "V", "Cr", "Mn", "Fe"] {
      KeysHaveEntries1(element);
    } else if element in ["Co", "Ni", "Cu", "Zn", "Zr", "Nb"] {
      KeysHaveEntries2(element);
    } else if element in ["Mo", "Ru", "Rh", "Pd", "Ag", "W"] {
      KeysHaveEntries3(element);
    } else if element in ["Re", "Os", "Ir", "Pt", "Au", "La"] {
      KeysHaveEntries4(element);
    } else if element in ["Ce", "Y", "Nd", "Sm", "Gd", "Al"] {
      KeysHaveEntries5(element);
    } else if element in ["Si", "Sn", "Pb", "Bi", "P", "S"] {
      KeysHaveEntries6(element);
    } else if element in ["C", "N"] {
      KeysHaveEntries7(element);
    }
  }

  lemma KeysHaveEntries0(element: string)
    requires element in ["Li", "Na", "K", "Mg", "Ca", "Sr"]
    ensures Entries(element) != []
  {
  }

  lemma KeysHaveEntries1(element: string)
    requires element in ["Ba", "Ti", "V", "Cr", "Mn", "Fe"]
    ensures Entries(element) != []
  {
  }

  lemma KeysHaveEntries2(element: string)
    requires element in ["Co", "Ni", "Cu", "Zn", "Zr", "Nb"]
    ensures Entries(element) != []
  {
  }

  lemma KeysHaveEntries3(element: string)
    requires element in ["Mo", "Ru", "Rh", "Pd", "Ag", "W"]
    ensures Entries(element) != []
  {
  }

  lemma KeysHaveEntries4(element: string)
    requires element in ["Re", "Os", "Ir", "Pt", "Au", "La"]
    ensures Entries(element) != []
  {
  }

  lemma KeysHaveEntries5(element: string)
    requires element in ["Ce", "Y", "Nd", "Sm", "Gd", "Al"]
    ensures Entries(element) != []
  {
  }

  lemma KeysHaveEntries6(element: string)
    requires element in ["Si", "Sn", "Pb", "Bi", "P", "S"]
    ensures Entries(element) != []
  {
  }

  lemma KeysHaveEntries7(element: string)
    requires element in ["C", "N"]
    ensures Entries(element) != []
  {
  }

  /** A symbol that is not a key has no compounds. */
  lemma OnlyKeysHaveEntries(element: string)
    requires element !in TableKeys
    ensures Entries(element) == []
  {
  }

  /** Being a key of the table is having a non-empty list. */
  lemma HasElementIff(element: string)
    ensures HasElement(element) <==> Entries(element) != []
  {
    if element in TableKeys {
      KeysHaveEntries(element);
    } else {
      OnlyKeysHaveEntries(element);
    }
  }

  /** `precursorDB[element] || []`. */
  function Catalogued(element: string): seq<PrecursorInfo> {
    Entries(element)
  }

  /** The entry lists route `methodId` among its preferences. */
  function Suits(methodId: string): PrecursorInfo -> bool {
    (p: PrecursorInfo) => methodId in p.preferredFor
  }

  /** Where route `methodId` sits in the entry's preferences (`indexOf`). */
  function Rank(methodId: string): PrecursorInfo -> int {
    (p: PrecursorInfo) => Seqs.IndexOf(p.preferredFor, methodId)
  }

  /**
   * The entries of `ps` suited to the route, ordered by the route's place in
   * their preferences; a stable sort, so equal ranks keep the order of `ps`.
   */
  function Prioritize(ps: seq<PrecursorInfo>, methodId: string): (r: seq<PrecursorInfo>)
    ensures forall i :: 0 <= i < |r| ==> methodId in r[i].preferredFor
    ensures multiset(r) == multiset(Seqs.Filter(ps, Suits(methodId)))
    ensures Seqs.SortedBy(r, Rank(methodId))
    ensures forall k :: Seqs.WithKey(r, Rank(methodId), k) == Seqs.WithKey(Seqs.Filter(ps, Suits(methodId)), Rank(methodId), k)
  {
    var suited := Seqs.Filter(ps, Suits(methodId));
    Seqs.SortByCorrect(suited, Rank(methodId));
    assert forall k :: Seqs.WithKey(Seqs.SortBy(suited, Rank(methodId)), Rank(methodId), k) == Seqs.WithKey(suited, Rank(methodId), k) by {
      forall k ensures Seqs.WithKey(Seqs.SortBy(suited, Rank(methodId)), Rank(methodId), k) == Seqs.WithKey(suited, Rank(methodId), k) {
        Seqs.SortByStable(suited, Rank(methodId), k);
      }
    }
    var r := Seqs.SortBy(suited, Rank(methodId));
    forall i | 0 <= i < |r| ensures methodId in r[i].preferredFor {
      assert r[i] in multiset(suited);
    }
    r
  }

  /**
   * `getPrecursors(element, method)`: the element's entries that suit the
   * route, best-ranked first, ties in catalog order; nothing for an element
   * the catalog does not know.
   */
  function GetPrecursors(element: string, methodId: string): (r: seq<PrecursorInfo>)
    ensures forall i :: 0 <= i < |r| ==> methodId in r[i].preferredFor && r[i] in Catalogued(element)
    ensures forall p :: p in Catalogued(element) && methodId in p.preferredFor ==> p in r
    ensures multiset(r) == multiset(Seqs.Filter(Catalogued(element), Suits(methodId)))
    ensures Seqs.SortedBy(r, Rank(methodId))
    ensures !HasElement(element) ==> r == []
  {
    var r := Prioritize(Catalogued(element), methodId);
    HasElementIff(element);
    forall i | 0 <= i < |r| ensures r[i] in Catalogued(element) {
      assert r[i] in multiset(Seqs.Filter(Catalogued(element), Suits(methodId)));
    }
    forall p | p in Catalogued(element) && methodId in p.preferredFor ensures p in r {
      assert p in Seqs.Filter(Catalogued(element), Suits(methodId));
      assert p in multiset(r);
    }
    r
  }

  /** `getBestPrecursor(element, method)`: the head of the ranked list, or null. */
  function GetBestPrecursor(element: string, methodId: string): (r: Option<PrecursorInfo>)
    ensures r.None? <==> GetPrecursors(element, methodId) == []
    ensures r.Some? ==> r.value == GetPrecursors(element, methodId)[0]
  {
    var ps := GetPrecursors(element, methodId);
    if |ps| > 0 then Some(ps[0]) else None
  }


  // ---------------------------------------------------------------
  // Ranking lemmas and catalog facts
  // ---------------------------------------------------------------

  /** The first entry of a selection by rank is the first entry of that rank. */
  lemma WithKeyHead(s: seq<PrecursorInfo>, key: PrecursorInfo -> int)
    requires s != []
    ensures Seqs.WithKey(s, key, key(s[0])) != [] && Seqs.WithKey(s, key, key(s[0]))[0] == s[0]
  {
  }

  /** A non-empty filter starting with a kept element starts with it. */
  lemma FilterHead(ps: seq<PrecursorInfo>, p: PrecursorInfo -> bool)
    requires ps != [] && p(ps[0])
    ensures Seqs.Filter(ps, p) != [] && Seqs.Filter(ps, p)[0] == ps[0]
  {
  }

  /**
   * When the first catalog entry names the route as its first preference,
   * it is the best precursor: no entry can rank lower, and the stable sort
   * keeps it ahead of the other first-preference entries.
   */
  lemma {:induction false} FirstChoiceWins(ps: seq<PrecursorInfo>, methodId: string)
    requires ps != [] && |ps[0].preferredFor| > 0 && ps[0].preferredFor[0] == methodId
    ensures Prioritize(ps, methodId) != [] && Prioritize(ps, methodId)[0] == ps[0]
  {
    var key := Rank(methodId);
    var suited := Seqs.Filter(ps, Suits(methodId));
    var r := Prioritize(ps, methodId);
    FilterHead(ps, Suits(methodId));
    assert key(ps[0]) == 0;
    assert ps[0] in multiset(r);
    assert r != [];
    assert key(r[0]) == 0 by {
      assert methodId in r[0].preferredFor;
      var j :| 0 <= j < |r| && r[j] == ps[0];
      if j > 0 {
        assert key(r[0]) <= key(r[j]);
      }
    }
    WithKeyHead(r, key);
    WithKeyHead(suited, key);
    assert Seqs.WithKey(r, key, 0) == Seqs.WithKey(suited, key, 0);
  }

  /** A two-entry list is sorted by one comparison. */
  lemma SortPair(a: PrecursorInfo, b: PrecursorInfo, key: PrecursorInfo -> int)
    ensures Seqs.SortBy([a, b], key) == if key(a) <= key(b) then [a, b] else [b, a]
  {
    assert [a, b][1..] == [b] && [b][1..] == [];
    assert Seqs.SortBy([b], key) == [b];
    assert Seqs.InsertBy(a, [b], key) == if key(a) <= key(b) then [a] + [b] else [b] + [a];
  }

  /** The best precursor is the first catalog entry when that entry puts the route first. */
  lemma BestFromFirstChoice(element: string, methodId: string)
    requires Catalogued(element) != []
    requires |Catalogued(element)[0].preferredFor| > 0 && Catalogued(element)[0].preferredFor[0] == methodId
    ensures GetBestPrecursor(element, methodId) == Some(Catalogued(element)[0])
  {
    FirstChoiceWins(Catalogued(element), methodId);
  }

  lemma LithiumFirstEntry()
    ensures Catalogued("Li") != [] && Catalogued("Li")[0] == PrecursorInfo("Li2CO3", "lithium carbonate", Carbonate, ["solid-state"])
  {
  }

  lemma CobaltFirstEntry()
    ensures Catalogued("Co") != [] && Catalogued("Co")[0] == PrecursorInfo("Co3O4", "cobalt oxide", Oxide, ["solid-state"])
  {
  }

  /** The top solid-state choices for lithium and cobalt. */
  lemma SolidStateBest()
    ensures GetBestPrecursor("Li", "solid-state") == Some(PrecursorInfo("Li2CO3", "lithium carbonate", Carbonate, ["solid-state"]))
    ensures GetBestPrecursor("Co", "solid-state") == Some(PrecursorInfo("Co3O4", "cobalt oxide", Oxide, ["solid-state"]))
  {
    LithiumFirstEntry();
    BestFromFirstChoice("Li", "solid-state");
    CobaltFirstEntry();
    BestFromFirstChoice("Co", "solid-state");
  }

  /** Gold has no sol-gel precursor, though it is catalogued. */
  lemma GoldHasNoSolGel()
    ensures HasElement("Au")
    ensures GetPrecursors("Au", "sol-gel") == []
    ensures GetBestPrecursor("Au", "sol-gel") == None
  {
    var ps := Catalogued("Au");
    assert forall i :: 0 <= i < |ps| ==> "sol-gel" !in ps[i].preferredFor;
  }

  /** Ranking a three-entry list whose first entry does not suit the route. */
  lemma PrioritizeSkipFirst(a: PrecursorInfo, b: PrecursorInfo, c: PrecursorInfo, methodId: string)
    requires methodId !in a.preferredFor && methodId in b.preferredFor && methodId in c.preferredFor
    ensures Prioritize([a, b, c], methodId) ==
      if Rank(methodId)(b) <= Rank(methodId)(c) then [b, c] else [c, b]
  {
    var ps := [a, b, c];
    var p := Suits(methodId);
    assert ps[1..] == [b, c] && [b, c][1..] == [c] && [c][1..] == [];
    assert Seqs.Filter([c], p) == [c] + Seqs.Filter([], p) == [c];
    assert Seqs.Filter([b, c], p) == [b] + Seqs.Filter([c], p) == [b, c];
    assert Seqs.Filter(ps, p) == [] + Seqs.Filter([b, c], p) == [b, c];
    SortPair(b, c, Rank(methodId));
  }

  lemma IridiumEntries()
    ensures Catalogued("Ir") == [
      PrecursorInfo("IrO2", "iridium dioxide", Oxide, ["solid-state"]),
      PrecursorInfo("IrCl3·xH2O", "iridium chloride hydrate", Chloride, ["hydrothermal", "solution"]),
      PrecursorInfo("H2IrCl6", "hexachloroiridic acid", Chloride, ["solution"])]
  {
  }

  /**
   * Ranking can reorder the catalog: for iridium in solution the third
   * entry (solution first) comes before the second (solution second).
   */
  lemma IridiumSolutionReordered()
    ensures GetPrecursors("Ir", "solution") == [
      PrecursorInfo("H2IrCl6", "hexachloroiridic acid", Chloride, ["solution"]),
      PrecursorInfo("IrCl3·xH2O", "iridium chloride hydrate", Chloride, ["hydrothermal", "solution"])]
  {
    IridiumPrioritized();
  }

  lemma IridiumPrioritized()
    ensures Prioritize(Catalogued("Ir"), "solution") == [
      PrecursorInfo("H2IrCl6", "hexachloroiridic acid", Chloride, ["solution"]),
      PrecursorInfo("IrCl3·xH2O", "iridium chloride hydrate", Chloride, ["hydrothermal", "solution"])]
  {
    var a := PrecursorInfo("IrO2", "iridium dioxide", Oxide, ["solid-state"]);
    var b := PrecursorInfo("IrCl3·xH2O", "iridium chloride hydrate", Chloride, ["hydrothermal", "solution"]);
    var c := PrecursorInfo("H2IrCl6", "hexachloroiridic acid", Chloride, ["solution"]);
    IridiumEntries();
    IridiumSolutionRanks(a, b, c);
    PrioritizeSkipFirst(a, b, c, "solution");
  }

  lemma IridiumSolutionRanks(a: PrecursorInfo, b: PrecursorInfo, c: PrecursorInfo)
    requires a.preferredFor == ["solid-state"] && b.preferredFor == ["hydrothermal", "solution"] && c.preferredFor == ["solution"]
    ensures "solution" !in a.preferredFor && "solution" in b.preferredFor && "solution" in c.preferredFor
    ensures Rank("solution")(b) == 1 && Rank("solution")(c) == 0
  {
    assert b.preferredFor[1] == "solution";
  }
}
