/** Facts about the nutrient catalog and the daily-value table. */
module NutrientFacts {
  import opened Wrappers
  import opened PyValues
  import opened Nutrients

  /** The 26 attribute names a detailed food carries, written out. */
  const SymbolList: seq<string> := ["protein_g", "total_fat_g", "total_carbohydrates_g", "energy_kcal", "sugars_g",
    "dietary_fiber_g", "calcium_mg", "iron_mg", "magnesium_mg", "phosphorous_mg", "potassium_mg", "sodium_mg",
    "zinc_mg", "copper_mg", "iodine_mcg", "vitamin_E_mg", "vitamin_D_mcg", "thiamin_B1_mg", "riboflavin_B2_mg",
    "niacin_B3_mg", "pantothenic_acid_B5_mg", "biotin_mcg", "folate_mcg", "cholesterol_mg", "trans_fat_g",
    "saturated_fat_g"]

  const SymbolSet: set<string> := set s | s in SymbolList

  /** A sequence has at most as many distinct elements as positions. */
  lemma {:induction false} ElementsAtMostLength(s: seq<string>)
    ensures |set x | x in s| <= |s|
  {
    if s != [] {
      var tail := s[1..];
      ElementsAtMostLength(tail);
      assert (set x | x in s) == (set x | x in tail) + {s[0]};
    }
  }

  /** A subset as large as its superset is the whole superset. */
  lemma SubsetOfEqualSize(a: set<string>, b: set<string>)
    requires a <= b && |b| <= |a|
    ensures a == b
  {
    var d := b - a;
    assert b == a + d;
    assert |d| == 0;
  }

  /** The symbols a map's nutrients carry. */
  function SymbolsOf(m: map<int, Nutrient>): set<string>
  {
    set c | c in m :: m[c].symbol
  }

  /** A map whose values carry pairwise distinct symbols has as many symbols as keys. */
  lemma {:induction false} DistinctSymbolsCount(m: map<int, Nutrient>)
    requires forall c, c' :: c in m && c' in m && c != c' ==> m[c].symbol != m[c'].symbol
    ensures |SymbolsOf(m)| == |m|
  {
    if m != map[] {
      var k :| k in m;
      var rest := m - {k};
      DistinctSymbolsCount(rest);
      forall y | y in SymbolsOf(m) ensures y in SymbolsOf(rest) + {m[k].symbol} {
        var c :| c in m && m[c].symbol == y;
        if c != k {
          assert c in rest;
        }
      }
      assert m[k].symbol !in SymbolsOf(rest);
      assert SymbolsOf(m) == SymbolsOf(rest) + {m[k].symbol};
      assert |rest| == |m| - 1;
    }
  }

  /** A sequence without repeats has as many distinct elements as positions. */
  lemma {:induction false} DistinctElementsCount(s: seq<int>)
    requires forall i, j :: 0 <= i < j < |s| ==> s[i] != s[j]
    ensures |set x | x in s| == |s|
  {
    if s != [] {
      var tail := s[1..];
      forall i, j | 0 <= i < j < |tail| ensures tail[i] != tail[j] {
        assert tail[i] == s[i + 1] && tail[j] == s[j + 1];
      }
      DistinctElementsCount(tail);
      assert (set x | x in s) == (set x | x in tail) + {s[0]};
      assert s[0] !in (set x | x in tail);
    }
  }

  /** Each entry is filed under its own FDC number and starts at amount zero. */
  lemma CatalogKeyedByCode()
    ensures forall c :: c in Catalog ==> Catalog[c].fdcCode == c && Catalog[c].amount == 0.0
  {
  }

  lemma OrderedCodesAreKeys()
    ensures forall c :: c in CatalogOrder ==> c in Catalog
  {
  }

  lemma KeysAreOrdered()
    ensures forall c :: c in Catalog ==> c in CatalogOrder
  {
  }

  lemma OrderHasNoRepeats()
    ensures forall i, j :: 0 <= i < j < |CatalogOrder| ==> CatalogOrder[i] != CatalogOrder[j]
  {
  }

  /** The iteration order lists every key exactly once. */
  lemma CatalogOrderListsKeys()
    ensures (set c | c in CatalogOrder) == Catalog.Keys
    ensures forall i, j :: 0 <= i < j < |CatalogOrder| ==> CatalogOrder[i] != CatalogOrder[j]
  {
    OrderedCodesAreKeys();
    KeysAreOrdered();
    OrderHasNoRepeats();
  }

  /** The catalog tracks 26 nutrients. */
  lemma CatalogSize()
    ensures |Catalog| == 26
  {
    CatalogOrderListsKeys();
    DistinctElementsCount(CatalogOrder);
  }

  /**
   * The FDC number a catalog symbol belongs to, read off the symbol's length
   * and a few of its characters; 0 for anything the catalog does not use.
   */
  function CodeOfSymbol(s: string): int
  {
    if |s| == 7 then (if s[3] == 'c' then 309 else 303)
    else if |s| == 8 then 269
    else if |s| == 9 then (if s[7] == '_' then 203 else (if s[5] == 'm' then 307 else 312))
    else if |s| == 10 then (if s[8] == 'c' then (if s[5] == 'e' then (if s[4] == 'n' then 314 else 417) else 416) else 301)
    else if |s| == 11 then (if s[10] == 'g' then (if s[4] == 'l' then 204 else 605) else 208)
    else if |s| == 12 then (if s[8] == '3' then 406 else if s[8] == 'E' then 323 else (if s[4] == 'e' then 304 else 306))
    else if |s| == 13 then (if s[11] == 'c' then 324 else 404)
    else if |s| == 14 then (if s[10] == 'l' then 601 else 305)
    else if |s| == 15 then (if s[12] == 'r' then 291 else 606)
    else if |s| == 16 then 405
    else if |s| == 21 then 205
    else if |s| == 22 then 410
    else 0
  }

  /** `CodeOfSymbol` is a left inverse of the catalog's symbols. */
  lemma CodeOfSymbolInverts()
    ensures forall c :: c in Catalog ==> CodeOfSymbol(Catalog[c].symbol) == c
  {
  }

  /** No two catalog entries share an attribute symbol. */
  lemma CatalogSymbolsDistinct()
    ensures forall c, c' :: c in Catalog && c' in Catalog && c != c' ==> Catalog[c].symbol != Catalog[c'].symbol
  {
    CodeOfSymbolInverts();
  }

  /** Every catalog symbol is one of the listed names. */
  lemma CatalogSymbolsAmongListed()
    ensures forall c :: c in Catalog ==> Catalog[c].symbol in SymbolList
  {
  }

  /** The catalog's symbols are exactly the 26 listed names. */
  lemma CatalogSymbolsListed()
    ensures CatalogSymbols() == SymbolSet
  {
    CatalogSymbolsAmongListed();
    CatalogSymbolsDistinct();
    DistinctSymbolsCount(Catalog);
    assert SymbolsOf(Catalog) == CatalogSymbols();
    CatalogSize();
    ElementsAtMostLength(SymbolList);
    SubsetOfEqualSize(CatalogSymbols(), SymbolSet);
  }

  lemma DailyValuesAmongSymbols()
    ensures DailyValues.Keys <= CatalogSymbols()
  {
    CatalogSymbolsListed();
  }

  lemma OnlyEnergyAndTransFatUntabled()
    ensures forall s :: s in CatalogSymbols() && s !in DailyValues ==> s == "energy_kcal" || s == "trans_fat_g"
  {
    CatalogSymbolsListed();
  }

  lemma EnergyAndTransFatUntabled()
    ensures "energy_kcal" in CatalogSymbols() && "energy_kcal" !in DailyValues
    ensures "trans_fat_g" in CatalogSymbols() && "trans_fat_g" !in DailyValues
  {
    CatalogSymbolsListed();
    assert SymbolList[3] == "energy_kcal" && SymbolList[24] == "trans_fat_g";
  }

  lemma SymbolsWithoutDailyValue()
    ensures CatalogSymbols() - DailyValues.Keys == {"energy_kcal", "trans_fat_g"}
  {
    OnlyEnergyAndTransFatUntabled();
    EnergyAndTransFatUntabled();
  }

  /**
   * Every daily value belongs to a catalog symbol and is positive, and only
   * energy and trans fat have none.
   */
  lemma DailyValuesCoverCatalog()
    ensures DailyValues.Keys <= CatalogSymbols()
    ensures CatalogSymbols() - DailyValues.Keys == {"energy_kcal", "trans_fat_g"}
    ensures forall s :: s in DailyValues ==> DailyValues[s] > 0.0
  {
    DailyValuesAmongSymbols();
    SymbolsWithoutDailyValue();
  }

  /** Zero of a tabled nutrient is 0 percent, never a failure. */
  lemma DvPercOfZero(n: Nutrient)
    requires n.symbol in DailyValues && n.amount == 0.0
    ensures DvPerc(n) == Success(0)
  {
  }

  /** Rounding is determined by its contract: nearest integer, ties to even. */
  lemma RoundHalfEvenUnique(x: real, r: int)
    requires r as real - x <= 0.5 && x - r as real <= 0.5
    requires (r as real - x == 0.5 || x - r as real == 0.5) ==> r % 2 == 0
    ensures r == RoundHalfEven(x)
  {
  }
}
