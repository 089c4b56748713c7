/** What the nutrient table holds, in terms of the raw entries. */
module NutrientTableProofs {
  import opened Wrappers
  import opened Nutrients
  import opened NutrientTable

  /** A number is in the table iff some entry for it was kept. */
  lemma {:induction false} TableKeys(es: seq<NutrientEntry>, k: int)
    ensures k in TableOf(es) <==> exists i :: 0 <= i < |es| && Kept(es[i]) && es[i].nutrient.number == k
    decreases |es|
  {
    if es != [] {
      var init := es[..|es| - 1];
      TableKeys(init, k);
      if k in TableOf(init) {
        var i :| 0 <= i < |init| && Kept(init[i]) && init[i].nutrient.number == k;
        assert es[i] == init[i];
      }
      if exists i :: 0 <= i < |es| && Kept(es[i]) && es[i].nutrient.number == k {
        var i :| 0 <= i < |es| && Kept(es[i]) && es[i].nutrient.number == k;
        if i < |es| - 1 {
          assert init[i] == es[i];
        }
      }
    }
  }

  /** The table holds, for each number, the entry built from its last kept entry. */
  lemma {:induction false} TableLastWins(es: seq<NutrientEntry>, k: int, i: int)
    requires LastKeptFor(es, k, i)
    ensures k in TableOf(es) && TableOf(es)[k] == TableEntry(es[i])
    decreases |es|
  {
    var init := es[..|es| - 1];
    var e := es[|es| - 1];
    if i < |es| - 1 {
      assert !(Kept(e) && e.nutrient.number == k);
      assert init[i] == es[i];
      forall j | i < j < |init| ensures !(Kept(init[j]) && init[j].nutrient.number == k) {
        assert init[j] == es[j];
      }
      TableLastWins(init, k, i);
    }
  }

  /** Every table entry sits under its own number, carries its catalog symbol and is non-zero. */
  lemma {:induction false} TableWellFormed(es: seq<NutrientEntry>)
    ensures forall k :: k in TableOf(es) ==>
      k in Catalog && TableOf(es)[k].fdcCode == k && TableOf(es)[k].symbol == Catalog[k].symbol
      && TableOf(es)[k].amount != 0.0
    decreases |es|
  {
    if es != [] {
      TableWellFormed(es[..|es| - 1]);
    }
  }
}
