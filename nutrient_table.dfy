/**
 * The FDC food-detail payload and `_food_json_obj_to_nutrient_table`
 * (utils.py:189-205): which raw nutrient entries are kept, and how each is
 * turned into a catalog `Nutrient`.
 */
module NutrientTable {
  import opened Wrappers
  import opened PyValues
  import opened Chars
  import opened Nutrients

  /** The `nutrient` object inside a raw entry. */
  datatype NutrientInfo = NutrientInfo(number: int, name: string, unitName: string)

  /** One element of `foodNutrients`; `amount` may be absent. */
  datatype NutrientEntry = NutrientEntry(nutrient: NutrientInfo, amount: Option<real>)

  /** One element of `foodPortions`. */
  datatype Portion = Portion(amount: Option<real>, modifier: Option<string>)

  /** A food-detail JSON object; `None` is a missing key. */
  datatype FoodJson = FoodJson(
    fdcId: Option<int>,
    description: Option<string>,
    dataType: Option<string>,
    foodPortions: Option<seq<Portion>>,
    servingSize: Option<real>,
    servingSizeUnit: Option<string>,
    foodNutrients: Option<seq<NutrientEntry>>)

  /** An entry survives the three `continue`s: tracked number, amount present and non-zero. */
  predicate Kept(e: NutrientEntry)
  {
    e.nutrient.number in Catalog && e.amount.Some? && e.amount.value != 0.0
  }

  /** The `Nutrient` built from a kept entry: lower-cased units, catalog symbol. */
  function TableEntry(e: NutrientEntry): (n: Nutrient)
    requires Kept(e)
    ensures n.fdcCode == e.nutrient.number && n.symbol == Catalog[n.fdcCode].symbol
    ensures n.amount == e.amount.value && n.amount != 0.0
    ensures n.name == e.nutrient.name && n.units == Lower(e.nutrient.unitName)
  {
    Nutrient(e.nutrient.name, Lower(e.nutrient.unitName), e.nutrient.number, e.amount.value,
             Catalog[e.nutrient.number].symbol)
  }

  /** The table after processing `es` in order; a later entry overwrites an earlier one. */
  function TableOf(es: seq<NutrientEntry>): map<int, Nutrient>
    decreases |es|
  {
    if es == [] then map[]
    else
      var e := es[|es| - 1];
      var t := TableOf(es[..|es| - 1]);
      if Kept(e) then t[e.nutrient.number := TableEntry(e)] else t
  }

  /** Index `i` is the last kept entry for nutrient number `k`. */
  predicate LastKeptFor(es: seq<NutrientEntry>, k: int, i: int)
  {
    0 <= i < |es| && Kept(es[i]) && es[i].nutrient.number == k &&
    forall j :: i < j < |es| ==> !(Kept(es[j]) && es[j].nutrient.number == k)
  }

  /**
   * `_food_json_obj_to_nutrient_table`: the loop over `foodNutrients`; a
   * payload without that key raises `KeyError`.
   */
  method FoodJsonObjToNutrientTable(j: FoodJson) returns (r: Result<map<int, Nutrient>, Error>)
    ensures j.foodNutrients.None? <==> r.Failure?
    ensures r.Failure? ==> r.error == KeyError("foodNutrients")
    ensures r.Success? ==> r.value == TableOf(j.foodNutrients.value)
  {
    if j.foodNutrients.None? {
      return Failure(KeyError("foodNutrients"));
    }
    var es := j.foodNutrients.value;
    var table: map<int, Nutrient> := map[];
    for i := 0 to |es|
      invariant table == TableOf(es[..i])
    {
      assert es[..i + 1][..i] == es[..i];
      var e := es[i];
      var fdcCode := e.nutrient.number;
      if fdcCode !in Catalog {
        continue;
      } else if e.amount.None? {
        continue;
      } else if e.amount.value == 0.0 {
        continue;
      }
      table := table[fdcCode := Nutrient(e.nutrient.name, Lower(e.nutrient.unitName), fdcCode,
                                         e.amount.value, Catalog[fdcCode].symbol)];
    }
    assert es[..|es|] == es;
    return Success(table);
  }
}
