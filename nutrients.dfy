/**
 * `Nutrient` (utils.py:18-53) and the static nutrient catalog of
 * `Abstract_Food` (utils.py:57-84): one nutrient measurement, its percent of
 * the daily reference value, and its serialized dictionary.
 */
module Nutrients {
  import opened Wrappers
  import opened PyValues

  /** One nutrient amount. Amounts are exact reals, not binary floats. */
  datatype Nutrient = Nutrient(name: string, units: string, fdcCode: int, amount: real, symbol: string)

  /** `Nutrient.daily_values`: reference daily intake per symbol. */
  const DailyValues: map<string, real> := map[
    "biotin_mcg" := 30.0, "calcium_mg" := 1300.0, "cholesterol_mg" := 300.0, "copper_mg" := 0.9,
    "dietary_fiber_g" := 28.0, "folate_mcg" := 400.0, "iodine_mcg" := 150.0, "iron_mg" := 18.0,
    "magnesium_mg" := 420.0, "niacin_B3_mg" := 16.0, "pantothenic_acid_B5_mg" := 5.0,
    "phosphorous_mg" := 1250.0, "potassium_mg" := 4700.0, "protein_g" := 50.0,
    "riboflavin_B2_mg" := 1.3, "saturated_fat_g" := 20.0, "sodium_mg" := 2300.0, "sugars_g" := 50.0,
    "thiamin_B1_mg" := 1.2, "total_carbohydrates_g" := 275.0, "total_fat_g" := 78.0,
    "vitamin_D_mcg" := 20.0, "vitamin_E_mg" := 15.0, "zinc_mg" := 11.0]

  /** `Abstract_Food.nutrients`: the tracked nutrients by FDC nutrient number. */
  const Catalog: map<int, Nutrient> := map[
    203 := Nutrient("protein (g)", "g", 203, 0.0, "protein_g"),
    204 := Nutrient("total fat (g)", "g", 204, 0.0, "total_fat_g"),
    205 := Nutrient("total carbohydrates (g)", "g", 205, 0.0, "total_carbohydrates_g"),
    208 := Nutrient("energy (kcal)", "kcal", 208, 0.0, "energy_kcal"),
    269 := Nutrient("sugars (g)", "g", 269, 0.0, "sugars_g"),
    291 := Nutrient("dietary fiber (g)", "g", 291, 0.0, "dietary_fiber_g"),
    301 := Nutrient("calcium (mg)", "mg", 301, 0.0, "calcium_mg"),
    303 := Nutrient("iron (mg)", "mg", 303, 0.0, "iron_mg"),
    304 := Nutrient("magnesium (mg)", "mg", 304, 0.0, "magnesium_mg"),
    305 := Nutrient("phosphorus (mg)", "mg", 305, 0.0, "phosphorous_mg"),
    306 := Nutrient("potassium (mg)", "mg", 306, 0.0, "potassium_mg"),
    307 := Nutrient("sodium (mg)", "mg", 307, 0.0, "sodium_mg"),
    309 := Nutrient("zinc (mg)", "mg", 309, 0.0, "zinc_mg"),
    312 := Nutrient("copper (mg)", "mg", 312, 0.0, "copper_mg"),
    314 := Nutrient("iodine (mcg)", "mcg", 314, 0.0, "iodine_mcg"),
    323 := Nutrient("vitamin E (mg)", "mg", 323, 0.0, "vitamin_E_mg"),
    324 := Nutrient("vitamin D (mcg)", "mcg", 324, 0.0, "vitamin_D_mcg"),
    404 := Nutrient("thiamin (vitamin B1) (mg)", "mg", 404, 0.0, "thiamin_B1_mg"),
    405 := Nutrient("riboflavin (vitamin B2) (mg)", "mg", 405, 0.0, "riboflavin_B2_mg"),
    406 := Nutrient("niacin (vitamin B3) (mg)", "mg", 406, 0.0, "niacin_B3_mg"),
    410 := Nutrient("pantothenic acid (mg)", "mg", 410, 0.0, "pantothenic_acid_B5_mg"),
    416 := Nutrient("biotin (mcg)", "mcg", 416, 0.0, "biotin_mcg"),
    417 := Nutrient("folate (mcg)", "mcg", 417, 0.0, "folate_mcg"),
    601 := Nutrient("cholesterol (mg)", "mg", 601, 0.0, "cholesterol_mg"),
    605 := Nutrient("trans fat (g)", "g", 605, 0.0, "trans_fat_g"),
    606 := Nutrient("saturated fat (g)", "g", 606, 0.0, "saturated_fat_g")]

  /** The catalog's keys in the dictionary's insertion (iteration) order. */
  const CatalogOrder: seq<int> :=
    [203, 204, 205, 208, 269, 291, 301, 303, 304, 305, 306, 307, 309, 312, 314, 323, 324,
     404, 405, 406, 410, 416, 417, 601, 605, 606]

  /** The attribute symbol of vitamin D, the one nutrient whose unit is converted. */
  const VitaminDSymbol: string := "vitamin_D_mcg"

  /** The attribute names a detailed food has one nutrient slot for. */
  function CatalogSymbols(): set<string>
  {
    set c | c in Catalog :: Catalog[c].symbol
  }

  /**
   * Python's `round(x, 0)` on an exact value: the nearest integer, ties to
   * the even one.
   */
  function RoundHalfEven(x: real): (r: int)
    ensures r as real - x <= 0.5 && x - r as real <= 0.5
    ensures (r as real - x == 0.5 || x - r as real == 0.5) ==> r % 2 == 0
  {
    var f := x.Floor;
    var d := x - f as real;
    if d < 0.5 then f
    else if d > 0.5 then f + 1
    else if f % 2 == 0 then f else f + 1
  }

  /**
   * `dv_perc`: the amount as a rounded percentage of the daily value; a
   * symbol without a daily value raises `AttributeError`.
   */
  function DvPerc(n: Nutrient): (r: Result<int, Error>)
    ensures r.Failure? <==> n.symbol !in DailyValues
    ensures r.Failure? ==> r.error == AttributeError("dv_perc")
    ensures r.Success? ==>
      var exact := 100.0 * n.amount / DailyValues[n.symbol];
      r.value as real - exact <= 0.5 && exact - r.value as real <= 0.5
    ensures r.Success? ==> r.value == RoundHalfEven(100.0 * n.amount / DailyValues[n.symbol])
  {
    if n.symbol !in DailyValues then Failure(AttributeError("dv_perc"))
    else Success(RoundHalfEven(100.0 * n.amount / DailyValues[n.symbol]))
  }

  /**
   * `serialize`: the five fields always, and `dv_perc` exactly when
   * `hasattr` finds it, i.e. when the symbol has a daily value; `round(x, 0)`
   * returns a float, so the percentage is stored as a real.
   */
  function Serialize(n: Nutrient): (d: map<string, Value>)
    ensures d.Keys == {"name", "units", "fdc_code", "amount", "symbol"}
                      + (if n.symbol in DailyValues then {"dv_perc"} else {})
    ensures d["name"] == Str(n.name) && d["units"] == Str(n.units) && d["symbol"] == Str(n.symbol)
    ensures d["fdc_code"] == Int(n.fdcCode) && d["amount"] == Real(n.amount)
    ensures "dv_perc" in d <==> DvPerc(n).Success?
    ensures "dv_perc" in d ==> d["dv_perc"] == Real(DvPerc(n).value as real)
  {
    var fields := map["name" := Str(n.name), "units" := Str(n.units), "fdc_code" := Int(n.fdcCode),
                      "amount" := Real(n.amount), "symbol" := Str(n.symbol)];
    match DvPerc(n)
    case Success(p) => fields["dv_perc" := Real(p as real)]
    case Failure(_) => fields
  }
}
