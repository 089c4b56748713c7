/**
 * `Food_Stub` (utils.py:149-171): a search-result food with its FDC id,
 * its title-cased name and the calories of its first energy entry.
 */
module FoodStubModel {
  import opened Wrappers
  import opened PyValues
  import opened TitleCase

  /** FDC nutrient number of energy in kcal. */
  const EnergyNumber: int := 208

  /** One element of a search result's `foodNutrients`; `value` may be absent. */
  datatype StubNutrient = StubNutrient(nutrientNumber: int, value: Option<real>)

  /** A search-result JSON object; `None` is a missing key. */
  datatype StubJson = StubJson(fdcId: Option<int>, description: Option<string>,
                               foodNutrients: Option<seq<StubNutrient>>)

  /**
   * The calories the scan settles on: the value of the first energy entry,
   * `None` when there is none, and `KeyError` when that entry has no value.
   */
  function FirstCalories(es: seq<StubNutrient>): Result<Option<real>, Error>
    decreases |es|
  {
    if es == [] then Success(None)
    else if es[0].nutrientNumber != EnergyNumber then FirstCalories(es[1..])
    else if es[0].value.None? then Failure(KeyError("value"))
    else Success(Some(es[0].value.value))
  }

  /** The state of a `Food_Stub`. */
  datatype StubFields = StubFields(fdcId: int, foodName: string, calories: Option<real>)

  /** `from_json_object` on values: `fdcId`, `description`, then `foodNutrients` are looked up in that order. */
  function FromJson(j: StubJson): Result<StubFields, Error>
  {
    if j.fdcId.None? then Failure(KeyError("fdcId"))
    else if j.description.None? then Failure(KeyError("description"))
    else if j.foodNutrients.None? then Failure(KeyError("foodNutrients"))
    else match FirstCalories(j.foodNutrients.value)
      case Failure(e) => Failure(e)
      case Success(calories) => Success(StubFields(j.fdcId.value, TitleCased(j.description.value), calories))
  }

  /** `Food_Stub`. */
  class FoodStub {
    var fdcId: int
    var foodName: string
    var calories: Option<real>

    function Fields(): StubFields
      reads this
    {
      StubFields(fdcId, foodName, calories)
    }

    /** `__init__`: the name is title-cased as given, without lower-casing it first. */
    constructor (fdcId: int, foodName: string)
      ensures Fields() == StubFields(fdcId, TitleCased(foodName), None)
    {
      var name := TitleCaseOf(foodName);
      this.fdcId := fdcId;
      this.foodName := name;
      this.calories := None;
    }

    /** The scan of `foodNutrients` for the first energy entry. */
    static method ScanCalories(es: seq<StubNutrient>) returns (r: Result<Option<real>, Error>)
      ensures r == FirstCalories(es)
    {
      var i := 0;
      while i < |es|
        invariant 0 <= i <= |es|
        invariant FirstCalories(es[i..]) == FirstCalories(es)
      {
        assert es[i..][1..] == es[i + 1..];
        if es[i].nutrientNumber != EnergyNumber {
          i := i + 1;
          continue;
        }
        if es[i].value.None? {
          return Failure(KeyError("value"));
        }
        return Success(Some(es[i].value.value));
      }
      return Success(None);
    }

    /** `from_json_object`. */
    static method FromJsonObject(j: StubJson) returns (r: Result<FoodStub, Error>)
      ensures r.Failure? <==> FromJson(j).Failure?
      ensures r.Failure? ==> r.error == FromJson(j).error
      ensures r.Success? ==> fresh(r.value) && r.value.Fields() == FromJson(j).value
    {
      if j.fdcId.None? {
        return Failure(KeyError("fdcId"));
      }
      if j.description.None? {
        return Failure(KeyError("description"));
      }
      var foodObj := new FoodStub(j.fdcId.value, j.description.value);
      if j.foodNutrients.None? {
        return Failure(KeyError("foodNutrients"));
      }
      var calories := ScanCalories(j.foodNutrients.value);
      if calories.Failure? {
        return Failure(calories.error);
      }
      foodObj.calories := calories.value;
      return Success(foodObj);
    }

    /** `serialize`: the three attributes; missing calories become `None`. */
    function Serialize(): (d: map<string, Value>)
      reads this
      ensures d.Keys == {"fdc_id", "food_name", "calories"}
      ensures d["calories"] == Null <==> calories.None?
      ensures d["calories"].Real? ==> d["calories"] == Real(calories.value)
      ensures d["fdc_id"] == Int(fdcId) && d["food_name"] == Str(foodName)
      ensures calories.Some? ==> d["calories"] == Real(calories.value)
    {
      map["fdc_id" := Int(fdcId), "food_name" := Str(foodName),
          "calories" := if calories.Some? then Real(calories.value) else Null]
    }
  }
}
