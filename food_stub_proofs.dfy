/** Which entry a stub's calories come from. */
module FoodStubProofs {
  import opened Wrappers
  import opened PyValues
  import opened FoodStubModel
  import TitleCase

  /** No energy entry: the stub has no calories, and nothing is raised. */
  lemma {:induction false} NoEnergyEntry(es: seq<StubNutrient>)
    ensures FirstCalories(es) == Success(None) <==> forall i :: 0 <= i < |es| ==> es[i].nutrientNumber != EnergyNumber
    decreases |es|
  {
    if es != [] {
      NoEnergyEntry(es[1..]);
      assert forall i :: 1 <= i < |es| ==> es[i] == es[1..][i - 1];
    }
  }

  /** The first energy entry decides: its value, or `KeyError` when it has none; later ones are ignored. */
  lemma {:induction false} FirstEnergyEntry(es: seq<StubNutrient>, i: int)
    requires 0 <= i < |es| && es[i].nutrientNumber == EnergyNumber
    requires forall k :: 0 <= k < i ==> es[k].nutrientNumber != EnergyNumber
    ensures FirstCalories(es) == if es[i].value.None? then Failure(KeyError("value")) else Success(Some(es[i].value.value))
    decreases i
  {
    if i > 0 {
      assert es[0].nutrientNumber != EnergyNumber;
      forall k | 0 <= k < i - 1 ensures es[1..][k].nutrientNumber != EnergyNumber {
        assert es[1..][k] == es[k + 1];
      }
      FirstEnergyEntry(es[1..], i - 1);
    }
  }

  /**
   * A stub read from a search result serializes to that result's id, its
   * title-cased description, and the first energy value, or `None` when no
   * entry is numbered 208.
   */
  lemma SerializedFromJson(stub: FoodStub, j: StubJson, i: int)
    requires FromJson(j).Success? && stub.Fields() == FromJson(j).value
    ensures j.fdcId.Some? && j.description.Some? && j.foodNutrients.Some?
    ensures var d := stub.Serialize();
      d["fdc_id"] == Int(j.fdcId.value) && d["food_name"] == Str(TitleCase.TitleCased(j.description.value))
    ensures var es := j.foodNutrients.value;
      stub.Serialize()["calories"] == Null <==> forall k :: 0 <= k < |es| ==> es[k].nutrientNumber != EnergyNumber
    ensures var es := j.foodNutrients.value;
      0 <= i < |es| && es[i].nutrientNumber == EnergyNumber && (forall k :: 0 <= k < i ==> es[k].nutrientNumber != EnergyNumber) ==>
      es[i].value.Some? && stub.Serialize()["calories"] == Real(es[i].value.value)
  {
    var es := j.foodNutrients.value;
    NoEnergyEntry(es);
    if 0 <= i < |es| && es[i].nutrientNumber == EnergyNumber && (forall k :: 0 <= k < i ==> es[k].nutrientNumber != EnergyNumber) {
      FirstEnergyEntry(es, i);
    }
  }
}
