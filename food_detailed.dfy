/**
 * `Food_Detailed` (utils.py:174-264): a food with its serving and one slot
 * per catalog nutrient, built from an FDC food-detail payload or from a
 * stored row, and flattened back into a dictionary for storage.
 */
module FoodDetailedModel {
  import opened Wrappers
  import opened PyValues
  import opened Chars
  import opened TitleCase
  import opened Nutrients
  import opened NutrientTable
  import opened NutrientFacts

  /** `__slots__`: the attributes `serialize` walks, in order. */
  const Slots: seq<string> :=
    ["fdc_id", "food_name", "serving_size", "serving_units", "biotin_mcg", "calcium_mg", "cholesterol_mg",
     "copper_mg", "dietary_fiber_g", "energy_kcal", "folate_mcg", "iodine_mcg", "iron_mg", "magnesium_mg",
     "niacin_B3_mg", "pantothenic_acid_B5_mg", "phosphorous_mg", "potassium_mg", "protein_g",
     "riboflavin_B2_mg", "saturated_fat_g", "sodium_mg", "sugars_g", "thiamin_B1_mg",
     "total_carbohydrates_g", "total_fat_g", "trans_fat_g", "vitamin_D_mcg", "vitamin_E_mg", "zinc_mg"]

  /** The four slots that are not nutrients. */
  predicate IsHeaderSlot(name: string)
  {
    name == "fdc_id" || name == "food_name" || name == "serving_size" || name == "serving_units"
  }

  /** A nutrient slot map has exactly one slot per catalog symbol. */
  predicate WellKeyed(slots: map<string, Option<Nutrient>>)
  {
    slots.Keys == CatalogSymbols()
  }

  /** Every nutrient slot unset (`None`), as `__init__` leaves them. */
  function EmptySlots(): (slots: map<string, Option<Nutrient>>)
    ensures WellKeyed(slots)
    ensures forall s :: s in slots ==> slots[s].None?
  {
    map s | s in CatalogSymbols() :: None
  }

  /**
   * The slots after walking the catalog codes `codes` in order and storing
   * `found[c]` under code `c`'s symbol wherever `found` has an entry.
   */
  function SlotsFrom(codes: seq<int>, found: map<int, Option<Nutrient>>, base: map<string, Option<Nutrient>>)
    : map<string, Option<Nutrient>>
    requires forall i :: 0 <= i < |codes| ==> codes[i] in Catalog
    decreases |codes|
  {
    if codes == [] then base
    else
      var c := codes[|codes| - 1];
      var slots := SlotsFrom(codes[..|codes| - 1], found, base);
      if c in found then slots[Catalog[c].symbol := found[c]] else slots
  }

  /** What `__init__` stores per catalog code: nothing yet. */
  function AllUnset(): map<int, Option<Nutrient>>
  {
    map c | c in Catalog :: None
  }

  /**
   * The vitamin D conversion: FDC reports IU and 40 IU make 1 mcg; the
   * units are forced to "mcg" whatever the payload said.
   */
  function VitaminDAdjusted(c: int, n: Nutrient): (r: Nutrient)
    requires c in Catalog
    ensures Catalog[c].symbol != VitaminDSymbol ==> r == n
    ensures Catalog[c].symbol == VitaminDSymbol ==>
      r.amount * 40.0 == n.amount && r.units == "mcg" && r.(amount := n.amount, units := n.units) == n
  {
    if Catalog[c].symbol == VitaminDSymbol then n.(amount := n.amount / 40.0, units := "mcg") else n
  }

  /** What `from_json_object` stores per catalog code, given the nutrient table. */
  function JsonFound(table: map<int, Nutrient>): map<int, Option<Nutrient>>
  {
    map c | c in table && c in Catalog :: Some(VitaminDAdjusted(c, table[c]))
  }

  /** A stored row of the `Food` model (foods/models.py); columns by attribute name. */
  datatype FoodModel = FoodModel(fdcId: int, foodName: string, servingSize: int, servingUnits: string,
                                 columns: map<string, int>)

  /** The nutrient columns of the `Food` model. */
  const FoodColumns: set<string> :=
    {"energy_kcal", "total_fat_g", "saturated_fat_g", "trans_fat_g", "cholesterol_mg", "sodium_mg",
     "total_carbohydrates_g", "dietary_fiber_g", "sugars_g", "protein_g", "vitamin_D_mcg", "potassium_mg",
     "iron_mg", "calcium_mg", "vitamin_E_mg", "thiamin_B1_mg", "riboflavin_B2_mg", "niacin_B3_mg",
     "folate_B9_mcg", "biotin_B7_mcg", "pantothenic_acid_B5_mg", "phosphorous_mg", "iodine_mcg",
     "magnesium_mg", "zinc_mg", "copper_mg"}

  /** What `from_model_object` stores: a copy of the catalog entry carrying the column's amount. */
  function ModelFound(m: FoodModel): map<int, Option<Nutrient>>
  {
    map c | c in Catalog && Catalog[c].symbol in m.columns :: Some(Catalog[c].(amount := m.columns[Catalog[c].symbol] as real))
  }

  /** The observable state of a `Food_Detailed`. */
  datatype DetailedFields = DetailedFields(fdcId: int, foodName: string, servingSize: real,
                                           servingUnits: string, nutrients: map<string, Option<Nutrient>>)

  /** The fields the payload's header determines. */
  datatype Header = Header(fdcId: int, description: string, servingSize: real, servingUnits: string)

  /** The payload has an id, a description and the given data type. */
  predicate Identified(j: FoodJson, dataType: string)
  {
    j.fdcId.Some? && j.description.Some? && j.dataType == Some(dataType)
  }

  /**
   * The header of `from_json_object`: the lookups of `fdcId`, `description`
   * and `dataType` in that order, then the serving from `foodPortions[0]`
   * ("SR Legacy") or from `servingSize`/`servingSizeUnit` ("Branded"); any
   * other data type is rejected.
   */
  function HeaderOf(j: FoodJson): (r: Result<Header, Error>)
    ensures r.Success? ==> j.fdcId == Some(r.value.fdcId) && j.description == Some(r.value.description)
    ensures r.Success? && j.dataType == Some("SR Legacy") ==>
      j.foodPortions.Some? && |j.foodPortions.value| > 0 &&
      j.foodPortions.value[0] == Portion(Some(r.value.servingSize), Some(r.value.servingUnits))
    ensures r.Success? && j.dataType == Some("Branded") ==>
      j.servingSize == Some(r.value.servingSize) && j.servingSizeUnit == Some(r.value.servingUnits)
    ensures r.Success? ==> j.dataType == Some("SR Legacy") || j.dataType == Some("Branded")
    ensures j.fdcId.None? ==> r == Failure(KeyError("fdcId"))
    ensures j.fdcId.Some? && j.description.None? ==> r == Failure(KeyError("description"))
    ensures j.fdcId.Some? && j.description.Some? && j.dataType.None? ==> r == Failure(KeyError("dataType"))
    ensures j.fdcId.Some? && j.description.Some? && j.dataType.Some? &&
            j.dataType.value != "SR Legacy" && j.dataType.value != "Branded" ==>
            r == Failure(UnsupportedDataType(j.dataType.value))
    ensures Identified(j, "SR Legacy") && j.foodPortions.None? ==> r == Failure(KeyError("foodPortions"))
    ensures Identified(j, "SR Legacy") && j.foodPortions == Some([]) ==> r == Failure(IndexError)
    ensures Identified(j, "SR Legacy") && j.foodPortions.Some? && |j.foodPortions.value| > 0 ==>
      var p := j.foodPortions.value[0];
      && (p.amount.None? ==> r == Failure(KeyError("amount")))
      && (p.amount.Some? && p.modifier.None? ==> r == Failure(KeyError("modifier")))
      && (p.amount.Some? && p.modifier.Some? ==>
            r == Success(Header(j.fdcId.value, j.description.value, p.amount.value, p.modifier.value)))
    ensures Identified(j, "Branded") && j.servingSize.None? ==> r == Failure(KeyError("servingSize"))
    ensures Identified(j, "Branded") && j.servingSize.Some? && j.servingSizeUnit.None? ==>
      r == Failure(KeyError("servingSizeUnit"))
    ensures Identified(j, "Branded") && j.servingSize.Some? && j.servingSizeUnit.Some? ==>
      r == Success(Header(j.fdcId.value, j.description.value, j.servingSize.value, j.servingSizeUnit.value))
  {
    if j.fdcId.None? then Failure(KeyError("fdcId"))
    else if j.description.None? then Failure(KeyError("description"))
    else if j.dataType.None? then Failure(KeyError("dataType"))
    else if j.dataType.value == "SR Legacy" then
      if j.foodPortions.None? then Failure(KeyError("foodPortions"))
      else if |j.foodPortions.value| == 0 then Failure(IndexError)
      else if j.foodPortions.value[0].amount.None? then Failure(KeyError("amount"))
      else if j.foodPortions.value[0].modifier.None? then Failure(KeyError("modifier"))
      else Success(Header(j.fdcId.value, j.description.value, j.foodPortions.value[0].amount.value,
                          j.foodPortions.value[0].modifier.value))
    else if j.dataType.value == "Branded" then
      if j.servingSize.None? then Failure(KeyError("servingSize"))
      else if j.servingSizeUnit.None? then Failure(KeyError("servingSizeUnit"))
      else Success(Header(j.fdcId.value, j.description.value, j.servingSize.value, j.servingSizeUnit.value))
    else Failure(UnsupportedDataType(j.dataType.value))
  }

  /** The whole of `from_json_object` on values. */
  function FromJson(j: FoodJson): Result<DetailedFields, Error>
  {
    match HeaderOf(j)
    case Failure(e) => Failure(e)
    case Success(h) =>
      if j.foodNutrients.None? then Failure(KeyError("foodNutrients"))
      else
        CatalogOrderInCatalog();
        Success(DetailedFields(h.fdcId, TitleCased(Lower(h.description)), h.servingSize, h.servingUnits,
                               SlotsFrom(CatalogOrder, JsonFound(TableOf(j.foodNutrients.value)), EmptySlots())))
  }

  /** `from_model_object` with the catalog walked by `.items()`. */
  function FromModel(m: FoodModel): DetailedFields
  {
    CatalogOrderInCatalog();
    DetailedFields(m.fdcId, TitleCased(Lower(m.foodName)), m.servingSize as real, m.servingUnits,
                   SlotsFrom(CatalogOrder, ModelFound(m), EmptySlots()))
  }

  /**
   * `from_model_object` as written: `for fdc_id, nutrient_obj in
   * self.nutrients` iterates the catalog's keys, and unpacking the first
   * key (an `int`) into two names raises `TypeError`.
   */
  function FromModelAsWritten(m: FoodModel): Result<DetailedFields, Error>
  {
    if CatalogOrder == [] then
      Success(DetailedFields(m.fdcId, TitleCased(Lower(m.foodName)), m.servingSize as real, m.servingUnits,
                             EmptySlots()))
    else Failure(TypeError("cannot unpack non-iterable int object"))
  }

  lemma CatalogOrderInCatalog()
    ensures forall i :: 0 <= i < |CatalogOrder| ==> CatalogOrder[i] in Catalog
  {
  }

  /** `getattr(self, name)` as the serialized value. */
  function AttrValue(f: DetailedFields, name: string): Value
    requires IsHeaderSlot(name) || name in f.nutrients
  {
    if name == "fdc_id" then Int(f.fdcId)
    else if name == "food_name" then Str(f.foodName)
    else if name == "serving_size" then Real(f.servingSize)
    else if name == "serving_units" then Str(f.servingUnits)
    else match f.nutrients[name]
      case None => Null
      case Some(n) => Dict(Nutrients.Serialize(n))
  }

  /** `serialize` over the attribute names `names`: values equal to 0 or `None` are dropped. */
  function SerializedOver(f: DetailedFields, names: seq<string>): map<string, Value>
    requires forall i :: 0 <= i < |names| ==> IsHeaderSlot(names[i]) || names[i] in f.nutrients
    decreases |names|
  {
    if names == [] then map[]
    else
      var name := names[|names| - 1];
      var d := SerializedOver(f, names[..|names| - 1]);
      if IsZeroOrNone(AttrValue(f, name)) then d else d[name := AttrValue(f, name)]
  }

  /** One more attribute name extends `serialize` by at most one entry. */
  lemma SerializedOverStep(f: DetailedFields, names: seq<string>, i: int)
    requires 0 <= i < |names|
    requires forall j :: 0 <= j < |names| ==> IsHeaderSlot(names[j]) || names[j] in f.nutrients
    ensures var d := SerializedOver(f, names[..i]);
      SerializedOver(f, names[..i + 1]) ==
        if IsZeroOrNone(AttrValue(f, names[i])) then d else d[names[i] := AttrValue(f, names[i])]
  {
    assert names[..i + 1][..i] == names[..i];
  }

  /** The slot names are the four header slots followed by the catalog symbols. */
  lemma SlotsCoverFields(f: DetailedFields)
    requires WellKeyed(f.nutrients)
    ensures forall i :: 0 <= i < |Slots| ==> IsHeaderSlot(Slots[i]) || Slots[i] in f.nutrients
  {
    assert forall i :: 4 <= i < |Slots| ==> Slots[i] in CatalogSymbols() by {
      SlotSymbolsInCatalog();
    }
  }

  lemma SlotSymbolsInCatalog()
    ensures forall i :: 4 <= i < |Slots| ==> Slots[i] in CatalogSymbols()
  {
    assert forall i :: 4 <= i < |Slots| ==> Slots[i] in SymbolSet;
    CatalogSymbolsListed();
  }

  /** `serialize`. */
  function Serialized(f: DetailedFields): map<string, Value>
    requires WellKeyed(f.nutrients)
  {
    SlotsCoverFields(f);
    SerializedOver(f, Slots)
  }

  /** `property_val["amount"] if isinstance(property_val, dict) else property_val`. */
  function Flattened(v: Value): Value
    requires v.Dict? ==> "amount" in v.entries
  {
    if v.Dict? then v.entries["amount"] else v
  }

  /**
   * `to_model_cls_args`: every nested dictionary replaced by its `amount`;
   * a nested dictionary without one raises `KeyError`.
   */
  function ToModelClsArgs(d: map<string, Value>): (r: Result<map<string, Value>, Error>)
    ensures r.Failure? <==> exists k :: k in d && d[k].Dict? && "amount" !in d[k].entries
    ensures r.Failure? ==> r.error == KeyError("amount")
    ensures r.Success? ==> r.value.Keys == d.Keys
    ensures r.Success? ==> forall k :: k in d ==> !r.value[k].Dict? || d[k].Dict?
  {
    if exists k :: k in d && d[k].Dict? && "amount" !in d[k].entries then Failure(KeyError("amount"))
    else Success(map k | k in d :: Flattened(d[k]))
  }

  /** `Food_Detailed`: the header attributes and one slot per catalog symbol. */
  class FoodDetailed {
    var fdcId: int
    var foodName: string
    var servingSize: real
    var servingUnits: string
    var nutrients: map<string, Option<Nutrient>>

    /** Every catalog symbol has a slot, and nothing else does. */
    predicate Valid()
      reads this
    {
      WellKeyed(nutrients)
    }

    function Fields(): DetailedFields
      reads this
    {
      DetailedFields(fdcId, foodName, servingSize, servingUnits, nutrients)
    }

    /** `__init__`: the name is lower-cased, then title-cased; every nutrient slot is set to `None`. */
    constructor (fdcId: int, foodName: string, servingSize: real, servingUnits: string)
      ensures Valid()
      ensures Fields() == DetailedFields(fdcId, TitleCased(Lower(foodName)), servingSize, servingUnits, EmptySlots())
    {
      var name := TitleCaseOf(Lower(foodName));
      this.fdcId := fdcId;
      this.foodName := name;
      this.servingSize := servingSize;
      this.servingUnits := servingUnits;
      this.nutrients := map[];
      new;
      FillSlots(AllUnset());
      AllUnsetFill();
    }

    /**
     * The `setattr` loop over the catalog: stores `found[c]` in code `c`'s
     * slot for each catalog code that `found` has, in catalog order.
     */
    method FillSlots(found: map<int, Option<Nutrient>>)
      modifies this
      ensures nutrients == SlotsFrom(CatalogOrder, found, old(nutrients))
      ensures fdcId == old(fdcId) && foodName == old(foodName)
      ensures servingSize == old(servingSize) && servingUnits == old(servingUnits)
    {
      CatalogOrderInCatalog();
      ghost var base := nutrients;
      for i := 0 to |CatalogOrder|
        invariant nutrients == SlotsFrom(CatalogOrder[..i], found, base)
        invariant fdcId == old(fdcId) && foodName == old(foodName)
        invariant servingSize == old(servingSize) && servingUnits == old(servingUnits)
      {
        SlotsFromStep(CatalogOrder, i, found, base);
        var fdcCode := CatalogOrder[i];
        if fdcCode !in found {
          continue;
        }
        nutrients := nutrients[Catalog[fdcCode].symbol := found[fdcCode]];
      }
      assert CatalogOrder[..|CatalogOrder|] == CatalogOrder;
    }

    /**
     * `from_json_object`: the header, the nutrient table, then each tabled
     * catalog nutrient (vitamin D converted) in its slot.
     */
    static method FromJsonObject(j: FoodJson) returns (r: Result<FoodDetailed, Error>)
      ensures r.Failure? <==> FromJson(j).Failure?
      ensures r.Failure? ==> r.error == FromJson(j).error
      ensures r.Success? ==> fresh(r.value) && r.value.Valid() && r.value.Fields() == FromJson(j).value
    {
      var header := HeaderOf(j);
      if header.Failure? {
        return Failure(header.error);
      }
      var h := header.value;
      var food := new FoodDetailed(h.fdcId, h.description, h.servingSize, h.servingUnits);
      var table := FoodJsonObjToNutrientTable(j);
      if table.Failure? {
        return Failure(table.error);
      }
      food.FillSlots(JsonFound(table.value));
      FilledSlotsWellKeyed(JsonFound(table.value));
      return Success(food);
    }

    /** `from_model_object`, iterating the catalog's entries as intended. */
    static method FromModelObject(m: FoodModel) returns (food: FoodDetailed)
      ensures fresh(food) && food.Valid() && food.Fields() == FromModel(m)
    {
      food := new FoodDetailed(m.fdcId, m.foodName, m.servingSize as real, m.servingUnits);
      food.FillSlots(ModelFound(m));
      FilledSlotsWellKeyed(ModelFound(m));
    }

    /** `serialize`: the slots in order, without those equal to 0 or `None`. */
    method Serialize() returns (serialized: map<string, Value>)
      requires Valid()
      ensures serialized == Serialized(Fields())
    {
      var f := Fields();
      SlotsCoverFields(f);
      serialized := map[];
      for i := 0 to |Slots|
        invariant serialized == SerializedOver(f, Slots[..i])
      {
        SerializedOverStep(f, Slots, i);
        var attrName := Slots[i];
        var attrVal := AttrValue(f, attrName);
        if attrVal == Int(0) || attrVal == Real(0.0) || attrVal == Null {
          continue;
        }
        serialized := serialized[attrName := attrVal];
      }
      assert Slots[..|Slots|] == Slots;
    }
  }

  /** The symbols `SlotsFrom` writes to. */
  function WrittenSymbols(codes: seq<int>, found: map<int, Option<Nutrient>>): set<string>
    requires forall i :: 0 <= i < |codes| ==> codes[i] in Catalog
  {
    set i | 0 <= i < |codes| && codes[i] in found :: Catalog[codes[i]].symbol
  }

  /** Filling adds exactly the written symbols to the slot map's keys. */
  lemma {:induction false} SlotsFromKeys(codes: seq<int>, found: map<int, Option<Nutrient>>,
                                         base: map<string, Option<Nutrient>>)
    requires forall i :: 0 <= i < |codes| ==> codes[i] in Catalog
    ensures SlotsFrom(codes, found, base).Keys == base.Keys + WrittenSymbols(codes, found)
    decreases |codes|
  {
    if codes != [] {
      var init := codes[..|codes| - 1];
      SlotsFromKeys(init, found, base);
      var w := WrittenSymbols(init, found);
      forall s | s in WrittenSymbols(codes, found) ensures s in w || s in SlotsFrom(codes, found, base) {
        var i :| 0 <= i < |codes| && codes[i] in found && Catalog[codes[i]].symbol == s;
        if i < |init| {
          assert init[i] == codes[i];
        }
      }
      forall s | s in w ensures s in WrittenSymbols(codes, found) {
        var i :| 0 <= i < |init| && init[i] in found && Catalog[init[i]].symbol == s;
        assert codes[i] == init[i];
      }
    }
  }

  /** Every written symbol is a catalog symbol. */
  lemma WrittenSymbolsInCatalog(codes: seq<int>, found: map<int, Option<Nutrient>>)
    requires forall i :: 0 <= i < |codes| ==> codes[i] in Catalog
    ensures WrittenSymbols(codes, found) <= CatalogSymbols()
  {
    forall s | s in WrittenSymbols(codes, found) ensures s in CatalogSymbols() {
      var i :| 0 <= i < |codes| && codes[i] in found && Catalog[codes[i]].symbol == s;
      var c := codes[i];
      assert c in Catalog;
    }
  }

  /** Filling well-keyed slots over the catalog keeps them well keyed. */
  lemma FilledSlotsWellKeyed(found: map<int, Option<Nutrient>>)
    ensures WellKeyed(SlotsFrom(CatalogOrder, found, EmptySlots()))
  {
    CatalogOrderInCatalog();
    SlotsFromKeys(CatalogOrder, found, EmptySlots());
    WrittenSymbolsInCatalog(CatalogOrder, found);
  }

  /** The catalog order's symbols are all the catalog's symbols. */
  lemma OrderSymbols()
    ensures (set i | 0 <= i < |CatalogOrder| :: Catalog[CatalogOrder[i]].symbol) == CatalogSymbols()
  {
    var ordered := set i | 0 <= i < |CatalogOrder| :: Catalog[CatalogOrder[i]].symbol;
    KeysAreOrdered();
    forall c | c in Catalog ensures Catalog[c].symbol in ordered {
      var i :| 0 <= i < |CatalogOrder| && CatalogOrder[i] == c;
    }
    OrderedCodesAreKeys();
    forall i | 0 <= i < |CatalogOrder| ensures Catalog[CatalogOrder[i]].symbol in CatalogSymbols() {
      var c := CatalogOrder[i];
      assert c in CatalogOrder;
    }
  }

  /** One more code extends the walk by at most one slot update. */
  lemma SlotsFromStep(codes: seq<int>, i: int, found: map<int, Option<Nutrient>>,
                      base: map<string, Option<Nutrient>>)
    requires 0 <= i < |codes|
    requires forall j :: 0 <= j < |codes| ==> codes[j] in Catalog
    ensures var slots := SlotsFrom(codes[..i], found, base);
      SlotsFrom(codes[..i + 1], found, base) ==
        if codes[i] in found then slots[Catalog[codes[i]].symbol := found[codes[i]]] else slots
  {
    assert codes[..i + 1][..i] == codes[..i];
  }

  /** Filling only `None`s into `None`s gives `None`s. */
  lemma {:induction false} SlotsFromUnset(codes: seq<int>, found: map<int, Option<Nutrient>>,
                                          base: map<string, Option<Nutrient>>)
    requires forall i :: 0 <= i < |codes| ==> codes[i] in Catalog
    requires forall c :: c in found ==> found[c].None?
    requires forall s :: s in base ==> base[s].None?
    ensures forall s :: s in SlotsFrom(codes, found, base) ==> SlotsFrom(codes, found, base)[s].None?
    decreases |codes|
  {
    if codes != [] {
      SlotsFromUnset(codes[..|codes| - 1], found, base);
    }
  }

  /** The constructor's loop leaves exactly the empty slots. */
  lemma AllUnsetFill()
    ensures SlotsFrom(CatalogOrder, AllUnset(), map[]) == EmptySlots()
  {
    CatalogOrderInCatalog();
    var slots := SlotsFrom(CatalogOrder, AllUnset(), map[]);
    SlotsFromKeys(CatalogOrder, AllUnset(), map[]);
    assert WrittenSymbols(CatalogOrder, AllUnset()) == CatalogSymbols() by {
      OrderSymbols();
    }
    SlotsFromUnset(CatalogOrder, AllUnset(), map[]);
  }
}
