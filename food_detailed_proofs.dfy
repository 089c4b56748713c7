/** What a `Food_Detailed` holds after each way of building it, and what it serializes to. */
module FoodDetailedProofs {
  import opened Wrappers
  import opened PyValues
  import opened Nutrients
  import opened NutrientFacts
  import opened NutrientTable
  import opened NutrientTableProofs
  import opened FoodDetailedModel

  /** After the walk, code `c`'s slot holds `found[c]` if the walk met `c` in `found`, else its old value. */
  lemma {:induction false} SlotsFromAt(codes: seq<int>, found: map<int, Option<Nutrient>>,
                                       base: map<string, Option<Nutrient>>, c: int)
    requires forall i :: 0 <= i < |codes| ==> codes[i] in Catalog
    requires c in Catalog
    ensures c in codes && c in found ==>
      Catalog[c].symbol in SlotsFrom(codes, found, base) && SlotsFrom(codes, found, base)[Catalog[c].symbol] == found[c]
    ensures !(c in codes && c in found) ==>
      (Catalog[c].symbol in SlotsFrom(codes, found, base) <==> Catalog[c].symbol in base) &&
      (Catalog[c].symbol in base ==> SlotsFrom(codes, found, base)[Catalog[c].symbol] == base[Catalog[c].symbol])
    decreases |codes|
  {
    if codes != [] {
      var init := codes[..|codes| - 1];
      var last := codes[|codes| - 1];
      SlotsFromAt(init, found, base, c);
      if last != c {
        CatalogSymbolsDistinct();
        assert Catalog[last].symbol != Catalog[c].symbol;
      }
      assert c in codes <==> c in init || c == last;
    }
  }

  /** After the catalog walk from empty slots, each catalog code's slot is `found[c]`, or `None`. */
  lemma FilledSlotAt(found: map<int, Option<Nutrient>>, c: int)
    requires c in Catalog
    ensures Catalog[c].symbol in SlotsFrom(CatalogOrder, found, EmptySlots())
    ensures SlotsFrom(CatalogOrder, found, EmptySlots())[Catalog[c].symbol] == if c in found then found[c] else None
  {
    CatalogOrderListsKeys();
    assert c in CatalogOrder;
    assert Catalog[c].symbol in CatalogSymbols();
    SlotsFromAt(CatalogOrder, found, EmptySlots(), c);
  }

  /** The slots `from_json_object` fills from a nutrient table. */
  lemma JsonSlotAt(table: map<int, Nutrient>, c: int)
    requires c in Catalog
    ensures Catalog[c].symbol in SlotsFrom(CatalogOrder, JsonFound(table), EmptySlots())
    ensures SlotsFrom(CatalogOrder, JsonFound(table), EmptySlots())[Catalog[c].symbol] ==
      if c in table then Some(VitaminDAdjusted(c, table[c])) else None
  {
    FilledSlotAt(JsonFound(table), c);
  }

  /** A successful `from_json_object` fills its slots from the payload's nutrient table. */
  lemma FromJsonNutrients(j: FoodJson)
    requires FromJson(j).Success?
    ensures j.foodNutrients.Some?
    ensures FromJson(j).value.nutrients == SlotsFrom(CatalogOrder, JsonFound(TableOf(j.foodNutrients.value)), EmptySlots())
  {
  }

  /**
   * `from_json_object`: a catalog nutrient's slot holds the converted table
   * entry when the table has one, and stays `None` otherwise.
   */
  lemma FromJsonSlot(j: FoodJson, c: int)
    requires FromJson(j).Success? && c in Catalog
    ensures j.foodNutrients.Some?
    ensures var table := TableOf(j.foodNutrients.value);
      Catalog[c].symbol in FromJson(j).value.nutrients &&
      FromJson(j).value.nutrients[Catalog[c].symbol] == if c in table then Some(VitaminDAdjusted(c, table[c])) else None
  {
    FromJsonNutrients(j);
    JsonSlotAt(TableOf(j.foodNutrients.value), c);
  }

  /**
   * `from_json_object`: a catalog nutrient has a value iff the payload has
   * an entry for it with a non-zero amount.
   */
  lemma FromJsonSlotSet(j: FoodJson, c: int)
    requires FromJson(j).Success? && c in Catalog
    ensures j.foodNutrients.Some? && Catalog[c].symbol in FromJson(j).value.nutrients
    ensures var es := j.foodNutrients.value;
      FromJson(j).value.nutrients[Catalog[c].symbol].Some? <==>
        exists i :: 0 <= i < |es| && Kept(es[i]) && es[i].nutrient.number == c
  {
    FromJsonSlot(j, c);
    TableKeys(j.foodNutrients.value, c);
  }

  /** `from_json_object`: the value comes from the last kept entry for that nutrient. */
  lemma FromJsonSlotFromLastEntry(j: FoodJson, c: int, i: int)
    requires FromJson(j).Success? && c in Catalog
    requires j.foodNutrients.Some? && LastKeptFor(j.foodNutrients.value, c, i)
    ensures Catalog[c].symbol in FromJson(j).value.nutrients
    ensures FromJson(j).value.nutrients[Catalog[c].symbol] == Some(VitaminDAdjusted(c, TableEntry(j.foodNutrients.value[i])))
  {
    FromJsonSlot(j, c);
    TableLastWins(j.foodNutrients.value, c, i);
  }

  /** Vitamin D arrives in IU: the stored amount is a fortieth of the payload's, in "mcg". */
  lemma FromJsonVitaminD(j: FoodJson, i: int)
    requires FromJson(j).Success? && j.foodNutrients.Some? && LastKeptFor(j.foodNutrients.value, 324, i)
    ensures VitaminDSymbol in FromJson(j).value.nutrients
    ensures var n := FromJson(j).value.nutrients[VitaminDSymbol];
      n.Some? && n.value.amount * 40.0 == j.foodNutrients.value[i].amount.value && n.value.units == "mcg"
  {
    assert Catalog[324].symbol == VitaminDSymbol;
    FromJsonSlotFromLastEntry(j, 324, i);
  }

  /**
   * `from_model_object`: a catalog nutrient's slot holds the catalog entry
   * with the row's amount when the row has that column, and `None` otherwise.
   */
  lemma FromModelSlot(m: FoodModel, c: int)
    requires c in Catalog
    ensures var s := Catalog[c].symbol;
      s in FromModel(m).nutrients &&
      FromModel(m).nutrients[s] == if s in m.columns then Some(Catalog[c].(amount := m.columns[s] as real)) else None
  {
    FilledSlotAt(ModelFound(m), c);
  }

  /** The `Food` model's columns hold every catalog symbol except biotin's and folate's. */
  lemma FoodColumnsMissBiotinAndFolate()
    ensures forall c :: c in Catalog && c != 416 && c != 417 ==> Catalog[c].symbol in FoodColumns
    ensures Catalog[416].symbol == "biotin_mcg" && "biotin_mcg" !in FoodColumns
    ensures Catalog[417].symbol == "folate_mcg" && "folate_mcg" !in FoodColumns
  {
  }

  /**
   * The `Food` model names its biotin and folate columns `biotin_B7_mcg`
   * and `folate_B9_mcg`, so a stored row never fills those two slots, and
   * fills every other one.
   */
  lemma StoredRowsLoseBiotinAndFolate(m: FoodModel)
    requires m.columns.Keys == FoodColumns
    ensures "biotin_mcg" in FromModel(m).nutrients && FromModel(m).nutrients["biotin_mcg"] == None
    ensures "folate_mcg" in FromModel(m).nutrients && FromModel(m).nutrients["folate_mcg"] == None
    ensures forall c :: c in Catalog && c != 416 && c != 417 ==>
      Catalog[c].symbol in FromModel(m).nutrients && FromModel(m).nutrients[Catalog[c].symbol].Some?
  {
    FoodColumnsMissBiotinAndFolate();
    FromModelSlot(m, 416);
    FromModelSlot(m, 417);
    forall c | c in Catalog && c != 416 && c != 417
      ensures Catalog[c].symbol in FromModel(m).nutrients && FromModel(m).nutrients[Catalog[c].symbol].Some?
    {
      FromModelSlot(m, c);
    }
  }

  /** As written, `from_model_object` raises on every row, while the corrected one always builds a food. */
  lemma FromModelAsWrittenAlwaysRaises(m: FoodModel)
    ensures FromModelAsWritten(m) == Failure(TypeError("cannot unpack non-iterable int object"))
    ensures WellKeyed(FromModel(m).nutrients)
  {
    FilledSlotsWellKeyed(ModelFound(m));
  }

  /** An attribute is serialized iff it is walked and its value is neither 0 nor `None`. */
  lemma {:induction false} SerializedOverAt(f: DetailedFields, names: seq<string>, k: string)
    requires forall i :: 0 <= i < |names| ==> IsHeaderSlot(names[i]) || names[i] in f.nutrients
    ensures k in SerializedOver(f, names) <==> k in names && !IsZeroOrNone(AttrValue(f, k))
    ensures k in SerializedOver(f, names) ==> SerializedOver(f, names)[k] == AttrValue(f, k)
    decreases |names|
  {
    if names != [] {
      var init := names[..|names| - 1];
      SerializedOverAt(f, init, k);
      assert k in names <==> k in init || k == names[|names| - 1];
    }
  }

  /** `serialize` keeps a nutrient slot iff it is set, as the nutrient's own dictionary. */
  lemma SerializedSlot(f: DetailedFields, s: string)
    requires WellKeyed(f.nutrients) && s in f.nutrients
    ensures s in Serialized(f) <==> f.nutrients[s].Some?
    ensures s in Serialized(f) ==> Serialized(f)[s] == Dict(Nutrients.Serialize(f.nutrients[s].value))
  {
    SlotsCoverFields(f);
    SerializedOverAt(f, Slots, s);
    SymbolIsSlot(s);
  }

  /** `serialize` keeps a header attribute iff its value is neither 0 nor `None`. */
  lemma SerializedHeaderSlot(f: DetailedFields, k: string)
    requires WellKeyed(f.nutrients) && IsHeaderSlot(k)
    ensures k in Serialized(f) <==> !IsZeroOrNone(AttrValue(f, k))
    ensures k in Serialized(f) ==> Serialized(f)[k] == AttrValue(f, k)
  {
    SlotsCoverFields(f);
    assert k in Slots;
    SerializedOverAt(f, Slots, k);
  }

  /** `serialize` drops `fdc_id` and `serving_size` when 0, and always keeps the name and units. */
  lemma SerializedHeader(f: DetailedFields)
    requires WellKeyed(f.nutrients)
    ensures "fdc_id" in Serialized(f) <==> f.fdcId != 0
    ensures "serving_size" in Serialized(f) <==> f.servingSize != 0.0
    ensures "food_name" in Serialized(f) && Serialized(f)["food_name"] == Str(f.foodName)
    ensures "serving_units" in Serialized(f) && Serialized(f)["serving_units"] == Str(f.servingUnits)
  {
    SerializedHeaderSlot(f, "fdc_id");
    SerializedHeaderSlot(f, "serving_size");
    SerializedHeaderSlot(f, "food_name");
    SerializedHeaderSlot(f, "serving_units");
  }

  /** `serialize` emits only the header attributes and nutrient slots. */
  lemma SerializedKeys(f: DetailedFields)
    requires WellKeyed(f.nutrients)
    ensures forall k :: k in Serialized(f) ==> k in f.nutrients || IsHeaderSlot(k)
  {
    SlotsCoverFields(f);
    forall k | k in Serialized(f) ensures k in f.nutrients || IsHeaderSlot(k) {
      SerializedOverAt(f, Slots, k);
    }
  }

  /** Every catalog symbol is one of `__slots__`, and none is a header slot. */
  lemma SymbolIsSlot(s: string)
    requires s in CatalogSymbols()
    ensures s in Slots && !IsHeaderSlot(s)
  {
    CatalogSymbolsListed();
    ListedSymbolsAreSlots();
    ListedSymbolsAreNotHeaders();
  }

  lemma ListedSymbolsAreSlots()
    ensures forall s :: s in SymbolSet ==> s in Slots
  {
  }

  lemma ListedSymbolsAreNotHeaders()
    ensures forall s :: s in SymbolSet ==> !IsHeaderSlot(s)
  {
  }

  /** A successful flattening replaces each entry by its `amount`. */
  lemma FlattenedAt(d: map<string, Value>, k: string)
    requires ToModelClsArgs(d).Success? && k in d
    ensures k in ToModelClsArgs(d).value
    ensures d[k].Dict? ==> "amount" in d[k].entries && ToModelClsArgs(d).value[k] == d[k].entries["amount"]
    ensures !d[k].Dict? ==> ToModelClsArgs(d).value[k] == d[k]
  {
  }

  /** Every nested dictionary of a serialized food carries an `amount`. */
  lemma SerializedHasAmounts(f: DetailedFields)
    requires WellKeyed(f.nutrients)
    ensures forall k :: k in Serialized(f) ==> !Serialized(f)[k].Dict? || "amount" in Serialized(f)[k].entries
  {
    var d := Serialized(f);
    SerializedKeys(f);
    forall k | k in d ensures !d[k].Dict? || "amount" in d[k].entries {
      if k in f.nutrients {
        SerializedSlot(f, k);
      } else {
        SerializedHeaderSlot(f, k);
      }
    }
  }

  /**
   * `to_model_cls_args` of a serialized food never raises: each nutrient
   * becomes its amount, and the header attributes pass through unchanged.
   */
  lemma SerializedFlattens(f: DetailedFields)
    requires WellKeyed(f.nutrients)
    ensures ToModelClsArgs(Serialized(f)).Success?
    ensures var args := ToModelClsArgs(Serialized(f)).value;
      args.Keys == Serialized(f).Keys &&
      (forall s :: s in f.nutrients && f.nutrients[s].Some? ==> s in args && args[s] == Real(f.nutrients[s].value.amount)) &&
      "food_name" in args && args["food_name"] == Str(f.foodName) && "serving_units" in args && args["serving_units"] == Str(f.servingUnits)
  {
    var d := Serialized(f);
    SerializedHasAmounts(f);
    SerializedHeader(f);
    var args := ToModelClsArgs(d).value;
    forall s | s in f.nutrients && f.nutrients[s].Some? ensures s in args && args[s] == Real(f.nutrients[s].value.amount) {
      SerializedSlot(f, s);
      FlattenedAt(d, s);
    }
    FlattenedAt(d, "food_name");
    FlattenedAt(d, "serving_units");
  }

}
