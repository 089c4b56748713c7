# nutritracker food records in Dafny

This project models the food-record core of nutritracker, a Django nutrition tracker that imports foods from the USDA FoodData Central (FDC) API.

Its parts:

- **Nutrients** (`utils.py:18-53`). A `Nutrient` has a name, units, an FDC nutrient number, an amount and an attribute symbol. It has a percent-of-daily-value (`dv_perc`) and a dictionary serialization.
- **The nutrient catalog** (`utils.py:57-84`). It maps the 26 tracked FDC numbers to template nutrients. The daily-value table is `utils.py:21-27`.
- **The title-case engine** (`utils.py:86-146`). It splits a food description at word/non-word boundaries. It then recases each token by the first matching rule:
  1. dotted acronyms are upper-cased;
  2. the first and last words are capitalised;
  3. small words are lower-cased;
  4. plain lower-case words are capitalised;
  5. any other token is kept as it is.
- **`Food_Stub`** (`utils.py:149-171`). A search result: FDC id, title-cased name, and the calories of the first energy entry.
- **`Food_Detailed`** (`utils.py:174-264`):
  - built from an FDC JSON payload (`dataType` "SR Legacy" or "Branded") or from a stored database row;
  - serialized into a dictionary that drops zero and `None` attributes;
  - flattened into model-constructor arguments.
  - The nutrient table built from a payload keeps only catalog numbers with a non-zero amount, and a later entry wins. The vitamin D amount arrives in IU and is divided by 40.
- **`query_fdc.py`**: `number_to_ordinal` (`query_fdc.py:25-28`) and the `-l`/`-p` option checks (`query_fdc.py:59-67`).

How the model is built:

- **Modules.** Each source class or group of functions is its own module: `Nutrients`, `TitleCase`, `NutrientTable`, `FoodStubModel`, `FoodDetailedModel` and `QueryFdc`.
  - Each has a companion proofs module: `NutrientFacts`, `TitleCaseProofs`, `TitleCaseExamples`, `NutrientTableProofs`, `FoodStubProofs`, `FoodDetailedProofs` and `QueryFdcProofs`.
  - `Chars` holds the character classes and case mapping. `Wrappers` holds `Option`/`Result`. `PyValues` holds the Python values a serialization holds, and the exceptions the source raises.
- **Nutrients are values.** `Nutrient` is a datatype.
- **Foods are classes.** `FoodDetailed` and `FoodStub` are classes whose fields the constructors and loops assign.
  - A detailed food's 26 nutrient attributes are one field, `nutrients: map<string, Option<Nutrient>>`, keyed by symbol. `None` stands for an attribute set to `None`.
  - Filling the slots is the method `FoodDetailed.FillSlots`. Its loop follows the catalog's insertion order (`CatalogOrder`). It is proved against the function `SlotsFrom`.
- **Loops.** `_title_case`'s three loops and `_food_json_obj_to_nutrient_table`'s loop are methods. Each is proved equal to a function, and the lemmas are stated about those functions.
- **Error paths are values.** Missing JSON keys give `KeyError`. An unsupported `dataType` gives `UnsupportedDataType`. `dv_perc` without a daily value gives `AttributeError`. Unpacking a dict key gives `TypeError`.

Three behaviours of the code worth knowing:

- Both `Food_Detailed` constructors call `_title_case(food_name.lower())` (`utils.py:183`). So a name loaded from storage is title-cased again, and the `FoodDetailed` constructor's contract says so.
- A stub's calories are `None` when no energy entry exists. `FirstCalories` models the `hasattr` fallback as `Success(None)`.
- `number_to_ordinal` has no teens exception. `QueryFdcProofs.TeenOrdinals` states "11st", "12nd" and "13rd".

The stored `Food` model (`foods/models.py:11-36`) names two columns `biotin_B7_mcg` and `folate_B9_mcg`. The catalog's symbols are `biotin_mcg` and `folate_mcg`. So even a working `from_model_object` never finds biotin or folate in a stored row. `FoodDetailedProofs.StoredRowsLoseBiotinAndFolate` states this.

## Model

| member | source | states |
|---|---|---|
| Nutrients.RoundHalfEven | utils.py:40 | the result is within 1/2 of the exact value, and on a tie it is even (Python's `round`) |
| NutrientFacts.RoundHalfEvenUnique | utils.py:40 | any integer within 1/2 of x that is even on a tie is `RoundHalfEven(x)`, so rounding is fully determined |
| Nutrients.DvPerc | utils.py:36-40 | fails with `AttributeError` exactly when the symbol has no daily value; otherwise it is 100·amount/daily value rounded half to even (within 1/2 of the exact value, and `RoundHalfEven` of it, which `RoundHalfEvenUnique` shows is the only such integer) |
| NutrientFacts.DvPercOfZero | utils.py:36-40 | a tabled nutrient with amount 0 has `dv_perc` 0, not a failure |
| Nutrients.Serialize | utils.py:45-53 | the keys are name/units/fdc_code/amount/symbol, plus `dv_perc` exactly when `dv_perc` succeeds; each value is the matching field, and `dv_perc` is the rounded percentage as a float, as `round(x, 0)` returns |
| NutrientFacts.CatalogKeyedByCode | utils.py:57-84 | every catalog entry is filed under its own FDC number and starts at amount 0 |
| NutrientFacts.CatalogOrderListsKeys | utils.py:57-84 | the insertion order lists every catalog key exactly once |
| NutrientFacts.CatalogSize | utils.py:57-84 | the catalog has 26 entries |
| NutrientFacts.CatalogSymbolsDistinct | utils.py:57-84 | no two catalog entries share a symbol |
| NutrientFacts.CatalogSymbolsListed | utils.py:57-84 | the catalog's symbols are exactly the 26 attribute names, proved by counting |
| NutrientFacts.DailyValuesCoverCatalog | utils.py:21-27 | every daily-value key is a catalog symbol and every daily value is positive; only `energy_kcal` and `trans_fat_g` have none |
| NutrientFacts.SymbolsWithoutDailyValue | utils.py:21-27 | catalog symbols minus daily-value keys is exactly {energy_kcal, trans_fat_g} |
| Chars.CaseMappingKeepsKind | utils.py:90-92 | upper- and lower-casing a character keeps whether it is a letter, a word character or a period |
| Chars.CaseMappingLaws | utils.py:96 | upper- and lower-casing are idempotent, and lower-casing after upper-casing equals lower-casing |
| TitleCase.RunLength | utils.py:90-92 | the run length is the longest prefix whose characters all have the given word-class |
| TitleCase.Capitalize | utils.py:96 | only the first letter is upper-cased; every other position and the length are unchanged |
| TitleCase.FirstWordFrom | utils.py:125-128 | the index of the first all-word token at or after i, or -1 when there is none |
| TitleCase.LastWordBefore | utils.py:129-132 | the index of the last all-word token before i, or len(tokens) when there is none |
| TitleCase.FindFirstWord | utils.py:125-128 | the loop finds the first all-word token, or -1 with no word anywhere |
| TitleCase.FindLastWord | utils.py:129-132 | the reverse loop finds the last all-word token, or len(tokens) with no word anywhere |
| TitleCase.RecaseToken | utils.py:134-144 | the rule chain yields the per-token recasing `TitleCaseToken` |
| TitleCase.TitleCaseOf | utils.py:112-146 | `_title_case` returns `TitleCased(strval)`, about which the lemmas below are stated |
| TitleCaseProofs.RunsAreTokenization | utils.py:90-92 | maximal runs concatenate to the input, and word and non-word runs alternate |
| TitleCaseProofs.TokenizationIsUnique | utils.py:90-92 | any alternating split of s into non-empty runs is the runs split of s |
| TitleCase.Tokenize | utils.py:114 | `re.split` gives at least one token; it gives `[""]` exactly for the empty string, and otherwise only non-empty tokens (joined and alternating by `TokenizeRoundTrip` and `TokenizeCharacterized`) |
| TitleCaseProofs.TokenizeRoundTrip | utils.py:114 | the tokens concatenate back to the input |
| TitleCaseProofs.TokenizeCharacterized | utils.py:114 | for non-empty s, the token list is exactly the alternating split of s |
| TitleCaseProofs.CapitalizeFacts | utils.py:96 | capitalising keeps character classes, keeps the first-letter position, is idempotent and keeps the lower-case form |
| TitleCaseProofs.UpperLowerFacts | utils.py:137 | `upper`/`lower` keep classes, are idempotent and agree after lower-casing |
| TitleCase.IsUncAlnumPunct | utils.py:94 | every word run matches; a match starts with a word character, and a match that is not a word run is a word run followed by one final newline (`$`); it sees only character classes (`PatternsSeeOnlyKinds`) |
| TitleCaseProofs.PatternsSeeOnlyKinds | utils.py:136 | the word, acronym and all-word patterns depend only on character classes |
| TitleCaseProofs.RecasingKeepsKinds | utils.py:134-144 | recasing a token keeps its classes and its lower-case form |
| TitleCaseProofs.RecasingIsIdempotent | utils.py:134-144 | recasing an already recased token at the same position changes nothing |
| TitleCaseProofs.WordIndexesAgree | utils.py:125-132 | token lists with the same all-word positions have the same first and last word index |
| TitleCaseProofs.SmallWordsAreWords | utils.py:86-88 | every small word is a word-class run |
| TitleCaseProofs.GapTokensUnchanged | utils.py:134-144 | non-word tokens (spaces, punctuation) come through unchanged |
| TitleCaseProofs.TitledTokensAlternate | utils.py:134-146 | the output has as many tokens as the input, position by position of the same classes, and still alternates |
| TitleCaseProofs.TitleCasedTokens | utils.py:112-146 | re-tokenizing the output gives the recased tokens, same count and order |
| TitleCaseProofs.TitleCaseIdempotent | utils.py:112-146 | title-casing a title-cased string changes nothing |
| TitleCaseProofs.TitleCaseOnlyChangesCase | utils.py:112-146 | the output has the input's length and lower-case form |
| TitleCaseProofs.FirstAndLastWordsCapitalized | utils.py:138-139 | the first and last words get their first letter upper-cased |
| TitleCaseExamples.LordWordIndexes | utils.py:125-132 | in "the lord of the rings" the first word is token 0 and the last is token 8 |
| TitleCaseExamples.LordSmallWordsKept | utils.py:140-141 | interior "of" and "the" stay lower-case |
| TitleCaseExamples.LordRecased | utils.py:134-144 | the tokens of "the lord of the rings" become The, Lord, of, the, Rings |
| TitleCaseExamples.TheLordOfTheRings | utils.py:112-146 | "the lord of the rings" becomes "The Lord of the Rings" |
| TitleCaseExamples.UsaAcronymRecased | utils.py:136-137 | the acronym "u.s.a." is upper-cased even as the first word |
| TitleCaseExamples.UsaCheese | utils.py:112-146 | "u.s.a. cheese" becomes "U.S.A. Cheese" |
| FoodStubModel.FoodStub.constructor | utils.py:152-154 | a stub holds the id, the title-cased name and no calories |
| FoodStubModel.FoodStub.ScanCalories | utils.py:161-167 | the scan returns the first energy entry's value, a `KeyError` when that entry has no value, or `None` when there is no energy entry |
| FoodStubProofs.NoEnergyEntry | utils.py:161-167 | calories are `None` exactly when no entry has nutrient number 208 |
| FoodStubProofs.FirstEnergyEntry | utils.py:161-165 | the first entry numbered 208 decides the calories, and later entries are ignored |
| FoodStubModel.FoodStub.FromJsonObject | utils.py:157-168 | fails exactly when `FromJson` does, with its error: a `KeyError` for a missing `fdcId`, `description` or `foodNutrients`, or for a first energy entry without a value; otherwise the new stub holds the id, the title-cased name and the scanned calories |
| FoodStubModel.FoodStub.Serialize | utils.py:170-171 | exactly the keys fdc_id, food_name and calories, holding the id, the name and the calories, or `None` exactly when there are no calories |
| FoodStubProofs.SerializedFromJson | utils.py:157-171 | a stub read from a search result serializes to its id, its title-cased description and the first energy entry's value, with `None` exactly when no entry is numbered 208 |
| NutrientTable.TableEntry | utils.py:200-204 | a kept entry gives its number, amount and name, lower-cased units, and the catalog's symbol |
| NutrientTable.FoodJsonObjToNutrientTable | utils.py:189-205 | `KeyError` without `foodNutrients`; otherwise the loop's table is `TableOf` of the entries |
| NutrientTableProofs.TableKeys | utils.py:192-199 | a number is in the table exactly when some entry with that number is a catalog number and has an amount that is non-zero |
| NutrientTableProofs.TableLastWins | utils.py:200-204 | the last kept entry for a number is the one stored |
| NutrientTableProofs.TableWellFormed | utils.py:189-205 | every table key is a catalog number, its nutrient has that number and the catalog's symbol, and its amount is non-zero |
| FoodDetailedModel.EmptySlots | utils.py:186-187 | every catalog symbol has a slot, and every slot is `None` |
| FoodDetailedModel.FoodDetailed.constructor | utils.py:181-187 | the header fields are set, the name is title-cased after lower-casing, and all 26 nutrient slots are `None` |
| FoodDetailedModel.FoodDetailed.FillSlots | utils.py:236-247 | the loop over the catalog writes each found nutrient into its symbol's slot and changes nothing else |
| FoodDetailedModel.SlotsFromKeys | utils.py:236-247 | filling adds exactly the written symbols to the slot keys |
| FoodDetailedModel.FilledSlotsWellKeyed | utils.py:186-187 | after filling, the slots are still keyed by exactly the catalog symbols |
| FoodDetailedModel.OrderSymbols | utils.py:186-187 | iterating the catalog in insertion order visits every symbol |
| FoodDetailedModel.AllUnsetFill | utils.py:186-187 | setting every catalog symbol to `None` gives the empty slots |
| FoodDetailedProofs.FilledSlotAt | utils.py:236-247 | after filling, a catalog symbol's slot is the found nutrient, or `None` when its number was not found |
| FoodDetailedModel.VitaminDAdjusted | utils.py:240-246 | vitamin D's amount is divided by 40 and its units become mcg; every other nutrient is unchanged |
| FoodDetailedModel.HeaderOf | utils.py:224-233 | the id and name come from the payload; serving size and unit come from `foodPortions[0]` for "SR Legacy" and from `servingSize`/`servingSizeUnit` for "Branded"; any other `dataType` fails with `UnsupportedDataType`; a missing `fdcId`, `description`, `dataType`, `foodPortions`, `amount`, `modifier`, `servingSize` or `servingSizeUnit` fails with that `KeyError`, and an empty `foodPortions` with `IndexError`, in lookup order; a payload with all of its branch's keys succeeds with that header |
| FoodDetailedModel.FoodDetailed.FromJsonObject | utils.py:222-248 | fails exactly when `FromJson` fails, with the same error; otherwise the new food's fields are `FromJson(j)` |
| FoodDetailedProofs.FromJsonNutrients | utils.py:234-247 | the nutrient slots are the filling of the empty slots from the payload's nutrient table |
| FoodDetailedProofs.FromJsonSlot | utils.py:236-247 | each catalog slot holds its table entry, vitamin D adjusted, or `None` when the table lacks it |
| FoodDetailedProofs.FromJsonSlotSet | utils.py:192-199 | a slot is set exactly when some payload entry for that number has a non-zero amount |
| FoodDetailedProofs.FromJsonSlotFromLastEntry | utils.py:200-204 | a set slot comes from the last kept payload entry for its number |
| FoodDetailedProofs.FromJsonVitaminD | utils.py:240-246 | the stored vitamin D times 40 is the payload's amount, in mcg |
| FoodDetailedModel.FoodDetailed.FromModelObject | utils.py:207-220 | the new food's fields are `FromModel(m)`: the row's header, and a copy of each catalog nutrient whose column exists, carrying the column's amount |
| FoodDetailedProofs.FromModelSlot | utils.py:214-219 | a slot holds the catalog nutrient with the row's amount when the row has that column, and `None` otherwise |
| FoodDetailedProofs.FoodColumnsMissBiotinAndFolate | foods/models.py:11-36 | every catalog symbol except biotin_mcg and folate_mcg is a column of the stored model |
| FoodDetailedProofs.StoredRowsLoseBiotinAndFolate | utils.py:214-216 | loading a stored row leaves biotin and folate `None` and sets every other nutrient |
| FoodDetailedProofs.FromModelAsWrittenAlwaysRaises | utils.py:214 | `from_model_object` as written raises `TypeError` for every stored row |
| FoodDetailedModel.SlotsCoverFields | utils.py:175-187 | every `__slots__` name is a header attribute or a nutrient slot |
| FoodDetailedModel.SlotSymbolsInCatalog | utils.py:175-179 | every non-header name in `__slots__` is a catalog symbol |
| FoodDetailedProofs.SymbolIsSlot | utils.py:175-179 | every catalog symbol is in `__slots__` and is not a header name |
| FoodDetailedModel.FoodDetailed.Serialize | utils.py:250-260 | the loop over `__slots__` returns `Serialized` of the food's fields |
| FoodDetailedProofs.SerializedOverAt | utils.py:252-259 | a name is serialized exactly when it is listed and its value is not 0 or `None`, and it keeps that value |
| FoodDetailedProofs.SerializedSlot | utils.py:253-257 | a nutrient attribute is present exactly when set, as its nutrient's serialization |
| FoodDetailedProofs.SerializedHeaderSlot | utils.py:253-259 | a header attribute is present exactly when it is not 0 or `None`, with its value |
| FoodDetailedProofs.SerializedHeader | utils.py:250-260 | fdc_id and serving_size are dropped exactly when 0; food_name and serving_units are always present |
| FoodDetailedProofs.SerializedKeys | utils.py:250-260 | every serialized key is a header name or a nutrient symbol |
| FoodDetailedModel.ToModelClsArgs | utils.py:262-264 | fails with `KeyError` exactly when some dict value lacks `amount`; otherwise it keeps the keys and introduces no dict where there was none; each dict value becomes its `amount` (`FlattenedAt`) |
| FoodDetailedProofs.FlattenedAt | utils.py:262-264 | each dict value becomes its `amount` and every other value is unchanged |
| FoodDetailedProofs.SerializedFlattens | utils.py:262-264 | flattening a serialized food never fails, keeps its keys, turns each set nutrient into its amount and keeps the name and units |
| QueryFdc.ValidateOptions | query_fdc.py:59-67 | list mode with arguments is reported first; then a non-zero page without list mode; then a negative page, with its value |
| QueryFdcProofs.AcceptedOptions | query_fdc.py:59-67 | the options are accepted exactly when there are no arguments in list mode, a page only in list mode, and the page is not negative |
| QueryFdc.NatDigits | query_fdc.py:25-28 | the decimal digits of n: non-empty, no leading zero, and the last is n mod 10 |
| QueryFdcProofs.DigitsRoundTrip | query_fdc.py:25-28 | reading back the digits of n gives n |
| QueryFdcProofs.DecimalSign | query_fdc.py:25-28 | the decimal form is non-empty and starts with '-' exactly for negative numbers |
| QueryFdcProofs.DecimalInjective | query_fdc.py:25-28 | different integers have different decimal forms |
| QueryFdc.NumberToOrdinal | query_fdc.py:25-28 | the decimal form of n followed by one of the suffixes st, nd, rd, th (which one: `SuffixChoice`) |
| QueryFdcProofs.OrdinalShape | query_fdc.py:25-28 | the ordinal is the decimal form followed by a two-letter suffix |
| QueryFdcProofs.SuffixChoice | query_fdc.py:25-28 | the suffix is "st" iff n % 10 == 1, "nd" iff 2, "rd" iff 3, and "th" otherwise |
| QueryFdcProofs.SuffixFollowsLastDigit | query_fdc.py:73-77 | for the positive argument positions, the suffix follows the last decimal digit |
| QueryFdcProofs.OrdinalExamples | query_fdc.py:25-28 | 1 gives "1st", 22 gives "22nd", 4 gives "4th" |
| QueryFdcProofs.TeenOrdinals | query_fdc.py:25-28 | there is no teens exception: "11st", "12nd", "13rd" |
| QueryFdcProofs.NegativeOrdinal | query_fdc.py:25-28 | Python's modulo makes -1 give "-1th" |

## Left out

- `Nutrient.copy` (`utils.py:42-43`) is the identity on the `Nutrient` datatype. Independence of the copy from the catalog entry holds by construction: value semantics leave no aliasing to model.
- Floating point: amounts are exact reals. IEEE-754 rounding of `100 * amount / dv` and of `amount / 40` is not modelled, and `round` is modelled as exact round-half-even.
- Case mapping covers ASCII and Latin-1 (À-Þ ↔ à-þ, without × and ÷). Python's `"ß".upper() == "SS"` and `"ÿ".upper() == "Ÿ"` (outside the regex classes) are not modelled.
- The regex engine itself is not modelled. The character classes, the boundary split and the anchored matches are written as predicates. `$` also matching before a final newline is modelled.
- `int(...)` and `float(...)` parsing of JSON values is not modelled. Payload numbers arrive already typed, and a number that fails to parse is not modelled.
- Missing keys are modelled (as `Option` fields whose absence gives `KeyError`) for the payload's `fdcId`, `description`, `dataType`, `foodPortions`, a portion's `amount` and `modifier`, `servingSize`, `servingSizeUnit` and `foodNutrients`, and for a stub entry's `value`. A nutrient entry without `amount` is skipped, as the source's branch does. The lookups of a nutrient entry's `nutrient`, `number`, `name` and `unitName`, and of a stub entry's `nutrientNumber`, are not modelled as failing.
- The order in which dictionaries print is not modelled. Serializations are `map`s, which have no order.
- The JSON types are not checked at run time. A `serving_size` is a real.
- The vitamin D entry's unit is not checked: any amount for number 324 is divided by 40, as in the source.
- `Fdc_Api_Contacter`, `get_db_handle` and `query_fdc.main` are not modelled: they do HTTP, MongoDB and subprocess I/O.
- The `query_fdc.py` checks print a message and call `exit(1)`. `ValidateOptions` returns the first failing check instead, and `OptionsMessage` holds the printed text.
- Recipes, ingredients, views, URL tables, settings and the Django ORM classes are not part of this model. The only exception is the stored `Food` model's column names, which are used above.
- FoodStubModel.FoodStub.constructor sets `calories` to `None`. Python's `__init__` leaves the attribute unset, so `serialize` on a stub made directly (not through `from_json_object`) raises `AttributeError`; the model does not capture that failure.
- QueryFdc.CastFailureMessage has no contract of its own: it is the message text around `NumberToOrdinal`.

## Findings

| source | as written | input that shows it | evidently intended | confidence | as-written member | corrected member |
|---|---|---|---|---|---|---|
| utils.py:214 | `for fdc_id, nutrient_obj in self.nutrients:` iterates the dict's integer keys and unpacks each into two names | any stored food row, e.g. the first key 203 | `for fdc_id, nutrient_obj in self.nutrients.items():` | not executed | FoodDetailedModel.FromModelAsWritten (shown by FoodDetailedProofs.FromModelAsWrittenAlwaysRaises) | FoodDetailedModel.FoodDetailed.FromModelObject |
