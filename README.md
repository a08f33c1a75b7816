# murinoclub listing normaliser, modelled in Dafny

`murinoclub.py` turns the noisy text of a real-estate developer's listing
into one canonical record per flat, parking place or storeroom. This
project models the three parts of that file that carry its logic:

- **`EstateObject`**, the canonical record. Each setter reads one field from
  text or a number:
  - the object type, resolved through synonyms, longest first;
  - prices, with units, "on request" words and range checks;
  - areas, rooms, floors, the in-sale status, the finished and furniture
    flags;
  - features, kept without duplicates.

  `final_check` then validates the record, runs its corrective rewrites and
  decides whether the record is saved.
- **`TableMapper`**, the field resolver. It flattens a table of labels into
  (label, setter) pairs sorted by descending label length. It resolves a key
  by exact or substring match, and honours a key deny list and allow/deny
  lists of setters. It then calls the record's setter.
- **`Utils`**: `remove_restricted`, `_normalize_str`, `split_floors` and
  `parse_post_data`.

How the files are laid out:

- `results.dfy`, `errors.dfy`: `Option`, `Result`, `Outcome`, and the
  exceptions the source raises.
- `text.dfy`: the Python `str` operations the source relies on:
  - `lower`, `strip`, `in`, `replace`, `split`, `join`;
  - `int()` and `Decimal()` of text;
  - the few regular expressions involved.
- `utils.dfy`, `synonyms.dfy`: the `Utils` functions, and the flatten, sort
  and first-match machinery that `_resort_obj_types` and `_restructure_map`
  share.
- `estate_values.dfy`: the value types of the record, the `**kwargs`
  configuration as a `Config` datatype, and the record `__init__` leaves.
- The setters as functions on the record, one file per group:
  - `types.dfy`: type, number, building, section;
  - `prices.dfy`, `areas.dfy`, `rooms.dfy`, `places.dfy` (floor, plan);
  - `status.dfy`: in sale, finished, furniture;
  - `features.dfy`.
- `final_check.dfy`: `final_check` and its helpers.
- `estate.dfy`: the class `Estates.EstateObject`. Its one mutable field
  `attrs` holds the record. Every setter is a method that updates `attrs` in
  place, proved equal to the function that specifies it.
- `mapper.dfy`: the class `Mapper.TableMapper`. Its setter dispatch
  (`obj.__getattribute__(name)(value)`) is a `match` over the `Setter`
  datatype. `Mapper.SharedKeys` is the class-level `restricted_keys` list
  that every mapper extends in place.
- `mapper_keys.dfy`: what the class's own tables do with the listed key
  `datePriceIncrease`, label by label.

Python's dynamic values are `Val = Str(s) | Int(i) | Nil`. Prices are
integers, and areas, heights and percentages are `real` (`Decimal` is exact
here). `re.sub(part, '', value, flags=re.I)` on the source's restricted parts
is modelled as follows:

- removal of a case-insensitive pattern whose atoms are characters;
- `.` matches any one character;
- `\s` matches one whitespace character;
- `\*` and the other escapes match the character itself.

## Model

| member | source | states |
|---|---|---|
| EstateValues.TypeOfName | murinoclub.py:26-27 | a name found is one of `possible_types` and is that type's canonical name |
| EstateValues.TypeOfNameOfTypeName | murinoclub.py:26-27 | every canonical type is found from its own name; the skip marker is found from no name |
| EstateValues.DefaultConfig | murinoclub.py:51-67 | before `**kwargs`, the minimum price is 500000 and both validations are on |
| EstateValues.NewEstate | murinoclub.py:67-105 | a new record is a `flat`, in sale and to be saved, has no summed living area, no prices, no rooms and no features |
| Utils.RemoveRestricted | murinoclub.py:777-782 | the loop over the restricted parts computes `Cleaned(value, restricted)` (with lines 116-121) |
| Utils.CleanedProperties | murinoclub.py:777-782 | `remove_restricted` returns stripped text, no longer than its input, made only of the input's characters, with no character left that a one-character part matches |
| Utils.CleanedStripped | murinoclub.py:777-782 | the result is stripped and no longer than the input |
| Utils.CleanedNothing | murinoclub.py:777-782 | with no restricted parts the result is `value.strip()` |
| Utils.RemoveEachFree | murinoclub.py:779-781 | after every part has been removed, no character that a one-character part matches is left |
| Utils.NormalizeStrWords | murinoclub.py:785-786 | `_normalize_str` keeps the words of its input, in order |
| Utils.NormalizeStrIsNormal | murinoclub.py:785-786 | the result is normal text: single spaces between words, none at the ends |
| Utils.NormalizeStrFixedPoints | murinoclub.py:785-786 | the texts it leaves unchanged are exactly the normal ones |
| Utils.NormalizeStrIdempotent | murinoclub.py:785-786 | normalising twice is normalising once |
| Utils.RangeValues | murinoclub.py:843-845 | element `k` of `range(a, b)` is `a + k` |
| Utils.SplitFloors | murinoclub.py:827-850 | the method, with its recursion and loops, computes `SplitFloorsSpec(s)` |
| Utils.ExpandFloorParts | murinoclub.py:839-841 | the loop over the comma parts of a mixed list computes `ExpandParts`: each part's floors, concatenated in order, or the first error |
| Utils.ExpandRange | murinoclub.py:842-845 | the `a-b` branch computes `RangeFloors(u)` |
| Utils.ParseFloorList | murinoclub.py:846-847 | the comma-list loop computes `ParseNonEmpty(parts)` |
| Utils.FloorTextUnchanged | murinoclub.py:834-837 | text of digits, hyphens and commas that starts and ends with a digit passes the rewriting and stripping unchanged |
| Utils.SplitFloorsMixed | murinoclub.py:839-841 | text holding both `-` and `,` gives the concatenated expansions of its comma parts |
| Utils.SplitFloorsRange | murinoclub.py:842-845 | text with `-` and no `,` gives the range of its two ends |
| Utils.SplitFloorsList | murinoclub.py:846-847 | text with `,` and no `-` gives the numbers of its parts, in order |
| Utils.SplitFloorsNumber | murinoclub.py:848-849 | text with neither gives the one-floor list of its number |
| Utils.RangeFloorsOfDigits | murinoclub.py:842-845 | `"lo-hi"` expands to the inclusive ascending list `lo..hi` |
| Utils.SplitFloorsOfSingle | murinoclub.py:848-849 | `str(f)` gives `[f]` |
| Utils.SplitFloorsOfSpan | murinoclub.py:842-845 | `"lo-hi"` gives `range(lo, hi + 1)` |
| Utils.SplitFloorsOfItem | murinoclub.py:827-850 | one item alone gives its floors: a number itself, a range all its floors |
| Utils.SplitFloorsOfItems | murinoclub.py:827-850 | the comma-joined text of any non-empty list of numbers and ranges gives every floor they name, in order |
| Utils.SplitFloorsOfMixedList | murinoclub.py:839-841 | two or more items, one of them a range: the per-part expansions, concatenated |
| Utils.SplitFloorsOfPlainList | murinoclub.py:846-847 | two or more numbers: those numbers in order |
| Utils.SplitFloorsOfList | murinoclub.py:839-847 | any two or more items: every floor they name, in order |
| Utils.KeysOf | murinoclub.py:806-809 | the keys of the pairs, one per pair, in order |
| Utils.ParsePostData | murinoclub.py:793-810 | with `use_tuple` the non-blank `key: value` lines as a list of stripped pairs; otherwise the dictionary of them, which refuses a repeated key |
| Utils.AsDictErrorStays | murinoclub.py:806-809 | once a key has repeated, later lines cannot undo the error |
| Utils.AsDictOfDistinct | murinoclub.py:806-809 | pairs with distinct keys read as a dictionary holding them all, in order |
| Utils.AsDictOfRepeat | murinoclub.py:806-809 | pairs with a repeated key raise |
| Utils.AsDictOk | murinoclub.py:806-809 | reading succeeds exactly when no key repeats, and then keeps every pair in order |
| Synonyms.Entries | murinoclub.py:110-111 | one (label, target) pair per label |
| Synonyms.EntriesAt | murinoclub.py:110-111 | pair `i` of a row is its label `i` with the row's target |
| Synonyms.FlattenMembers | murinoclub.py:108-112 | a pair is in the flattened table exactly when some row pairs that label with that target |
| Synonyms.FlattenTable | murinoclub.py:108-112 | the nested loops over rows and labels compute `Flatten(groups)` (with lines 954-958) |
| Synonyms.SortByLengthSorted | murinoclub.py:113 | the sort by descending label length leaves the pairs in that order (with lines 959) |
| Synonyms.SortByLengthPermutation | murinoclub.py:113 | the sort is a permutation of the flattened pairs (with lines 959) |
| Synonyms.SortByLengthStable | murinoclub.py:113 | the sort is stable: the pairs of one label length keep their table order (with lines 959) |
| Synonyms.FirstMatchFrom | murinoclub.py:136-138 | the index found is the first, from `i`, whose label matches, and none is found exactly when no label from `i` matches (with lines 1037-1041) |
| Synonyms.Lookup | murinoclub.py:136-138 | nothing is found exactly when no label matches; otherwise the target of the first match (with lines 1037-1041) |
| Synonyms.LongestMatch | murinoclub.py:113-138 | on a table in descending length order no matching label is longer than the first match |
| Synonyms.LookupSortedTieBreak | murinoclub.py:113-138 | among the longest matching labels, the one listed first in the table as written wins |
| ObjectTypes.FindObjType | murinoclub.py:135-138 | `None` exactly when no synonym occurs in the lowered text; a type found is that of an occurring synonym |
| ObjectTypes.FindObjTypeLongest | murinoclub.py:107-138 | on the sorted table the type found is that of the first occurring synonym, and no occurring synonym is longer |
| ObjectTypes.TypeTableSorted | murinoclub.py:107-113 | the table the record builds is sorted by descending length and is a permutation of `type_by_names` |
| ObjectTypes.SetObjType | murinoclub.py:140-152 | only the type, `_need_save`, the features and euro planning can change |
| ObjectTypes.SetObjTypeResolves | murinoclub.py:140-152 | a canonical name sets the type alone; otherwise the type found is set, `_need_save` cleared exactly for `SKIP_TYPE`, a raw `пентхаус` recorded as a feature, and text naming no type raises without a change |
| ObjectTypes.SetObjTypeSkip | murinoclub.py:143-146 | a `SKIP_TYPE` synonym does not raise and marks the record as not to be saved |
| ObjectTypes.SetObjTypeRaises | murinoclub.py:141-148 | it raises exactly for text that is no canonical name and holds no synonym, and then changes nothing |
| ObjectTypes.TypeOfNameNames | murinoclub.py:141 | `value in possible_types` holds exactly for the canonical names |
| ObjectTypes.PenthouseIsPlain | murinoclub.py:149-150 | `Пентхаус` is recorded as a feature under its own spelling |
| ObjectTypes.CheckIsObjectTypeValid | murinoclub.py:242-250 | only the type can change |
| ObjectTypes.CheckTypeAgrees | murinoclub.py:242-250 | it raises exactly when the text names a type other than the record's and `_correct_type_dynamic` is off; on return the type agrees with any type the text names; text naming no type changes nothing |
| ObjectTypes.SetNumber | murinoclub.py:252-260 | only the type and the number can change |
| ObjectTypes.SetNumberStores | murinoclub.py:252-260 | a failed type check raises and the number is left; otherwise the number is the cleaned, stripped text |
| ObjectTypes.SetNumberOnSite | murinoclub.py:262-269 | only the number on the floor changes, and it becomes the text without its restricted parts |
| ObjectTypes.SetNumberOnSiteStores | murinoclub.py:262-269 | the text without its restricted parts is always stored, and it is stripped and no longer than the input |
| ObjectTypes.SetBuilding | murinoclub.py:154-161 | only the building can change |
| ObjectTypes.SetBuildingStores | murinoclub.py:154-161 | the cleaned, stripped text is stored exactly when it is no empty value; otherwise nothing changes |
| ObjectTypes.SetSection | murinoclub.py:163-168 | only the section can change |
| ObjectTypes.SetSectionStores | murinoclub.py:163-168 | the cleaned text is stored exactly when it is neither empty nor an empty value, so a stored section is never empty |
| Prices.RoundHalfEven | murinoclub.py:189-199 | `round(d, 0)`: within one half of `x`, and an exact half goes to the even integer |
| Prices.RoundHalfEvenOfInt | murinoclub.py:189 | rounding an integer gives that integer |
| Prices.LowerBound | murinoclub.py:192-197 | for text with a digit, what is left holds no `-` unless an en dash was cut; digit-free text is left as it is |
| Prices.CorrectPriceMeaning | murinoclub.py:191-200 | `correct_price` fails exactly when the lower bound is no number; below 1000 the result is the whole number of roubles nearest to that many millions; from 1000 on it is the number itself |
| Prices.DecodePriceCases | murinoclub.py:170-189 | a falsy value, an "on request" word or an empty value gives no price; a non-zero integer without auto-correction gives itself times `multi` |
| Prices.DecodePriceOfNat | murinoclub.py:179-189 | the text of a non-zero number decodes to that number times `multi` |
| Prices.DecodePriceOfDigits | murinoclub.py:179-189 | a non-zero digit string decodes to its value times `multi` |
| Prices.CleanedOfDigits | murinoclub.py:179-185 | removing the price parts leaves a digit string unchanged |
| Prices.CheckPriceValue | murinoclub.py:202-206 | the only error it raises is the price-value error |
| Prices.CheckPriceValueRange | murinoclub.py:202-206 | it raises exactly for a price in (0, 10000) or above 10^11, unless small prices are ignored; no price and a zero price never raise |
| Prices.BasePriceUpdate | murinoclub.py:214-225 | a passing update leaves a base price that passes the range check |
| Prices.OrderPricesOrders | murinoclub.py:215-223 | of two different prices the larger becomes the base and the smaller the sale price; equal prices leave the sale price as it was |
| Prices.OrderPricesFromSale | murinoclub.py:224-225 | without a base price the sale price becomes the base and the sale field is left alone |
| Prices.SetPriceBaseOrders | murinoclub.py:208-226 | with a `sale` argument, the two decoded prices end up as `OrderPrices` places them, and the outcome is the range check of the new base |
| Prices.SetPriceBasePlausible | murinoclub.py:208-226 | when `set_price_base` returns, the base is unset, zero, or in [10000, 10^11] |
| Prices.SetPriceEffect | murinoclub.py:470-484 | a plain price setter writes its own field with the decoded price and no other price; it raises exactly when decoding fails or the range check refuses the price |
| Prices.WithPriceFrame | murinoclub.py:470-484 | writing one price field sets that field and leaves the other three |
| Areas.AreaCleaner | murinoclub.py:228-235 | an integer is itself; `None` raises `TypeError`; text fails, with `IndexError`, exactly when it has no digit once commas are points |
| Areas.AreaCleanerOfDigits | murinoclub.py:228-235 | a plain number reads as its value |
| Areas.AreaCleanerOfComma | murinoclub.py:228-235 | `whole,frac` reads as `whole + 0.frac` |
| Areas.SetArea | murinoclub.py:237-240 | a falsy value changes nothing; otherwise the area becomes the cleaned number, or the cleaner's error is raised and nothing changes |
| Areas.SetLivingArea | murinoclub.py:435-440 | only the living area can change; a falsy value changes nothing; a value given after room areas were summed raises; otherwise the living area becomes the cleaned number, or the cleaner's error is raised and nothing changes |
| Areas.FindLivingAreaFromRooms | murinoclub.py:644-651 | only the living area and its summed-from-rooms flag can change |
| Areas.AddRoomArea | murinoclub.py:646-651 | only the living area and the flag can change |
| Areas.LivingAreaSourcesExclusive | murinoclub.py:435-440 | a living area given after room areas were summed is refused, and a room area after a living area was given is refused (with lines 644-651) |
| Areas.AddRoomAreasSums | murinoclub.py:644-651 | summing readable room areas from no living area passes, gives their sum, and marks the living area as summed |
| Areas.SetCeil | murinoclub.py:442-447 | it passes exactly when the cleaned text (comma as point) is a decimal, and then the ceiling is that decimal; only the ceiling can change |
| Areas.SetDiscountPercent | murinoclub.py:579-583 | the same for the discount percentage |
| FeatureSetters.SetFeature | murinoclub.py:543-556 | only the features and euro planning can change |
| FeatureSetters.AddFeatureRecords | murinoclub.py:550-556 | the text is held afterwards; what was held stays, in order, and only the text is added, when it was not held already |
| FeatureSetters.AddFeatureTwice | murinoclub.py:550-556 | appending the same text twice is appending it once |
| FeatureSetters.AddFeatureKeepsDistinct | murinoclub.py:550-556 | appending keeps a list without duplicates free of them |
| FeatureSetters.SetFeatureRecords | murinoclub.py:543-556 | non-euro text ends up in `feature`, after what was held unless held already; euro planning is untouched |
| FeatureSetters.SetFeatureKeepsDistinct | murinoclub.py:543-556 | `feature` never holds a text twice |
| FeatureSetters.SetFeatureEuro | murinoclub.py:547-549 | text holding `евро` sets `euro_planning` to 1 and leaves `feature` alone |
| FeatureSetters.SetFeatureTwice | murinoclub.py:543-556 | a second call with the same text adds nothing |
| FeatureSetters.SetPlainFeature | murinoclub.py:543-556 | a plain text is recorded under its own spelling |
| FeatureSetters.SetFeatureKeeps | murinoclub.py:543-556 | a non-empty text once held stays held |
| FeatureSetters.SetView | murinoclub.py:558-565 | only the view can change |
| FeatureSetters.SetViewAppends | murinoclub.py:558-565 | every non-empty view text is appended after those held, in order |
| FeatureSetters.AppendViewItems | murinoclub.py:562-565 | appending to the view list, or starting one, adds exactly that text at the end |
| FeatureSetters.SetSale | murinoclub.py:573-577 | only the sale notes change |
| FeatureSetters.SetSaleJoins | murinoclub.py:573-577 | notes given one by one end up joined by `; `, in order |
| FeatureSetters.SetLevel | murinoclub.py:588-592 | only the features and euro planning can change |
| FeatureSetters.SetLevelRecords | murinoclub.py:588-592 | a two-level home is recorded for text naming one and for any value whose text holds a `2`; nothing else changes anything |
| FeatureSetters.SetLevelOfNumber | murinoclub.py:588-592 | level 2 marks the home two-level; level 1 changes nothing |
| FeatureSetters.TwoLevelsIsPlain | murinoclub.py:589-592 | `Двухуровневая` is recorded under its own spelling |
| FeatureSetters.SetBalcon | murinoclub.py:594-617 | it never raises, and only the features and euro planning can change |
| FeatureSetters.SetBalconRecords | murinoclub.py:594-617 | its kind is recorded for text naming a balcony, or saying yes or giving a non-zero area while not naming a loggia, and for a non-zero number; a loggia for text naming one without a balcony; a terrace as well for text naming one; zero and `None` change nothing |
| FeatureSetters.SetBalconKeepsDistinct | murinoclub.py:594-617 | `feature` stays free of duplicates |
| FeatureSetters.KindsArePlain | murinoclub.py:594-623 | balcony, loggia, storeroom and terrace are recorded under their own spelling |
| FeatureSetters.MarkIfRecords | murinoclub.py:595-617 | a mark records its kind when it applies, keeps `feature` free of duplicates, and changes nothing otherwise |
| FeatureSetters.SetTerrace | murinoclub.py:625-642 | it never raises, and only the features and euro planning can change |
| FeatureSetters.SetTerraceRecords | murinoclub.py:625-642 | a terrace for text saying yes, naming one or giving a non-zero area, and for a non-zero number; zero and `None` change nothing; no duplicates appear |
| Places.FloorOfText | murinoclub.py:354-358 | only the floor can change, and the one error is `IndexError`, from text without a number |
| Places.FloorOfValue | murinoclub.py:351-358 | only the floor and `_floors` can change, and a raise changes nothing |
| Places.SetFloor | murinoclub.py:336-358 | only the floor and `_floors` can change, and a raise changes nothing |
| Places.SetFloorWords | murinoclub.py:337-346 | `цоколь` gives floor -1, then `первый` floor 1, then `подвал` floor -1, ahead of every other rule, `_split_floors` included |
| Places.SetFloorOfInt | murinoclub.py:347-358 | an integer is the floor when non-zero and ignored when zero; with `_split_floors` it raises, since `split_floors` needs text |
| Places.SetFloorLeadingInt | murinoclub.py:347-358 | text opening with an integer that no digit follows (`5 из 17`, `-1/3`) sets that floor; 0 is an empty value and changes nothing |
| Places.SetFloorNoDigits | murinoclub.py:347-358 | digit-free text raises `IndexError` once what is left after the cut is non-empty, and is ignored otherwise |
| Places.SetFloorOfItems | murinoclub.py:347-352 | with `_split_floors`, the text of floor numbers and ranges (`2-5,7`) sets `_floors` to the floors they name (with lines 827-850) |
| Places.FloorsTextFree | murinoclub.py:337-350 | such text is non-empty, names no floor word and holds neither `из` nor `/` |
| Places.SetPlan | murinoclub.py:533-541 | only the plan can change |
| Places.SetPlanRecords | murinoclub.py:533-541 | empty text changes nothing; other text is the plan, an absolute link exactly when it holds `http` |
| Availability.SetSaleStatus | murinoclub.py:430-433 | the status becomes the text without its restricted parts, and nothing else changes |
| Availability.SetSaleStatusClean | murinoclub.py:430-433 | the status recorded is stripped, no longer than the text given, and holds no `:` |
| Availability.FinalInSale | murinoclub.py:414-418 | a value accepted is 0, 1 or `None` |
| Availability.SetInSale | murinoclub.py:360-418 | only `in_sale`, the sale status and the sale notes can change |
| Availability.WordStatus | murinoclub.py:361-406 | the word chain changes only the sale status and the notes |
| Availability.ListedStatus | murinoclub.py:409-411 | a configured reserved value changes only the sale status |
| Availability.SetInSaleRange | murinoclub.py:360-418 | on return `in_sale` is 0, 1 or `None`; a raise leaves it as it was; it returns exactly when the final check accepts the value the chain and the lists leave |
| Availability.SetInSaleOfWord | murinoclub.py:361-406 | with no configured lists, a word of the chain decides `in_sale` |
| Availability.SaleWordStatuses | murinoclub.py:361-406 | booked and reserved texts are available with that status; a text read as not available holds a sold word, `false` or `true`; a recorded status means available |
| Availability.TrueMeansNotInSale | murinoclub.py:397-398 | `'true'` reads as not available, like `'false'` |
| Availability.UnavailableIsAvail | murinoclub.py:399-406 | the chain's last test never decides: text holding `unavailable` holds `avail`, which an earlier test reads as available |
| Availability.SetInSaleListed | murinoclub.py:407-408 | a configured in-sale status makes the record available, whatever the chain said |
| Availability.SetInSaleRefuses | murinoclub.py:414-418 | an integer other than 0 and 1, in no list, raises and changes nothing |
| Availability.SetFinished | murinoclub.py:420-423 | it passes exactly for 0, 1, `None` and `'optional'`, and stores the value; otherwise it raises and changes nothing |
| Availability.SetFurniture | murinoclub.py:486-489 | the same for `furniture` |
| Availability.FlagsStayValid | murinoclub.py:420-423 | `finished` and `furniture` only ever hold accepted values (with lines 486-489) |
| Availability.SetFinishingName | murinoclub.py:454-468 | only `finished` and the finish's name can change |
| Availability.SetFinishingNameOutcomes | murinoclub.py:454-468 | empty and no-finish texts change nothing; any other text marks the record finished, and is kept stripped as the name unless it is a bare yes |
| RoomCounts.TypeScanFinds | murinoclub.py:283-293 | the scan stops exactly at the first occurring synonym of a type other than flat and apartment, with that type; a scan that runs through ends on apartment when an apartment synonym occurs, and otherwise keeps the type |
| RoomCounts.NumeralFrom | murinoclub.py:294-310 | a count found lies between the row searched from and the last row |
| RoomCounts.NumeralFromFinds | murinoclub.py:294-310 | the numeral chain gives `n` rooms exactly when a word of row `n - 1` occurs and no word of an earlier row does |
| RoomCounts.NumeralFromNone | murinoclub.py:294-310 | it gives nothing exactly when no row's word occurs |
| RoomCounts.EuroQuirkPrecedence | murinoclub.py:322 | by Python's precedence the length bound applies to the Cyrillic `е` only; with `check_euro` any Latin `e` sets euro planning |
| RoomCounts.StudioIfZero | murinoclub.py:331-332 | a count of 0 becomes `'studio'`, and any other value of `rooms` is kept |
| RoomCounts.RoomsOfWord | murinoclub.py:294-330 | only `rooms` and euro planning can change, and a raise leaves `rooms` |
| RoomCounts.CountPath | murinoclub.py:280-334 | only `rooms`, euro planning and the type can change; a raise leaves `rooms`; a count of 0 is never produced |
| RoomCounts.SetRooms | murinoclub.py:271-334 | only `rooms`, euro planning, the type and the features can change |
| RoomCounts.SetRoomsCounts | murinoclub.py:280-334 | on the text path that reaches the count, `set_rooms` is euro planning, the type scan, the count, then the studio rule |
| RoomCounts.SetRoomsNoZero | murinoclub.py:331-332 | a count of 0 never survives `set_rooms` |
| RoomCounts.SetRoomsOfInt | murinoclub.py:272-274 | an integer sets the count, 0 giving `'studio'`; `None` raises `TypeError` (with lines 331-332) |
| RoomCounts.RoomsOfNumeral | murinoclub.py:294-310 | `n` rooms, 1 to 7, for a word of row `n - 1` when no earlier row's word occurs |
| RoomCounts.RoomsOfTwo | murinoclub.py:297-298 | `двух` and `2-х` give two rooms |
| RoomCounts.RoomsOfDigits | murinoclub.py:311-330 | text with no keyword that is no empty value gives its first number; digit-free text raises unless `_ignore_empty_rooms`; euro planning follows the quirk |
| RoomCounts.SetRoomsRaises | murinoclub.py:271-334 | the only raise on text is the no-digits one: digit-free text that matched nothing and is no empty value, with `_ignore_empty_rooms` off |
| RoomCounts.SetRoomsFeatures | murinoclub.py:275-279 | `пентхаус` and `св. план` record their feature and change nothing else |
| RoomCounts.FreePlanIsPlain | murinoclub.py:278-279 | `Свободная планировка` is recorded under its own spelling |
| FinalCheck.ValidateObjDataIff | murinoclub.py:702-721 | the record check passes exactly when every demand holds: rooms, floor, area bounds by type, living area within the area |
| FinalCheck.OrderPair | murinoclub.py:724-739 | the pair comes back in order, as it was or swapped, and unchanged when it was in order |
| FinalCheck.OrderBaseSale | murinoclub.py:724-730 | only the base and sale prices can change |
| FinalCheck.OrderFinished | murinoclub.py:732-739 | only the finished prices can change |
| FinalCheck.MinimumCheck | murinoclub.py:744-752 | it passes exactly when a priced type holds no price below the minimum |
| FinalCheck.ValidatePrices | murinoclub.py:723-752 | only the four prices can change |
| FinalCheck.OrderPairMinimum | murinoclub.py:744-752 | ordering a pair keeps each price's bound against the minimum |
| FinalCheck.ValidatePricesIff | murinoclub.py:723-752 | the price check passes exactly when its demands hold of the record it is given (pairs in order unless swaps are allowed, a discount of at most 30, no price below the minimum); it then leaves both pairs in order and above the minimum |
| FinalCheck.ValidatePricesSwaps | murinoclub.py:723-739 | the check only ever swaps a pair; under `_swap_wrong_prices` both pairs end in order; pairs in order are left |
| FinalCheck.ClearRoomsByNotFlats | murinoclub.py:698-700 | parking places and storerooms lose their rooms; nothing else changes |
| FinalCheck.SetNotInSaleIfNoPrice | murinoclub.py:675-678 | a record without any price is not in sale; nothing else changes |
| FinalCheck.SwapBaseAndFinished | murinoclub.py:680-687 | for a finished object a base or sale price without its finished counterpart moves there; whether any price is set is unchanged, and a settled record is left |
| FinalCheck.ClearSamePrices | murinoclub.py:689-696 | a sale price equal to its base is dropped, so no pair holds a price twice; other prices and the order are kept |
| FinalCheck.Checks | murinoclub.py:654-658 | only the four prices can change |
| FinalCheck.ChecksIff | murinoclub.py:654-658 | the enabled checks pass exactly when their demands hold |
| FinalCheck.FinalCheck | murinoclub.py:653-673 | the type is never changed |
| FinalCheck.FinalCheckOnFailure | murinoclub.py:654-664 | a failing check returns False and clears `_need_save` under `_skip_wrong` and raises otherwise; nothing changes but the price pairs a check swapped |
| FinalCheck.RewriteProperties | murinoclub.py:665-700 | the rewrites leave no rooms on parking places and storerooms, not in sale without a price, no pair holding a price twice, the base above the sale price when that pair was in order, and only prices the record held |
| FinalCheck.FinalCheckOnSuccess | murinoclub.py:653-673 | passing checks return True, or raise for a type outside `possible_types`; `_need_save` is kept and the rewrites' properties hold, the base above the sale price when prices were validated |
| FinalCheck.FinalCheckRejectsSkipType | murinoclub.py:670-671 | the skip marker raises even under `_skip_wrong` once the checks pass |
| FinalCheck.MinimumOfPricesFrom | murinoclub.py:744-752 | prices taken from a record that met the minimum still meet it |
| FinalCheck.RewriteFixed | murinoclub.py:665-700 | a record the rewrites already leave settled is a fixed point of them |
| FinalCheck.FinalCheckIdempotent | murinoclub.py:653-673 | a second `final_check` after a successful one returns True and changes nothing, if the finished pair is in order and no price is left to move |
| FinalCheck.FinalCheckInvertsFinishedPair | murinoclub.py:680-687 | moving the base price to a missing finished price can leave the finished pair out of order, so the second `final_check` fails (with lines 732-739) |
| FinalCheck.FinalCheckMovesSaleLater | murinoclub.py:680-696 | dropping an equal finished sale price frees its place, and a second `final_check` then moves the sale price there |
| Estates.EstateObject.ResortObjTypes | murinoclub.py:107-113 | the loops build the sorted, flattened type table |
| Estates.EstateObject.constructor | murinoclub.py:43-105 | the configuration is stored, the type table is sorted, and the record is the new one |
| Estates.EstateObject.FindObjTypeByValue | murinoclub.py:135-138 | the scan returns `ObjectTypes.FindObjType` |
| Estates.EstateObject.SetObjType | murinoclub.py:140-152 | the record and the outcome become those of `ObjectTypes.SetObjType` |
| Estates.EstateObject.CheckIsObjectTypeValid | murinoclub.py:242-250 | the record and outcome of `ObjectTypes.CheckIsObjectTypeValid` |
| Estates.EstateObject.SetBuilding | murinoclub.py:154-161 | the record of `ObjectTypes.SetBuilding` |
| Estates.EstateObject.SetSection | murinoclub.py:163-168 | the record of `ObjectTypes.SetSection` |
| Estates.EstateObject.SetNumber | murinoclub.py:252-260 | the record and outcome of `ObjectTypes.SetNumber` |
| Estates.EstateObject.SetNumberOnSite | murinoclub.py:262-269 | the record of `ObjectTypes.SetNumberOnSite` |
| Estates.EstateObject.SetPriceBase | murinoclub.py:208-226 | the record and outcome of `Prices.SetPriceBase` |
| Estates.EstateObject.UpdateBasePrice | murinoclub.py:214-225 | the base and sale prices and the outcome of `Prices.BasePriceUpdate` |
| Estates.EstateObject.OrderWithSale | murinoclub.py:217-225 | the base and sale prices as `Prices.OrderPrices` places them |
| Estates.EstateObject.SetPriceSale | murinoclub.py:470-472 | the record and outcome of `Prices.SetPrice` on the sale field |
| Estates.EstateObject.SetPriceFinished | murinoclub.py:474-476 | the same on the finished price |
| Estates.EstateObject.SetPriceFinishedSale | murinoclub.py:478-480 | the same on the finished sale price |
| Estates.EstateObject.SetFurniturePrice | murinoclub.py:482-484 | the same on the furniture price |
| Estates.EstateObject.SetArea | murinoclub.py:237-240 | the record and outcome of `Areas.SetArea` |
| Estates.EstateObject.SetLivingArea | murinoclub.py:435-440 | the record and outcome of `Areas.SetLivingArea` |
| Estates.EstateObject.FindLivingAreaFromRooms | murinoclub.py:644-651 | the record and outcome of `Areas.FindLivingAreaFromRooms` |
| Estates.EstateObject.AddRoomArea | murinoclub.py:646-651 | the record and outcome of `Areas.AddRoomArea` |
| Estates.EstateObject.SetCeil | murinoclub.py:442-447 | the record and outcome of `Areas.SetCeil` |
| Estates.EstateObject.SetDiscountPercent | murinoclub.py:579-583 | the record and outcome of `Areas.SetDiscountPercent` |
| Estates.EstateObject.SetFeature | murinoclub.py:543-556 | the record of `FeatureSetters.SetFeature`, the list grown in place |
| Estates.EstateObject.SetView | murinoclub.py:558-565 | the record of `FeatureSetters.SetView` |
| Estates.EstateObject.SetSale | murinoclub.py:573-577 | the record of `FeatureSetters.SetSale` |
| Estates.EstateObject.SetLevel | murinoclub.py:588-592 | the record of `FeatureSetters.SetLevel` |
| Estates.EstateObject.SetBalcon | murinoclub.py:594-617 | the record of `FeatureSetters.SetBalcon` |
| Estates.EstateObject.SetLoggia | murinoclub.py:619-620 | the record of `FeatureSetters.SetLoggia`: `set_balcon` with the loggia kind |
| Estates.EstateObject.SetStoreroom | murinoclub.py:622-623 | the record of `FeatureSetters.SetStoreroom`: `set_balcon` with the storeroom kind |
| Estates.EstateObject.SetTerrace | murinoclub.py:625-642 | the record of `FeatureSetters.SetTerrace` |
| Estates.EstateObject.SetRooms | murinoclub.py:271-334 | the record and outcome of `RoomCounts.SetRooms` |
| Estates.EstateObject.ScanTypes | murinoclub.py:283-293 | the type and the stop flag of `RoomCounts.TypeScan`; nothing else changes |
| Estates.EstateObject.CountRooms | murinoclub.py:294-330 | the record and outcome of `RoomCounts.RoomsOfWord` |
| Estates.EstateObject.SetFloor | murinoclub.py:336-358 | the record and outcome of `Places.SetFloor` |
| Estates.EstateObject.StoreFloor | murinoclub.py:351-358 | the record and outcome of `Places.FloorOfValue` |
| Estates.EstateObject.StoreFloorText | murinoclub.py:355-358 | the record and outcome of `Places.FloorOfText` |
| Estates.EstateObject.SetPlan | murinoclub.py:533-541 | the record of `Places.SetPlan` |
| Estates.EstateObject.SetSaleStatus | murinoclub.py:430-433 | the record of `Availability.SetSaleStatus` |
| Estates.EstateObject.SetInSale | murinoclub.py:360-418 | the record and outcome of `Availability.SetInSale` |
| Estates.EstateObject.ApplySaleWord | murinoclub.py:361-406 | the status and notes the chain records, and the value it leaves |
| Estates.EstateObject.ApplyStatusLists | murinoclub.py:407-413 | the status and the value the configured lists leave |
| Estates.EstateObject.SetFinished | murinoclub.py:420-423 | the record and outcome of `Availability.SetFinished` |
| Estates.EstateObject.SetFurniture | murinoclub.py:486-489 | the record and outcome of `Availability.SetFurniture` |
| Estates.EstateObject.SetFinishingName | murinoclub.py:454-468 | the record of `Availability.SetFinishingName` |
| Estates.EstateObject.SaysNotFinished | murinoclub.py:459-461 | true exactly when the lowered text holds a no-finish word |
| Estates.EstateObject.SaysFinished | murinoclub.py:465-467 | true exactly when the lowered text is one of the bare yes words |
| Estates.EstateObject.FinalCheck | murinoclub.py:653-673 | the record and result of `FinalCheck.FinalCheck` |
| Estates.EstateObject.RunChecks | murinoclub.py:654-658 | the record and outcome of `FinalCheck.Checks` |
| Estates.EstateObject.ValidateObjData | murinoclub.py:702-721 | the outcome of `FinalCheck.ValidateObjData`, with no change |
| Estates.EstateObject.ValidatePrices | murinoclub.py:723-752 | the record and outcome of `FinalCheck.ValidatePrices` |
| Estates.EstateObject.OrderBaseSale | murinoclub.py:724-730 | an out-of-order base and sale pair raises unchanged, unless swaps are allowed; otherwise the pair is put in order |
| Estates.EstateObject.OrderFinished | murinoclub.py:732-739 | the same for the finished pair |
| Estates.EstateObject.MinimumCheck | murinoclub.py:744-752 | the outcome of `FinalCheck.MinimumCheck`, with no change |
| Estates.EstateObject.ClearRoomsByNotFlats | murinoclub.py:698-700 | the record of `FinalCheck.ClearRoomsByNotFlats` |
| Estates.EstateObject.SetNotInSaleIfNoPrice | murinoclub.py:675-678 | the record of `FinalCheck.SetNotInSaleIfNoPrice` |
| Estates.EstateObject.SwapBaseAndFinished | murinoclub.py:680-687 | the record of `FinalCheck.SwapBaseAndFinished` |
| Estates.EstateObject.ClearSamePrices | murinoclub.py:689-696 | the record of `FinalCheck.ClearSamePrices` |
| Mapper.CleanValue | murinoclub.py:972-979 | a cleaned value is normal text |
| Mapper.CleanValueIsNormalized | murinoclub.py:972-979 | cleaning a value is `_normalize_str` alone, since removing empty parts from stripped text changes nothing |
| Mapper.MapKeyTarget | murinoclub.py:1035-1042 | `None` exactly when no label matches the key; a setter found is that of a matching label |
| Mapper.MapKeyTargetLongest | murinoclub.py:952-959 | on the sorted table the setter found is that of a matching label that no matching label is longer than, in both modes (with lines 1035-1042) |
| Mapper.MapKeyTargetTieBreak | murinoclub.py:952-959 | among the longest matching labels, the one listed first in `method_by_names` wins (with lines 1035-1042) |
| Mapper.ExactFindsSubstring | murinoclub.py:1037-1041 | a key that an exact label matches also finds a setter in substring mode |
| Mapper.CamelCaseKeyNotRefused | murinoclub.py:903-904 | `datePriceIncrease` is a restricted key, yet the lowered-key test lets it through, and its label `price` names `set_price_base` (with lines 992) |
| Mapper.KeyRestrictedListed | murinoclub.py:992 | every listed key is refused whatever its case, and on a list of lowercase keys the intended test is the one written |
| Mapper.ResolveCalls | murinoclub.py:986-1006 | as written, a setter is called exactly for a non-empty key whose lowered form is not in the key list, a non-empty cleaned value, a matching label and a permitted setter; it is the first matching label's setter, called with the cleaned value |
| Mapper.ResolveCleanedCalls | murinoclub.py:991-1006 | the same tests once the key and value are cleaned, whatever the denylist's verdict |
| Mapper.ResolveIntendedRefuses | murinoclub.py:992 | with the intended test, a key equal to a listed key, ignoring case, calls nothing |
| Mapper.ResolveAgreesOnLoweredKeys | murinoclub.py:992 | on a key list that is all lowercase, `map_by_one` as written and as intended call the same setter with the same value |
| CamelCaseKey.PriceWins | murinoclub.py:952-959 | when `price` on the base price's row matches the key and no other matching label is as long, the sorted table maps the key to `set_price_base` (with lines 1035-1042) |
| CamelCaseKey.ClassTableMapsKey | murinoclub.py:906-940 | the class's own `method_by_names`, sorted, maps `datePriceIncrease` to `set_price_base` in substring mode |
| CamelCaseKey.PriceKeyResolves | murinoclub.py:986-1006 | a clean key whose lowered form is not listed and which the table maps to `set_price_base` calls it with the cleaned value, or nothing when that is empty |
| CamelCaseKey.ListedPriceKey | murinoclub.py:986-1006 | such a key, listed as written, is still passed as written and refused as intended |
| CamelCaseKey.CamelCaseKeyResolves | murinoclub.py:903-904 | on the class's own tables, `map_by_one` with the fourth restricted key `datePriceIncrease` in substring mode calls `set_price_base` with the cleaned value (or nothing for an empty one), while the intended test calls nothing (with lines 906-940 and 986-1006) |
| Mapper.ForbiddenNeverCalled | murinoclub.py:1000-1001 | a setter on the deny list, or missing from a non-empty allow list, is never called |
| Mapper.MapItemsConcat | murinoclub.py:981-984 | mapping two runs of pairs is mapping the first and then, unless it raised, the second |
| Mapper.MapItemsNothing | murinoclub.py:981-984 | pairs none of which resolves to a setter leave the record as it was |
| Mapper.Zip | murinoclub.py:1033 | `zip` of lists of one length pairs key `i` with value `i` |
| Mapper.MapLists | murinoclub.py:1029-1033 | lists of different lengths raise before anything is mapped |
| Mapper.SharedKeys.constructor | murinoclub.py:903-904 | the shared list starts as the class's restricted keys |
| Mapper.SharedKeys.Extend | murinoclub.py:950 | the shared list is extended in place with the extra keys |
| Mapper.TableMapper.RestructureMap | murinoclub.py:952-959 | the pairs are the flattened table, sorted by descending label length |
| Mapper.TableMapper.constructor | murinoclub.py:942-950 | the mapper holds the sorted pairs, the shared key list and its restricted setters, and the shared list grows by the extra keys |
| Mapper.TableMapper.MapKeyToMethod | murinoclub.py:1035-1042 | the loop over the sorted pairs returns `MapKeyTarget` |
| Mapper.TableMapper.MapByOne | murinoclub.py:986-1006 | the restricted setters grow by the ones given, and the record and outcome are those of `MapOne`, which calls the setter `Resolve` picks |
| Mapper.TableMapper.MapPair | murinoclub.py:989-1006 | the record and outcome of `MapOne` once the restricted setters are extended |
| Mapper.TableMapper.ResolvePair | murinoclub.py:989-1003 | the tests of `map_by_one` as written, in order, give `Resolve` |
| Mapper.TableMapper.Dispatch | murinoclub.py:1002-1006 | calling the setter by name has the record and outcome of `Apply` |
| Mapper.TableMapper.DispatchStatus | murinoclub.py:1002-1006 | the same for `set_in_sale` and `set_finishing_name` |
| Mapper.TableMapper.DispatchMeasure | murinoclub.py:1002-1006 | the same for the rooms, area, living area and ceiling setters |
| Mapper.TableMapper.DispatchPrice | murinoclub.py:1002-1006 | the same for `set_price_base` and `set_price_sale` |
| Mapper.TableMapper.DispatchPlace | murinoclub.py:1002-1006 | the same for the building, number, number-on-floor, section, floor and plan setters |
| Mapper.TableMapper.DispatchFeature | murinoclub.py:1002-1006 | the same for the level, balcony, loggia, terrace and view setters |
| Mapper.TableMapper.MapByDict | murinoclub.py:981-984 | the loop over the items has the record and outcome of `MapItems` |
| Mapper.TableMapper.Map | murinoclub.py:1029-1033 | the record and outcome of `MapLists` |

## Left out

- `BaseParser`, `Parser` and `price()`, `Utils.page_reloader`,
  `Utils.extract_js`, `remove_comments`, `DecimalEncoder`, `Utils.get_domain`
  and `test_out`. They are HTTP, JSON, sleeping, printing and file I/O, and
  not part of this model.
- `set_complex`, `set_currency`, `set_article`, `set_euro_planning`,
  `set_discount` and `set_comissioning`. They are not among the modelled
  setters, and the mapper's table names none of them. `set_comissioning`
  also uses `strptime`.
- `correct_decimal_delimeter` is not a member of its own. Its effect on text,
  `Replace(value, ",", ".")`, is written where the setters call it.
- `pre_json`, `__eq__`, `__hash__` and `__repr__`. They reflect over
  `__dict__`; the record here is the explicit `Estate` datatype instead.
- The bs4 `Tag` paths of `_clean_key` and `_clean_value`, `map_by_table` and
  `preprocess_table`. The mapper takes keys and values as text; non-text keys
  and values are not modelled.
- SetObjType, SetBuilding, SetSection, SetNumber, SetNumberOnSite,
  SetSaleStatus, SetCeil, SetDiscountPercent, SetFeature, SetView, SetSale,
  SetPlan and SetFinishingName take text only. Their non-text paths are not
  modelled: `remove_restricted` and `correct_decimal_delimeter` hand such a
  value back unchanged (lines 777-782 and 124-127), `set_building` and
  `set_section` then store it (lines 159-160 and 166-168),
  `check_is_object_type_valid` skips it (line 243), and `set_plan` reads the
  `src` of a bs4 `Tag` (lines 535-536).
- DecodePrice takes an integer `multi`. `Decimal(value) * multi` (line 189)
  also accepts a `Decimal` or float multiplier such as a configured
  `_project_price_multi`; those are not modelled.
- Places.SetPlan: `urljoin` with the site's domain is not modelled. A
  relative link is kept as `OnSite(path)`, and `base_url` and
  `add_base_if_none` are out.
- The `not value_text and map_method == 'set_plan'` branch of `map_by_one` is
  not modelled. An empty cleaned value has already returned, so the branch
  cannot be reached.
- When the constructor applies `**kwargs`, it does so before it resets the
  public fields (lines 70-71 against 73-105), so only underscored attributes
  survive. `Config` holds those, and reads `_project_price_multi = None` as
  `0`.
- Estates.EstateObject.constructor takes the class attribute
  `type_by_names` as a parameter. Mapper.TableMapper.constructor takes
  `method_by_names` and the shared key list the same way.
- The mapper's list of restricted setters is copied. When the caller's list
  is stored and later extended in place, the caller sees that change; this
  model does not show it.
- The record holds lists (`feature`, `view`, `_floors`) as values, so no
  aliasing between records is modelled.
- The unused `sale` parameter of `set_price_finished`,
  `set_price_finished_sale` and `set_furniture_price` is dropped.
- `str.lower` covers ASCII and the basic Cyrillic letters only. `\d` and
  `int()` accept ASCII digits only. `int()` and `Decimal()` read no
  underscores, exponents, `NaN` or `Infinity`, and `Decimal`'s 28-digit
  context is ignored.
- FinalCheck.FinalCheckOnSuccess: it proves the base price above the sale
  price only when `_validate_price` is on. Without the price check,
  `_clear_same_prices` removes only equal prices.
- FinalCheck.FinalCheckIdempotent is stated only under its two extra
  conditions. FinalCheck.FinalCheckInvertsFinishedPair and
  FinalCheck.FinalCheckMovesSaleLater show that `final_check` is not
  idempotent without them.
- A record typed `SKIP_TYPE` raises in `final_check` even under
  `_skip_wrong`, because the type test (lines 670-671) comes after the
  `_skip_wrong` branch. The model follows the code, although a
  skipped type reads as one meant to be skipped.

## Findings

| source | as written | input that shows it | evidently intended | confidence | as-written member | corrected member |
|---|---|---|---|---|---|---|
| murinoclub.py:992 | `key.lower() in self.restricted_keys` compares the lowered key with keys as written, and three class keys hold capitals | the key `datePriceIncrease` is in `restricted_keys`, yet it is not refused, and its label `price` calls `set_price_base` | a listed key is refused whatever its case | not executed | Mapper.KeyRestrictedAsWritten, Mapper.CamelCaseKeyNotRefused, CamelCaseKey.CamelCaseKeyResolves | Mapper.KeyRestricted, Mapper.KeyRestrictedListed, Mapper.ResolveIntended, Mapper.ResolveIntendedRefuses |

`Mapper.Resolve` and the class `Mapper.TableMapper` follow the test as
written. `Mapper.ResolveIntended` is the same resolution with the corrected
test, and `Mapper.ResolveAgreesOnLoweredKeys` shows the two differ only when
a listed key holds a capital letter.
