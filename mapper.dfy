/**
 * `TableMapper` (murinoclub.py:890-1050): the field resolver that reads a
 * listing's (key, value) pairs, finds the record setter each key names in
 * a table of labels, and calls it with the cleaned value. Only text keys
 * and values are modelled.
 */
module Mapper {
  import opened Results
  import opened Errors
  import opened Text
  import opened Utils
  import opened Synonyms
  import opened EstateValues
  import FeatureSetters
  import Prices
  import Areas
  import ObjectTypes
  import RoomCounts
  import Availability
  import Places
  import Estates

  /** The record setters a label can name, in the order of `method_by_names`. */
  datatype Setter =
    | InSale | Rooms | Area | PriceBase | Building | Number | NumberOnSite | Section | LivingArea | Ceil
    | Floor | FinishingName | PriceSale | Plan | Level | Balcon | Loggia | Terrace | View

  /** The class attribute `method_by_names` (murinoclub.py:906-940): each setter with its labels. */
  const MethodByNames: seq<Group<Setter>> := [
    Group(InSale, InSaleLabels),
    Group(Rooms, RoomsLabels),
    Group(Area, AreaLabels),
    Group(PriceBase, PriceBaseLabels),
    Group(Building, BuildingLabels),
    Group(Number, NumberLabels),
    Group(NumberOnSite, NumberOnSiteLabels),
    Group(Section, SectionLabels),
    Group(LivingArea, LivingAreaLabels),
    Group(Ceil, CeilLabels),
    Group(Floor, FloorLabels),
    Group(FinishingName, FinishingNameLabels),
    Group(PriceSale, PriceSaleLabels),
    Group(Plan, PlanLabels),
    Group(Level, LevelLabels),
    Group(Balcon, BalconLabels),
    Group(Loggia, LoggiaLabels),
    Group(Terrace, TerraceLabels),
    Group(View, ViewLabels)
  ]

  /** The labels of each row of `method_by_names`, one constant per row. */
  const InSaleLabels: seq<string> := ["статус", "available", "statusFlat", "st", "crm_status", "SalesStatusText", "status", "isAvailable"]
  const RoomsLabels: seq<string> := ["количество комнат", "rooms_count", "roomsQuantity", "кол-во комнат", "тип квартиры", "число комнат", "комнат в квартире", "roomsNumber", "rc", "комнат", "room_count", "rooms", "roomtype", "sumRooms", "crm_rooms", "roomsCount", "NumberOfRooms", "room", "room_type"]
  const AreaLabels: seq<string> := ["общая площадь", "area", "fullFlat", "метраж", "s общ", "totalSquare", "square", "sq", "общая пл.", "общая s", "общая", "площадь", "square_total", "crm_area_value", "totalArea", "area_all", "stotal", "areaTotal"]
  const PriceBaseLabels: seq<string> := ["price", "priceFlat", "tc", "цены", "total_cost", "priceTotal", "цена", "стоимость", "totalcost", "crm_price_value", "Cтоимость"]
  const BuildingLabels: seq<string> := ["housing", "building", "дом", "корпус", "b", "building_number", "house", "corpus_label", "corpus"]
  const NumberLabels: seq<string> := ["№ кв", "№ квартиры", "номер", "number", "nt", "n", "flat_number", "num", "№", "flatnumber", "crm_number", "ApartmentNumber", "flat_num"]
  const NumberOnSiteLabels: seq<string> := ["numberOnFloor", "number_on_floor", "№ на этаже", "flatOnFloor"]
  const SectionLabels: seq<string> := ["section", "секция", "парадная", "s", "section_number", "entrance", "подъезд"]
  const LivingAreaLabels: seq<string> := ["жилая площадь", "площадь комнат", "жилая", "s комнат", "livingSquare", "area-live", "жил. площадь", "area_live", "area_living", "жилая пл.", "square_living", "livingArea", "areaLiving"]
  const CeilLabels: seq<string> := ["высота потолков", "ceilingHeight", "потолки", "высота потолка", "потолок"]
  const FloorLabels: seq<string> := ["этаж", "floor", "f", "floor_number", "crm_floor", "floorNumber"]
  const FinishingNameLabels: seq<string> := ["отделка", "decoration", "renovation", "finish", "has_interior"]
  const PriceSaleLabels: seq<string> := ["цена со скидкой", "discountprice"]
  const PlanLabels: seq<string> := ["imgLink", "flatPlanImageUrl", "план", "img", "plan", "pic", "ImageUrl", "image"]
  const LevelLabels: seq<string> := ["количество уровней", "level"]
  const BalconLabels: seq<string> := ["балкон", "balcony", "площадь балкона", "площадь лоджии", "balconSquare", "crm_balcony_count", "balconiescount"]
  const LoggiaLabels: seq<string> := ["лоджия", "crm_loggia_count", "loggiascount"]
  const TerraceLabels: seq<string> := ["терраса", "площадь террасы"]
  const ViewLabels: seq<string> := ["вид из окон", "окна", "вид", "view", "сторона света", "crm_window_view"]

  /** The class attribute `restricted_keys` as written (murinoclub.py:903-904). */
  const RestrictedKeys: seq<string> :=
    ["цена за 1", "цена за кв.м", "площадь кухни", "datePriceIncrease", "withPriceIncrease", "meterPrice", "цена руб/м 2"]

  // ---------------------------------------------------------------------
  // Cleaning keys and values

  /** The restricted parts of `_clean_key` in exact mode (murinoclub.py:966). */
  const KeyParts: seq<Pattern> := Rxs([",", "м²", "м2", "кв.м.", "кв.м"])

  /** `_clean_key(key, exact_match)` on text (murinoclub.py:962-969). */
  function CleanKey(key: string, exact: bool): string {
    var k := NormalizeStr(key);
    if exact then Cleaned(k, KeyParts) else k
  }

  /** `_clean_value(value)` on text (murinoclub.py:972-979). */
  function CleanValue(value: string): (r: string)
    ensures IsNormal(r)
  {
    NormalizeStrIsNormal(value);
    Cleaned(NormalizeStr(value), [])
  }

  /** Cleaning a value is `_normalize_str` alone: its result is stripped already, so the empty removal changes nothing. */
  lemma {:induction false} CleanValueIsNormalized(value: string)
    ensures CleanValue(value) == NormalizeStr(value)
  {
    NormalizeStrIsNormal(value);
    var n := NormalizeStr(value);
    assert Cleaned(n, []) == Strip(n);
  }

  // ---------------------------------------------------------------------
  // _map_key_to_method

  /** A label matches a key: equal to it, or contained in it, ignoring case. */
  predicate LabelMatches(key: string, name: string, exact: bool) {
    if exact then Lower(key) == Lower(name) else Contains(Lower(key), Lower(name))
  }

  function KeyMatcher(key: string, exact: bool): string -> bool {
    n => LabelMatches(key, n, exact)
  }

  /**
   * `_map_key_to_method(key, exact_match)` (murinoclub.py:1035-1042): the
   * setter of the first label in the table that matches the key.
   */
  function MapKeyTarget(pairs: seq<Entry<Setter>>, key: string, exact: bool): (r: Option<Setter>)
    ensures r.None? <==> forall j :: 0 <= j < |pairs| ==> !LabelMatches(key, pairs[j].name, exact)
    ensures r.Some? ==> exists j :: 0 <= j < |pairs| && pairs[j].target == r.value && LabelMatches(key, pairs[j].name, exact)
  {
    var m := KeyMatcher(key, exact);
    var r := Lookup(pairs, m);
    assert forall j :: 0 <= j < |pairs| ==> (m(pairs[j].name) <==> LabelMatches(key, pairs[j].name, exact));
    assert r.Some? ==> FirstMatchFrom(pairs, m, 0).Some? && pairs[FirstMatchFrom(pairs, m, 0).value].target == r.value;
    r
  }

  /** Entry `j` matches the key, and no matching label is longer than its label. */
  predicate LongestMatching(pairs: seq<Entry<Setter>>, key: string, exact: bool, j: nat)
    requires j < |pairs|
  {
    LabelMatches(key, pairs[j].name, exact)
    && forall i :: 0 <= i < |pairs| && LabelMatches(key, pairs[i].name, exact) ==> |pairs[i].name| <= |pairs[j].name|
  }

  /**
   * On the sorted table the setter found is that of a matching label no
   * matching label is longer than: the longest label wins, in both modes.
   */
  lemma {:induction false} MapKeyTargetLongest(pairs: seq<Entry<Setter>>, key: string, exact: bool)
    requires SortedByLength(pairs)
    ensures var r := MapKeyTarget(pairs, key, exact);
      r.Some? ==> exists j :: 0 <= j < |pairs| && pairs[j].target == r.value && LongestMatching(pairs, key, exact, j)
  {
    var m := KeyMatcher(key, exact);
    assert forall j :: 0 <= j < |pairs| ==> (m(pairs[j].name) <==> LabelMatches(key, pairs[j].name, exact));
    if FirstMatchFrom(pairs, m, 0).Some? {
      var k := FirstMatchFrom(pairs, m, 0).value;
      LongestMatch(pairs, m);
      assert pairs[k].target == MapKeyTarget(pairs, key, exact).value;
    }
  }

  /** Among the longest matching labels, the one listed first in the table as written wins. */
  lemma {:induction false} MapKeyTargetTieBreak(groups: seq<Group<Setter>>, key: string, exact: bool)
    requires MapKeyTarget(SortByLength(Flatten(groups)), key, exact).Some?
    ensures var s := SortByLength(Flatten(groups));
      var m := KeyMatcher(key, exact);
      MapKeyTarget(s, key, exact) == Lookup(WithLength(Flatten(groups), |s[FirstMatchFrom(s, m, 0).value].name|), m)
  {
    var s := SortByLength(Flatten(groups));
    var m := KeyMatcher(key, exact);
    assert FirstMatchFrom(s, m, 0).Some?;
    LookupSortedTieBreak(Flatten(groups), m);
  }

  /** A text contains itself. */
  lemma {:induction false} ContainsSelf(s: string)
    ensures Contains(s, s)
  {
    assert OccursAt(s, s, 0);
  }

  /** A key an exact label matches finds a setter in substring mode too. */
  lemma {:induction false} ExactFindsSubstring(pairs: seq<Entry<Setter>>, key: string)
    ensures MapKeyTarget(pairs, key, true).Some? ==> MapKeyTarget(pairs, key, false).Some?
  {
    if MapKeyTarget(pairs, key, true).Some? {
      var j :| 0 <= j < |pairs| && LabelMatches(key, pairs[j].name, true);
      ContainsSelf(Lower(key));
      assert LabelMatches(key, pairs[j].name, false);
    }
  }

  // ---------------------------------------------------------------------
  // The key denylist

  /** `key.lower() in self.restricted_keys` as written (murinoclub.py:992). */
  predicate KeyRestrictedAsWritten(key: string, keys: seq<string>) {
    Lower(key) in keys
  }

  /**
   * Three of the class's restricted keys hold capitals, and a lowered key
   * never equals them: `datePriceIncrease` is listed but not refused, and
   * the label `price` it contains then names `set_price_base`.
   */
  lemma {:induction false} CamelCaseKeyNotRefused()
    ensures "datePriceIncrease" in RestrictedKeys
    ensures !KeyRestrictedAsWritten("datePriceIncrease", RestrictedKeys)
    ensures LabelMatches("datePriceIncrease", "price", false)
  {
    LoweredCamelCaseNotListed(RestrictedKeys[3], RestrictedKeys);
    PriceInKey(RestrictedKeys[3]);
  }

  /** No restricted key of the class equals `datePriceIncrease` lowered. */
  lemma {:induction false} LoweredCamelCaseNotListed(k: string, keys: seq<string>)
    requires keys == RestrictedKeys && k == keys[3]
    ensures Lower(k) !in keys
  {
    assert |Lower(k)| == 17 && !IsUpper(Lower(k)[4]);
    KeysOfLength17(keys);
    NotListedByShape(Lower(k), keys, 4);
  }

  /** The class's restricted keys of length 17 have a capital at index 4. */
  lemma {:induction false} KeysOfLength17(keys: seq<string>)
    requires keys == RestrictedKeys
    ensures forall i :: 0 <= i < |keys| ==> |keys[i]| != 17 || IsUpper(keys[i][4])
  {
  }

  /** A text equals no key of its length whose character `j` differs from its own in being a capital. */
  lemma {:induction false} NotListedByShape(l: string, keys: seq<string>, j: nat)
    requires j < |l| && !IsUpper(l[j])
    requires forall i :: 0 <= i < |keys| ==> |keys[i]| != |l| || IsUpper(keys[i][j])
    ensures l !in keys
  {
  }

  /** A text with a capital letter is no text lowered. */
  lemma {:induction false} CapitalNeverLowered(key: string, w: string, j: nat)
    requires j < |w| && IsUpper(w[j])
    ensures Lower(key) != w
  {
    if |Lower(key)| == |w| {
      assert !IsUpper(Lower(key)[j]);
    }
  }

  /** The label `price` names `set_price_base` for the key `datePriceIncrease`. */
  lemma {:induction false} PriceInKey(k: string)
    requires k == "datePriceIncrease"
    ensures LabelMatches(k, "price", false)
  {
    var l := Lower(k);
    var p := "price";
    assert Lower(p) == p;
    forall i | 0 <= i < 5
      ensures l[4 + i] == p[i]
    {
      assert l[4 + i] == LowerChar(k[4 + i]);
    }
    assert l[4..9] == p;
    assert OccursAt(l, p, 4);
  }

  /** The denylist test as intended: the key equals a restricted key, ignoring case on both sides. */
  predicate KeyRestricted(key: string, keys: seq<string>) {
    exists i :: 0 <= i < |keys| && Lower(keys[i]) == Lower(key)
  }

  /** Every listed key is refused, whatever its case; on a list of lowered keys the test is the one written. */
  lemma {:induction false} KeyRestrictedListed(key: string, keys: seq<string>)
    ensures key in keys ==> KeyRestricted(key, keys)
    ensures (forall i :: 0 <= i < |keys| ==> Lower(keys[i]) == keys[i]) ==> (KeyRestricted(key, keys) <==> KeyRestrictedAsWritten(key, keys))
  {
    if key in keys {
      var i :| 0 <= i < |keys| && keys[i] == key;
      assert Lower(keys[i]) == Lower(key);
    }
  }

  // ---------------------------------------------------------------------
  // map_by_one

  /** The allow list and the deny list of setters; an empty list does not restrict. */
  predicate Permitted(m: Setter, allowed: seq<Setter>, restricted: seq<Setter>) {
    (allowed == [] || m in allowed) && (restricted == [] || m !in restricted)
  }

  /** What a mapper holds: the sorted labels, the shared restricted keys and its restricted setters. */
  datatype Tables = Tables(pairs: seq<Entry<Setter>>, keys: seq<string>, restricted: seq<Setter>)

  /**
   * The setter `map_by_one` (murinoclub.py:986-1006) calls and the value it
   * passes, or `None` when it calls nothing. The key is refused by the test
   * as written, `key.lower() in self.restricted_keys`.
   */
  function Resolve(t: Tables, key: string, value: string, exact: bool, allowed: seq<Setter>): Option<(Setter, string)> {
    if key == "" then None
    else
      var k := CleanKey(key, exact);
      ResolveCleaned(t, k, CleanValue(value), exact, allowed, t.keys != [] && KeyRestrictedAsWritten(k, t.keys))
  }

  /** `map_by_one` with the denylist test as intended: a listed key is refused whatever its case. */
  function ResolveIntended(t: Tables, key: string, value: string, exact: bool, allowed: seq<Setter>): Option<(Setter, string)> {
    if key == "" then None
    else
      var k := CleanKey(key, exact);
      ResolveCleaned(t, k, CleanValue(value), exact, allowed, t.keys != [] && KeyRestricted(k, t.keys))
  }

  /** The tests of `map_by_one` on the cleaned key `k` and the cleaned value `v`, `refused` being the denylist's verdict on `k`. */
  function ResolveCleaned(t: Tables, k: string, v: string, exact: bool, allowed: seq<Setter>, refused: bool): Option<(Setter, string)> {
    if refused then None
    else if v == "" then None
    else match MapKeyTarget(t.pairs, k, exact)
      case None => None
      case Some(m) => if Permitted(m, allowed, t.restricted) then Some((m, v)) else None
  }

  /**
   * `map_by_one` calls nothing for an empty key, a key whose lowered form is
   * listed, an empty cleaned value, a key no label matches, or a setter the
   * lists forbid; otherwise it calls the setter of the longest matching
   * label with the cleaned value.
   */
  lemma {:induction false} ResolveCalls(t: Tables, key: string, value: string, exact: bool, allowed: seq<Setter>)
    ensures var r := Resolve(t, key, value, exact, allowed);
      var k := CleanKey(key, exact);
      var found := MapKeyTarget(t.pairs, k, exact);
      && (r.Some? <==>
            key != "" && Lower(k) !in t.keys && CleanValue(value) != ""
            && found.Some? && Permitted(found.value, allowed, t.restricted))
      && (r.Some? ==> r.value == (found.value, CleanValue(value)))
  {
    if key != "" {
      var k := CleanKey(key, exact);
      ResolveCleanedCalls(t, k, CleanValue(value), exact, allowed, t.keys != [] && KeyRestrictedAsWritten(k, t.keys));
    }
  }

  /** `ResolveCalls` once the key and the value are cleaned. */
  lemma {:induction false} ResolveCleanedCalls(t: Tables, k: string, v: string, exact: bool, allowed: seq<Setter>, refused: bool)
    ensures var r := ResolveCleaned(t, k, v, exact, allowed, refused);
      var found := MapKeyTarget(t.pairs, k, exact);
      && (r.Some? <==> !refused && v != "" && found.Some? && Permitted(found.value, allowed, t.restricted))
      && (r.Some? ==> r.value == (found.value, v))
  {
  }

  /** As intended, a key that equals a listed key, ignoring case, calls nothing. */
  lemma {:induction false} ResolveIntendedRefuses(t: Tables, key: string, value: string, exact: bool, allowed: seq<Setter>, i: nat)
    requires i < |t.keys| && Lower(t.keys[i]) == Lower(CleanKey(key, exact))
    ensures ResolveIntended(t, key, value, exact, allowed) == None
  {
  }

  /** On a list of lowered keys the two denylist tests agree, so `map_by_one` as written is `map_by_one` as intended. */
  lemma {:induction false} ResolveAgreesOnLoweredKeys(t: Tables, key: string, value: string, exact: bool, allowed: seq<Setter>)
    requires forall i :: 0 <= i < |t.keys| ==> Lower(t.keys[i]) == t.keys[i]
    ensures Resolve(t, key, value, exact, allowed) == ResolveIntended(t, key, value, exact, allowed)
  {
    if key != "" {
      KeyRestrictedListed(CleanKey(key, exact), t.keys);
    }
  }

  /** A setter on the deny list, or off a non-empty allow list, is never called. */
  lemma {:induction false} ForbiddenNeverCalled(t: Tables, key: string, value: string, exact: bool, allowed: seq<Setter>, m: Setter)
    requires m in t.restricted || (allowed != [] && m !in allowed)
    ensures Resolve(t, key, value, exact, allowed) != Some((m, CleanValue(value)))
  {
  }

  /** The call `obj.__getattribute__(map_method)(value_text)`, each setter with its default arguments. */
  function Apply(cfg: Config, names: seq<Entry<ObjType>>, e: Estate, m: Setter, v: string): Step {
    if IsStatusSetter(m) then ApplyStatus(cfg, e, m, v)
    else if IsMeasureSetter(m) then ApplyMeasure(cfg, names, e, m, v)
    else if IsPriceSetter(m) then ApplyPrice(cfg, e, m, v)
    else if IsPlaceSetter(m) then ApplyPlace(cfg, names, e, m, v)
    else ApplyFeature(e, m, v)
  }

  predicate IsStatusSetter(m: Setter) { m.InSale? || m.FinishingName? }
  predicate IsMeasureSetter(m: Setter) { m.Rooms? || m.Area? || m.LivingArea? || m.Ceil? }
  predicate IsPriceSetter(m: Setter) { m.PriceBase? || m.PriceSale? }
  predicate IsPlaceSetter(m: Setter) { m.Building? || m.Number? || m.NumberOnSite? || m.Section? || m.Floor? || m.Plan? }

  /** `set_in_sale` and `set_finishing_name`. */
  function ApplyStatus(cfg: Config, e: Estate, m: Setter, v: string): Step
    requires IsStatusSetter(m)
  {
    if m.InSale? then Availability.SetInSale(cfg, e, Str(v))
    else Step(Availability.SetFinishingName(e, v), Pass)
  }

  /** `set_rooms`, `set_area`, `set_living_area` and `set_ceil`. */
  function ApplyMeasure(cfg: Config, names: seq<Entry<ObjType>>, e: Estate, m: Setter, v: string): Step
    requires IsMeasureSetter(m)
  {
    if m.Rooms? then RoomCounts.SetRooms(cfg, e, names, Str(v), true, true)
    else if m.Area? then Areas.SetArea(e, Str(v))
    else if m.LivingArea? then Areas.SetLivingArea(e, Str(v))
    else Areas.SetCeil(e, v)
  }

  /** `set_price_base` and `set_price_sale`. */
  function ApplyPrice(cfg: Config, e: Estate, m: Setter, v: string): Step
    requires IsPriceSetter(m)
  {
    if m.PriceBase? then Prices.SetPriceBase(cfg, e, Str(v), Nil, 1)
    else Prices.SetPrice(cfg, e, Prices.SaleSlot, Str(v), 1)
  }

  /** `set_building`, `set_number`, `set_number_on_site`, `set_section`, `set_floor` and `set_plan`. */
  function ApplyPlace(cfg: Config, names: seq<Entry<ObjType>>, e: Estate, m: Setter, v: string): Step
    requires IsPlaceSetter(m)
  {
    if m.Building? then Step(ObjectTypes.SetBuilding(e, v), Pass)
    else if m.Number? then ObjectTypes.SetNumber(cfg, e, names, v)
    else if m.NumberOnSite? then Step(ObjectTypes.SetNumberOnSite(e, v), Pass)
    else if m.Section? then Step(ObjectTypes.SetSection(e, v), Pass)
    else if m.Floor? then Places.SetFloor(cfg, e, Str(v))
    else Step(Places.SetPlan(e, v), Pass)
  }

  /** `set_level`, `set_balcon`, `set_loggia`, `set_terrace` and `set_view`: none of them raises. */
  function ApplyFeature(e: Estate, m: Setter, v: string): Step {
    if m.Level? then Step(FeatureSetters.SetLevel(e, Str(v)), Pass)
    else if m.Balcon? then Step(FeatureSetters.SetBalcon(e, Str(v), FeatureSetters.Balcony), Pass)
    else if m.Loggia? then Step(FeatureSetters.SetLoggia(e, Str(v)), Pass)
    else if m.Terrace? then Step(FeatureSetters.SetTerrace(e, Str(v)), Pass)
    else Step(FeatureSetters.SetView(e, v), Pass)
  }

  /** One pair mapped: the resolved setter applied, or nothing. */
  function MapOne(cfg: Config, names: seq<Entry<ObjType>>, e: Estate, t: Tables, key: string, value: string, exact: bool, allowed: seq<Setter>): Step {
    match Resolve(t, key, value, exact, allowed)
    case None => Step(e, Pass)
    case Some((m, v)) => Apply(cfg, names, e, m, v)
  }

  // ---------------------------------------------------------------------
  // map_by_dict and map

  /** The pairs mapped in turn; the first setter that raises ends the run. */
  function MapItems(cfg: Config, names: seq<Entry<ObjType>>, e: Estate, t: Tables, items: seq<(string, string)>, exact: bool, allowed: seq<Setter>): Step
    decreases |items|
  {
    if items == [] then Step(e, Pass)
    else
      var s := MapOne(cfg, names, e, t, items[0].0, items[0].1, exact, allowed);
      if s.out.Fail? then s else MapItems(cfg, names, s.e, t, items[1..], exact, allowed)
  }

  /** Mapping two runs of pairs is mapping the first, then, unless it raised, the second. */
  lemma {:induction false} MapItemsConcat(cfg: Config, names: seq<Entry<ObjType>>, e: Estate, t: Tables, a: seq<(string, string)>, b: seq<(string, string)>, exact: bool, allowed: seq<Setter>)
    ensures MapItems(cfg, names, e, t, a + b, exact, allowed) ==
      var s := MapItems(cfg, names, e, t, a, exact, allowed);
      if s.out.Fail? then s else MapItems(cfg, names, s.e, t, b, exact, allowed)
    decreases |a|
  {
    if a == [] {
      assert a + b == b;
    } else {
      assert (a + b)[0] == a[0];
      assert (a + b)[1..] == a[1..] + b;
      var s := MapOne(cfg, names, e, t, a[0].0, a[0].1, exact, allowed);
      if s.out.Pass? {
        MapItemsConcat(cfg, names, s.e, t, a[1..], b, exact, allowed);
      }
    }
  }

  /** Pairs none of which resolves to a setter leave the record as it was. */
  lemma {:induction false} MapItemsNothing(cfg: Config, names: seq<Entry<ObjType>>, e: Estate, t: Tables, items: seq<(string, string)>, exact: bool, allowed: seq<Setter>)
    requires forall i :: 0 <= i < |items| ==> Resolve(t, items[i].0, items[i].1, exact, allowed).None?
    ensures MapItems(cfg, names, e, t, items, exact, allowed) == Step(e, Pass)
    decreases |items|
  {
    if items != [] {
      assert forall i :: 0 <= i < |items[1..]| ==> items[1..][i] == items[i + 1];
      MapItemsNothing(cfg, names, e, t, items[1..], exact, allowed);
    }
  }

  /** `zip(keys, values)` of lists of one length. */
  function Zip(keys: seq<string>, values: seq<string>): (r: seq<(string, string)>)
    requires |keys| == |values|
    ensures |r| == |keys|
    ensures forall i :: 0 <= i < |r| ==> r[i] == (keys[i], values[i])
  {
    seq(|keys|, i requires 0 <= i < |keys| => (keys[i], values[i]))
  }

  /** `map(obj, keys, values)` (murinoclub.py:1029-1033): lists of different lengths raise before anything is mapped. */
  function MapLists(cfg: Config, names: seq<Entry<ObjType>>, e: Estate, t: Tables, keys: seq<string>, values: seq<string>, exact: bool, allowed: seq<Setter>): (r: Step)
    ensures |keys| != |values| ==> r == Step(e, Fail(LengthMismatch))
  {
    if |keys| != |values| then Step(e, Fail(LengthMismatch))
    else MapItems(cfg, names, e, t, Zip(keys, values), exact, allowed)
  }

  // ---------------------------------------------------------------------
  // The objects

  /** The class-level `restricted_keys` list, one object that every mapper shares and extends. */
  class SharedKeys {
    var keys: seq<string>

    constructor()
      ensures keys == RestrictedKeys
    {
      keys := RestrictedKeys;
    }

    /** `restricted_keys.extend(more)`. */
    method Extend(more: seq<string>)
      modifies this
      ensures keys == old(keys) + more
    {
      keys := keys + more;
    }
  }

  class TableMapper {
    /** `self.method_by_names` after `_restructure_map`: every label with its setter, longest label first. */
    const pairs: seq<Entry<Setter>>
    /** The class attribute `restricted_keys`, shared with every other mapper. */
    const shared: SharedKeys
    /** `self.restricted_methods`. */
    var restrictedMethods: seq<Setter>

    /** `_restructure_map()` (murinoclub.py:952-959). */
    static method RestructureMap(groups: seq<Group<Setter>>) returns (ps: seq<Entry<Setter>>)
      ensures ps == SortByLength(Flatten(groups))
      ensures SortedByLength(ps)
    {
      var flat := FlattenTable(groups);
      ps := SortByLength(flat);
      SortByLengthSorted(flat);
    }

    /**
     * `__init__(restricted_methods, restricted_keys)` (murinoclub.py:942-950),
     * given the class's table of labels and its shared list of keys: the
     * extra keys extend the list every mapper sees.
     */
    constructor(groups: seq<Group<Setter>>, shared: SharedKeys, restrictedMethods: seq<Setter>, restrictedKeys: seq<string>)
      modifies shared
      ensures pairs == SortByLength(Flatten(groups)) && SortedByLength(pairs)
      ensures this.shared == shared && this.restrictedMethods == restrictedMethods
      ensures shared.keys == old(shared.keys) + restrictedKeys
    {
      var table := TableMapper.RestructureMap(groups);
      pairs := table;
      this.shared := shared;
      this.restrictedMethods := restrictedMethods;
      new;
      if restrictedKeys != [] {
        shared.Extend(restrictedKeys);
      } else {
        assert shared.keys + restrictedKeys == shared.keys;
      }
    }

    /** What the mapper holds now. */
    function State(): Tables
      reads this, shared
    {
      Tables(pairs, shared.keys, restrictedMethods)
    }

    /** `_map_key_to_method(key, exact_match)` (murinoclub.py:1035-1042). */
    method MapKeyToMethod(key: string, exact: bool) returns (r: Option<Setter>)
      ensures r == MapKeyTarget(pairs, key, exact)
    {
      ghost var m := KeyMatcher(key, exact);
      var i := 0;
      while i < |pairs|
        invariant i <= |pairs|
        invariant FirstMatchFrom(pairs, m, i) == FirstMatchFrom(pairs, m, 0)
      {
        var found := if exact then Lower(key) == Lower(pairs[i].name) else Contains(Lower(key), Lower(pairs[i].name));
        assert found == m(pairs[i].name);
        if found {
          return Some(pairs[i].target);
        }
        i := i + 1;
      }
      return None;
    }

    /** `map_by_one(obj, key, value, exact_match, allowed_methods, restricted_methods)` (murinoclub.py:986-1006). */
    method MapByOne(obj: Estates.EstateObject, key: string, value: string, exact: bool, allowed: seq<Setter>, restricted: seq<Setter>)
      returns (out: Outcome<Error>)
      modifies this, obj
      ensures restrictedMethods == old(restrictedMethods) + restricted
      ensures var s := MapOne(obj.cfg, obj.typeNames, old(obj.attrs), State(), key, value, exact, allowed);
        obj.attrs == s.e && out == s.out
    {
      if restricted != [] {
        restrictedMethods := restrictedMethods + restricted;
      } else {
        assert restrictedMethods + restricted == restrictedMethods;
      }
      out := MapPair(obj, key, value, exact, allowed);
    }

    /** `map_by_one` once the restricted setters are extended: resolve the key, then call its setter. */
    method MapPair(obj: Estates.EstateObject, key: string, value: string, exact: bool, allowed: seq<Setter>)
      returns (out: Outcome<Error>)
      modifies obj
      ensures var s := MapOne(obj.cfg, obj.typeNames, old(obj.attrs), State(), key, value, exact, allowed);
        obj.attrs == s.e && out == s.out
    {
      var call := ResolvePair(key, value, exact, allowed);
      if call.None? {
        return Pass;
      }
      out := Dispatch(obj, call.value.0, call.value.1);
    }

    /** The tests of `map_by_one`, in the source's order: the setter to call and the cleaned value, if any. */
    method ResolvePair(key: string, value: string, exact: bool, allowed: seq<Setter>) returns (call: Option<(Setter, string)>)
      ensures call == Resolve(State(), key, value, exact, allowed)
    {
      if key == "" {
        return None;
      }
      var k := CleanKey(key, exact);
      if shared.keys != [] && Lower(k) in shared.keys {
        return None;
      }
      var valueText := CleanValue(value);
      if valueText == "" {
        return None;
      }
      var m := MapKeyToMethod(k, exact);
      if m.None? {
        return None;
      }
      if Permitted(m.value, allowed, restrictedMethods) {
        return Some((m.value, valueText));
      }
      return None;
    }

    /** `obj.__getattribute__(map_method)(value_text)`. */
    static method Dispatch(obj: Estates.EstateObject, m: Setter, v: string) returns (out: Outcome<Error>)
      modifies obj
      ensures obj.attrs == Apply(obj.cfg, obj.typeNames, old(obj.attrs), m, v).e
      ensures out == Apply(obj.cfg, obj.typeNames, old(obj.attrs), m, v).out
    {
      if IsStatusSetter(m) {
        out := DispatchStatus(obj, m, v);
      } else if IsMeasureSetter(m) {
        out := DispatchMeasure(obj, m, v);
      } else if IsPriceSetter(m) {
        out := DispatchPrice(obj, m, v);
      } else if IsPlaceSetter(m) {
        out := DispatchPlace(obj, m, v);
      } else {
        DispatchFeature(obj, m, v);
        out := Pass;
      }
    }

    static method DispatchStatus(obj: Estates.EstateObject, m: Setter, v: string) returns (out: Outcome<Error>)
      requires IsStatusSetter(m)
      modifies obj
      ensures obj.attrs == ApplyStatus(obj.cfg, old(obj.attrs), m, v).e
      ensures out == ApplyStatus(obj.cfg, old(obj.attrs), m, v).out
    {
      if m.InSale? {
        out := obj.SetInSale(Str(v));
      } else {
        obj.SetFinishingName(v);
        out := Pass;
      }
    }

    static method DispatchMeasure(obj: Estates.EstateObject, m: Setter, v: string) returns (out: Outcome<Error>)
      requires IsMeasureSetter(m)
      modifies obj
      ensures obj.attrs == ApplyMeasure(obj.cfg, obj.typeNames, old(obj.attrs), m, v).e
      ensures out == ApplyMeasure(obj.cfg, obj.typeNames, old(obj.attrs), m, v).out
    {
      if m.Rooms? {
        out := obj.SetRooms(Str(v), true, true);
      } else if m.Area? {
        out := obj.SetArea(Str(v));
      } else if m.LivingArea? {
        out := obj.SetLivingArea(Str(v));
      } else {
        out := obj.SetCeil(v);
      }
    }

    static method DispatchPrice(obj: Estates.EstateObject, m: Setter, v: string) returns (out: Outcome<Error>)
      requires IsPriceSetter(m)
      modifies obj
      ensures obj.attrs == ApplyPrice(obj.cfg, old(obj.attrs), m, v).e
      ensures out == ApplyPrice(obj.cfg, old(obj.attrs), m, v).out
    {
      if m.PriceBase? {
        out := obj.SetPriceBase(Str(v), Nil, 1);
      } else {
        out := obj.SetPriceSale(Str(v), 1);
      }
    }

    static method DispatchPlace(obj: Estates.EstateObject, m: Setter, v: string) returns (out: Outcome<Error>)
      requires IsPlaceSetter(m)
      modifies obj
      ensures obj.attrs == ApplyPlace(obj.cfg, obj.typeNames, old(obj.attrs), m, v).e
      ensures out == ApplyPlace(obj.cfg, obj.typeNames, old(obj.attrs), m, v).out
    {
      out := Pass;
      if m.Building? {
        obj.SetBuilding(v);
      } else if m.Number? {
        out := obj.SetNumber(v);
      } else if m.NumberOnSite? {
        obj.SetNumberOnSite(v);
      } else if m.Section? {
        obj.SetSection(v);
      } else if m.Floor? {
        out := obj.SetFloor(Str(v));
      } else {
        obj.SetPlan(v);
      }
    }

    static method DispatchFeature(obj: Estates.EstateObject, m: Setter, v: string)
      modifies obj
      ensures obj.attrs == ApplyFeature(old(obj.attrs), m, v).e
    {
      if m.Level? {
        obj.SetLevel(Str(v));
      } else if m.Balcon? {
        obj.SetBalcon(Str(v), FeatureSetters.Balcony);
      } else if m.Loggia? {
        obj.SetLoggia(Str(v));
      } else if m.Terrace? {
        obj.SetTerrace(Str(v));
      } else {
        obj.SetView(v);
      }
    }

    /** `map_by_dict(obj, dict_, exact_match, allowed_methods)` (murinoclub.py:981-984), the dict as its items in order. */
    method MapByDict(obj: Estates.EstateObject, items: seq<(string, string)>, exact: bool, allowed: seq<Setter>)
      returns (out: Outcome<Error>)
      modifies obj
      ensures var s := MapItems(obj.cfg, obj.typeNames, old(obj.attrs), State(), items, exact, allowed);
        obj.attrs == s.e && out == s.out
    {
      var i := 0;
      while i < |items|
        invariant i <= |items|
        invariant MapItems(obj.cfg, obj.typeNames, obj.attrs, State(), items[i..], exact, allowed)
          == MapItems(obj.cfg, obj.typeNames, old(obj.attrs), State(), items, exact, allowed)
      {
        assert items[i..][1..] == items[i + 1..];
        out := MapPair(obj, items[i].0, items[i].1, exact, allowed);
        if out.Fail? {
          return;
        }
        i := i + 1;
      }
      return Pass;
    }

    /** `map(obj, keys, values, exact_match, allowed_methods)` (murinoclub.py:1029-1033). */
    method Map(obj: Estates.EstateObject, keys: seq<string>, values: seq<string>, exact: bool, allowed: seq<Setter>)
      returns (out: Outcome<Error>)
      modifies obj
      ensures var s := MapLists(obj.cfg, obj.typeNames, old(obj.attrs), State(), keys, values, exact, allowed);
        obj.attrs == s.e && out == s.out
    {
      if |keys| != |values| {
        return Fail(LengthMismatch);
      }
      out := MapByDict(obj, Zip(keys, values), exact, allowed);
    }
  }
}
