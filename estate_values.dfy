/**
 * The canonical record `EstateObject` as a value: its field types, its
 * configuration (the toggles `__init__` sets and `**kwargs` may override),
 * its defaults and the synonym table of object types.
 */
module EstateValues {
  import opened Results
  import opened Errors
  import opened Text
  import opened Synonyms

  // ---------------------------------------------------------------------
  // Dynamic values

  /**
   * A value a setter receives where the source branches on `isinstance`:
   * text, an integer, or `None`.
   */
  datatype Val = Str(s: string) | Int(i: int) | Nil

  /** Python truthiness of a value. */
  predicate Truthy(v: Val) {
    match v
    case Str(s) => s != ""
    case Int(i) => i != 0
    case Nil => false
  }

  /** A price field is truthy: set and non-zero. */
  predicate PriceSet(p: Option<int>) {
    p.Some? && p.value != 0
  }

  /** An area field is truthy: set and non-zero. */
  predicate AreaSet(a: Option<real>) {
    a.Some? && a.value != 0.0
  }

  /** A text field is truthy: set and non-empty. */
  predicate TextSet(t: Option<string>) {
    t.Some? && t.value != ""
  }

  /** Some word of `ws` occurs in `s`: the `'a' in v or 'b' in v or ...` chains. */
  predicate ContainsAny(s: string, ws: seq<string>) {
    exists i :: 0 <= i < |ws| && Contains(s, ws[i])
  }

  /** `empty_values` (murinoclub.py:29): texts that stand for "no value". */
  const EmptyValues: seq<string> := ["null", "-", "0", "\U{2013}", "no", "\U{2014}"]

  // ---------------------------------------------------------------------
  // Object types

  /** The object types: the six of `possible_types` and the marker `SKIP_TYPE`. */
  datatype ObjType = Flat | Apartment | Parking | Commercial | Storeroom | Townhouse | SkipType

  /** The name under which the source stores a type. */
  function TypeName(t: ObjType): string {
    match t
    case Flat => "flat"
    case Apartment => "apartment"
    case Parking => "parking"
    case Commercial => "commercial"
    case Storeroom => "storeroom"
    case Townhouse => "townhouse"
    case SkipType => "SKIP_TYPE"
  }

  /** `possible_types` (murinoclub.py:26-27). */
  const PossibleTypes: seq<ObjType> := [Flat, Apartment, Parking, Commercial, Storeroom, Townhouse]

  /** The type `value in possible_types` names, if it names one. */
  function TypeOfName(value: string): (r: Option<ObjType>)
    ensures r.Some? ==> r.value in PossibleTypes && TypeName(r.value) == value
  {
    if value == "flat" then Some(Flat)
    else if value == "apartment" then Some(Apartment)
    else if value == "parking" then Some(Parking)
    else if value == "commercial" then Some(Commercial)
    else if value == "storeroom" then Some(Storeroom)
    else if value == "townhouse" then Some(Townhouse)
    else None
  }

  /** A canonical type is found again from its own name, and the skip marker is found from none. */
  lemma {:induction false} TypeOfNameOfTypeName(t: ObjType)
    ensures TypeOfName(TypeName(t)) == if t in PossibleTypes then Some(t) else None
  {
    match t
    case Flat =>
    case Apartment =>
    case Parking =>
    case Commercial =>
    case Storeroom =>
    case Townhouse =>
    case SkipType =>
      assert TypeName(t) == "SKIP_TYPE";
  }

  /** `type_by_names` (murinoclub.py:31-41), in the dictionary's order. */
  const TypeByNames: seq<Group<ObjType>> := [
    Group(Commercial, ["нежилое помещение", "нежилое", "помещение", "ритейл", "псн", "коммерческое", "офис", "бизнес", "street retail"]),
    Group(Flat, ["жилое помещение", "квартира", "пентхаус", "лофт", "студия"]),
    Group(Apartment, ["апартамент", "апаратамен", "сьют", "аппартамент"]),
    Group(Storeroom, ["кладов", "келлер", "storage", "хоз. блок"]),
    Group(Parking, ["машиноместо", "гараж", "место для мотоцикла", "парк"]),
    Group(Townhouse, ["таунхаус", "дуплекс"]),
    Group(SkipType, ["инвестиционные проекты", "вилла", "участок", "шале", "дом", "особняк", "торговый центр", "арендный бизнес", "сapital markets", "гостиница"])
  ]

  /** The table `_resort_obj_types` builds (murinoclub.py:107-113): flattened, longest synonym first. */
  function TypeTable(groups: seq<Group<ObjType>>): seq<Entry<ObjType>> {
    SortByLength(Flatten(groups))
  }

  // ---------------------------------------------------------------------
  // Field values

  /** `rooms`: unset, a count, or the marker `'studio'`. */
  datatype Rooms = NoRooms | Count(n: int) | Studio

  /** `feature`: unset, a single text, or a list of texts once a second one arrives. */
  datatype Features = NoFeature | OneFeature(text: string) | FeatureList(items: seq<string>)

  /** Python truthiness of `feature`. */
  predicate FeatureSet(f: Features) {
    match f
    case NoFeature => false
    case OneFeature(t) => t != ""
    case FeatureList(items) => items != []
  }

  /**
   * `plan`: a link that already holds `http`, or one the source joins to the
   * site's domain with `urljoin` (the join itself is not modelled).
   */
  datatype PlanRef = Url(url: string) | OnSite(path: string)

  /**
   * The underscored attributes `__init__` sets (murinoclub.py:51-67) and
   * `**kwargs` may override; no modelled operation changes them.
   * `projectPriceMulti` is `0` where the source holds `None`.
   */
  datatype Config = Config(
    ignoreSmallPrices: bool,
    validatePrice: bool,
    minimalAllowedPrice: int,
    inSaleStatuses: seq<Val>,
    notInSaleStatuses: seq<Val>,
    reservedStatuses: seq<Val>,
    correctTypeDynamic: bool,
    swapWrongPrices: bool,
    ignoreEmptyRooms: bool,
    splitFloors: bool,
    projectPriceMulti: int,
    skipWrong: bool,
    autoCorrectPrice: bool,
    validateData: bool)

  /** The configuration `__init__` sets before applying `**kwargs`. */
  function DefaultConfig(): (c: Config)
    ensures c.minimalAllowedPrice == 500000 && c.validatePrice && c.validateData
  {
    Config(false, true, 500000, [], [], [], false, false, false, false, 0, false, false, true)
  }

  /**
   * The fields of the record that the modelled setters write or that
   * `final_check` reads, and the two helper attributes that change
   * (`_need_save`, `_used_rooms_for_search_liv_area`) and `_floors`.
   */
  datatype Estate = Estate(
    objType: ObjType,
    building: Option<string>,
    section: Option<string>,
    number: Option<string>,
    numberOnSite: Option<string>,
    priceBase: Option<int>,
    priceSale: Option<int>,
    priceFinished: Option<int>,
    priceFinishedSale: Option<int>,
    furniturePrice: Option<int>,
    currency: Option<string>,
    area: Option<real>,
    livingArea: Option<real>,
    ceil: Option<real>,
    rooms: Rooms,
    floor: Option<int>,
    floors: Option<seq<int>>,
    inSale: Option<int>,
    saleStatus: Option<string>,
    finished: Val,
    furniture: Val,
    finishingName: Option<string>,
    plan: Option<PlanRef>,
    feature: Features,
    view: Option<seq<string>>,
    euroPlanning: Option<int>,
    sale: Option<string>,
    discountPercent: Option<real>,
    needSave: bool,
    usedRoomsForLivingArea: bool)

  /** The record `__init__` leaves (murinoclub.py:67, 73-105): type `flat`, in sale, everything else unset. */
  function NewEstate(): (e: Estate)
    ensures e.objType == Flat && e.inSale == Some(1) && e.needSave && !e.usedRoomsForLivingArea
    ensures e.priceBase.None? && e.priceSale.None? && e.rooms.NoRooms? && e.feature.NoFeature?
  {
    Estate(Flat, None, None, None, None, None, None, None, None, None, None, None, None, None,
      NoRooms, None, None, Some(1), None, Nil, Nil, None, None, NoFeature, None, None, None, None,
      true, false)
  }

  /** The record after a setter, and whether the setter returned or raised. */
  datatype Step = Step(e: Estate, out: Outcome<Error>)
}
