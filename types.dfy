/**
 * How the record learns its type and its identifying fields:
 * `find_obj_type_by_value`, `set_obj_type`, `check_is_object_type_valid`,
 * `set_number`, `set_number_on_site`, `set_building` and `set_section`
 * (murinoclub.py:135-168, 242-269).
 *
 * The synonym table `_type_by_names` is a parameter `names`: the record
 * builds it once, in its constructor, as `TypeTable(TypeByNames)`.
 */
module ObjectTypes {
  import opened Results
  import opened Errors
  import opened Text
  import opened Utils
  import opened Synonyms
  import opened EstateValues
  import opened FeatureSetters

  /** A synonym matches text when it occurs in the lowered text. */
  function TypeMatcher(value: string): string -> bool {
    n => Contains(Lower(value), n)
  }

  /**
   * `find_obj_type_by_value(value)` (murinoclub.py:135-138): the type of the
   * first synonym of the table that occurs in the lowered text.
   */
  function FindObjType(names: seq<Entry<ObjType>>, value: string): (r: Option<ObjType>)
    ensures r.None? <==> forall j :: 0 <= j < |names| ==> !Contains(Lower(value), names[j].name)
    ensures r.Some? ==> exists j :: 0 <= j < |names| && names[j].target == r.value && Contains(Lower(value), names[j].name)
  {
    var m := TypeMatcher(value);
    var r := Lookup(names, m);
    assert forall j :: 0 <= j < |names| ==> (m(names[j].name) <==> Contains(Lower(value), names[j].name));
    assert r.Some? ==> FirstMatchFrom(names, m, 0).Some? && names[FirstMatchFrom(names, m, 0).value].target == r.value;
    r
  }

  /**
   * On a table sorted by descending length the type found is that of the
   * first occurring synonym, and no occurring synonym is longer.
   */
  lemma {:induction false} FindObjTypeLongest(names: seq<Entry<ObjType>>, value: string)
    requires SortedByLength(names)
    requires FindObjType(names, value).Some?
    ensures exists k :: (0 <= k < |names|
      && names[k].target == FindObjType(names, value).value
      && Contains(Lower(value), names[k].name)
      && (forall j :: 0 <= j < k ==> !Contains(Lower(value), names[j].name))
      && (forall j :: 0 <= j < |names| && Contains(Lower(value), names[j].name) ==> |names[j].name| <= |names[k].name|))
  {
    var m := TypeMatcher(value);
    var k := FirstMatchFrom(names, m, 0).value;
    LongestMatch(names, m);
    assert forall j :: 0 <= j < |names| ==> (m(names[j].name) <==> Contains(Lower(value), names[j].name));
    assert names[k].target == FindObjType(names, value).value;
  }

  /** The table the record builds is sorted, so its lookups find a longest synonym. */
  lemma {:induction false} TypeTableSorted(groups: seq<Group<ObjType>>)
    ensures SortedByLength(TypeTable(groups))
    ensures multiset(TypeTable(groups)) == multiset(Flatten(groups))
  {
    SortByLengthSorted(Flatten(groups));
    SortByLengthPermutation(Flatten(groups));
  }

  /** The feature `set_obj_type` and `set_rooms` record for a penthouse. */
  const Penthouse: string := "Пентхаус"

  /**
   * `set_obj_type(value)` (murinoclub.py:140-152). A canonical name is taken
   * as it is; other text is resolved through the synonyms, where
   * `SKIP_TYPE` also marks the record as not to be saved, and text naming
   * no type raises. A raw value holding `пентхаус` also records the feature.
   */
  function SetObjType(e: Estate, names: seq<Entry<ObjType>>, value: string): (r: Step)
    ensures r.e == e.(objType := r.e.objType, needSave := r.e.needSave, feature := r.e.feature, euroPlanning := r.e.euroPlanning)
  {
    match TypeOfName(value)
    case Some(t) => Step(e.(objType := t), Pass)
    case None =>
      match FindObjType(names, value)
      case None => Step(e, Fail(UnknownTypeName))
      case Some(t) =>
        var e1 := e.(objType := t, needSave := e.needSave && t != SkipType);
        Step(if Contains(value, "пентхаус") then SetFeature(e1, Penthouse) else e1, Pass)
  }

  lemma {:induction false} PenthouseClean()
    ensures Penthouse != "" && IsStripped(Penthouse) && '\t' !in Penthouse && '\n' !in Penthouse
  {
  }

  lemma {:induction false} PenthouseNoV()
    ensures forall k :: 0 <= k < |Penthouse| ==> LowerChar(Penthouse[k]) != "евро"[1]
  {
  }

  /** `Пентхаус` is recorded under its own spelling. */
  lemma {:induction false} PenthouseIsPlain()
    ensures PlainFeature(Penthouse)
  {
    PenthouseClean();
    PenthouseNoV();
    PlainKind(Penthouse, 1);
  }

  /**
   * What `set_obj_type` does: a canonical name sets the type and nothing
   * else; otherwise the type found is set, `SKIP_TYPE` clears `_need_save`
   * and nothing else does, a raw `пентхаус` is recorded as a feature, and
   * text naming no type raises without a change.
   */
  lemma {:induction false} SetObjTypeResolves(e: Estate, names: seq<Entry<ObjType>>, value: string)
    ensures var r := SetObjType(e, names, value);
      match TypeOfName(value)
      case Some(t) => r == Step(e.(objType := t), Pass)
      case None =>
        match FindObjType(names, value)
        case None => r == Step(e, Fail(UnknownTypeName))
        case Some(t) =>
          && r.out == Pass
          && r.e.objType == t
          && (r.e.needSave <==> e.needSave && t != SkipType)
          && (Contains(value, "пентхаус") ==> Penthouse in FeatureItems(r.e.feature) && r.e.euroPlanning == e.euroPlanning)
          && (!Contains(value, "пентхаус") ==> r.e.feature == e.feature && r.e.euroPlanning == e.euroPlanning)
  {
    if TypeOfName(value).None? && FindObjType(names, value).Some? {
      var t := FindObjType(names, value).value;
      var e1 := e.(objType := t, needSave := e.needSave && t != SkipType);
      if Contains(value, "пентхаус") {
        PenthouseIsPlain();
        SetPlainFeature(e1, Penthouse);
      }
    }
  }

  /** A `SKIP_TYPE` synonym never raises and always marks the record as not to be saved. */
  lemma {:induction false} SetObjTypeSkip(e: Estate, names: seq<Entry<ObjType>>, value: string)
    requires TypeOfName(value).None? && FindObjType(names, value) == Some(SkipType)
    ensures SetObjType(e, names, value).out == Pass
    ensures !SetObjType(e, names, value).e.needSave && SetObjType(e, names, value).e.objType == SkipType
  {
    SetObjTypeResolves(e, names, value);
  }

  /** The two exits of `set_obj_type`: it raises exactly for text that is no canonical name and holds no synonym. */
  lemma {:induction false} SetObjTypeRaises(e: Estate, names: seq<Entry<ObjType>>, value: string)
    ensures SetObjType(e, names, value).out.Fail? <==>
      (forall t :: t in PossibleTypes ==> TypeName(t) != value)
      && forall j :: 0 <= j < |names| ==> !Contains(Lower(value), names[j].name)
    ensures SetObjType(e, names, value).out.Fail? ==> SetObjType(e, names, value).e == e
  {
    TypeOfNameNames(value);
  }

  /** `value in possible_types` holds exactly for the canonical names. */
  lemma {:induction false} TypeOfNameNames(value: string)
    ensures TypeOfName(value).None? <==> forall t :: t in PossibleTypes ==> TypeName(t) != value
  {
    if TypeOfName(value).None? {
      forall t | t in PossibleTypes ensures TypeName(t) != value {
        TypeOfNameOfTypeName(t);
      }
    }
  }

  /**
   * `check_is_object_type_valid(value)` (murinoclub.py:242-250): text that
   * names another type either switches the type, under
   * `_correct_type_dynamic`, or raises.
   */
  function CheckIsObjectTypeValid(cfg: Config, e: Estate, names: seq<Entry<ObjType>>, value: string): (r: Step)
    ensures r.e == e.(objType := r.e.objType)
  {
    match FindObjType(names, value)
    case None => Step(e, Pass)
    case Some(t) =>
      if t == e.objType then Step(e, Pass)
      else if cfg.correctTypeDynamic then Step(e.(objType := t), Pass)
      else Step(e, Fail(TypeInNumber))
  }

  /**
   * The check raises exactly when the text names a type other than the
   * record's and the type may not follow it; when it returns, the record's
   * type agrees with any type the text names.
   */
  lemma {:induction false} CheckTypeAgrees(cfg: Config, e: Estate, names: seq<Entry<ObjType>>, value: string)
    ensures var r := CheckIsObjectTypeValid(cfg, e, names, value);
      var found := FindObjType(names, value);
      && (r.out.Fail? <==> found.Some? && found.value != e.objType && !cfg.correctTypeDynamic)
      && (r.out.Pass? && found.Some? ==> r.e.objType == found.value)
      && (found.None? ==> r == Step(e, Pass))
  {
  }

  /** The restricted parts of `set_number` and `set_number_on_site` (murinoclub.py:254-258, 263-267). */
  const NumberParts: seq<Pattern> := Rxs(["помещение свободного назначения",
    "офис", "квартира", "квартиры", "№", "машиноместо", "кладовая",
    "нежилое помещение", "коммерческое помещение",
    "паркинг", "кладовка", "номер", "лот", "помещение", "апартаменты",
    "ком.пом.", "пом.", "апартамент", "кв.", "м/м", "мот/м", "м.м"])

  /** `set_number(value)` (murinoclub.py:252-260): the type check first, then the cleaned number. */
  function SetNumber(cfg: Config, e: Estate, names: seq<Entry<ObjType>>, value: string): (r: Step)
    ensures r.e == e.(objType := r.e.objType, number := r.e.number)
  {
    var c := CheckIsObjectTypeValid(cfg, e, names, value);
    if c.out.Fail? then c else Step(c.e.(number := Some(Cleaned(value, NumberParts))), Pass)
  }

  /** A number is stored cleaned and stripped, and only once the type check has passed. */
  lemma {:induction false} SetNumberStores(cfg: Config, e: Estate, names: seq<Entry<ObjType>>, value: string)
    ensures var r := SetNumber(cfg, e, names, value);
      var c := CheckIsObjectTypeValid(cfg, e, names, value);
      && (c.out.Fail? ==> r == c && r.e.number == e.number)
      && (c.out.Pass? ==> r.out == Pass && r.e.number == Some(Cleaned(value, NumberParts)) && IsStripped(r.e.number.value))
  {
    CleanedStripped(value, NumberParts);
  }

  /** `set_number_on_site(value)` (murinoclub.py:262-269). */
  function SetNumberOnSite(e: Estate, value: string): (r: Estate)
    ensures r == e.(numberOnSite := r.numberOnSite)
    ensures r.numberOnSite == Some(Cleaned(value, NumberParts))
  {
    e.(numberOnSite := Some(Cleaned(value, NumberParts)))
  }

  /** The number on the site is always stored, cleaned of the number parts, stripped and no longer than the text given. */
  lemma {:induction false} SetNumberOnSiteStores(e: Estate, value: string)
    ensures var r := SetNumberOnSite(e, value);
      && r.numberOnSite == Some(Cleaned(value, NumberParts))
      && IsStripped(r.numberOnSite.value) && |r.numberOnSite.value| <= |value|
  {
    CleanedStripped(value, NumberParts);
  }

  /** The restricted parts of `set_building` (murinoclub.py:155-158). */
  const BuildingParts: seq<Pattern> := Rxs(["корпус", "корп.", "корп", "строение",
    "многоэтажный паркинг", "подземный паркинг",
    "паркинг", "№", "дом", ":",
    "\t", "\n", "квартал"])

  /** A cleaned text that is not one of the empty values. */
  predicate NotEmptyValue(v: string) {
    Strip(Lower(v)) !in EmptyValues
  }

  /** `set_building(value)` (murinoclub.py:154-161): an empty value leaves the building unset. */
  function SetBuilding(e: Estate, value: string): (r: Estate)
    ensures r == e.(building := r.building)
  {
    var v := Cleaned(value, BuildingParts);
    if NotEmptyValue(v) then e.(building := Some(v)) else e
  }

  /**
   * The building stored is the cleaned text, stripped, and it is stored
   * exactly when it is no empty value.
   */
  lemma {:induction false} SetBuildingStores(e: Estate, value: string)
    ensures var v := Cleaned(value, BuildingParts);
      && (NotEmptyValue(v) ==> SetBuilding(e, value).building == Some(v))
      && (!NotEmptyValue(v) ==> SetBuilding(e, value) == e)
      && IsStripped(v) && |v| <= |value|
  {
    CleanedStripped(value, BuildingParts);
  }

  /** The restricted parts of `set_section` (murinoclub.py:164). */
  const SectionParts: seq<Pattern> := Rxs(["секция", "парадная", "№", ":", "\t", "подъезд", "блок", "секц."])

  /** `set_section(value)` (murinoclub.py:163-168): empty text and empty values leave the section unset. */
  function SetSection(e: Estate, value: string): (r: Estate)
    ensures r == e.(section := r.section)
  {
    var v := Cleaned(value, SectionParts);
    if v != "" && NotEmptyValue(v) then e.(section := Some(v)) else e
  }

  /** A section is stored, cleaned, exactly when it is neither empty nor an empty value; it is never empty. */
  lemma {:induction false} SetSectionStores(e: Estate, value: string)
    ensures var v := Cleaned(value, SectionParts);
      && (v != "" && NotEmptyValue(v) ==> SetSection(e, value).section == Some(v))
      && (v == "" || !NotEmptyValue(v) ==> SetSection(e, value) == e)
      && (SetSection(e, value).section != e.section ==> SetSection(e, value).section.value != "")
  {
  }
}
