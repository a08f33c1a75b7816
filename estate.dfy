/**
 * `EstateObject` (murinoclub.py:24-752) as an object whose setters change
 * its attributes in place. The attributes are held as one record value,
 * `attrs`, that every setter updates attribute by attribute. Each method
 * is proved against the function that specifies it on `Estate`; what the
 * source promises is proved about those functions in their own modules.
 */
module Estates {
  import opened Results
  import opened Errors
  import opened Text
  import opened Utils
  import opened Synonyms
  import opened EstateValues
  import FeatureSetters
  import Prices
  import Areas
  import ObjectTypes
  import RoomCounts
  import Availability
  import Places
  import Final = FinalCheck

  class EstateObject {
    /** The underscored settings `__init__` fixes from its keyword arguments. */
    const cfg: Config
    /** `_type_by_names`: every synonym with its type, longest synonym first. */
    const typeNames: seq<Entry<ObjType>>
    /** The public attributes and the changing helper attributes. */
    var attrs: Estate

    /** `_resort_obj_types` (murinoclub.py:107-113): flatten the synonym groups, then sort by descending length. */
    static method ResortObjTypes(groups: seq<Group<ObjType>>) returns (pairs: seq<Entry<ObjType>>)
      ensures pairs == TypeTable(groups)
      ensures SortedByLength(pairs)
    {
      var flat := FlattenTable(groups);
      pairs := SortByLength(flat);
      SortByLengthSorted(flat);
    }

    /**
     * `__init__` (murinoclub.py:43-105), given the class attribute
     * `type_by_names` (`TypeByNames`) as `groups`.
     */
    constructor(cfg: Config, groups: seq<Group<ObjType>>)
      ensures this.cfg == cfg && typeNames == TypeTable(groups) && SortedByLength(typeNames)
      ensures attrs == NewEstate()
    {
      this.cfg := cfg;
      var table := EstateObject.ResortObjTypes(groups);
      typeNames := table;
      attrs := NewEstate();
    }

    // -------------------------------------------------------------------
    // Types

    /** `find_obj_type_by_value(value)` (murinoclub.py:135-138): the scan for the first synonym that occurs. */
    method FindObjTypeByValue(value: string) returns (r: Option<ObjType>)
      ensures r == ObjectTypes.FindObjType(typeNames, value)
    {
      var low := Lower(value);
      ghost var m := ObjectTypes.TypeMatcher(value);
      var i := 0;
      while i < |typeNames|
        invariant 0 <= i <= |typeNames|
        invariant FirstMatchFrom(typeNames, m, i) == FirstMatchFrom(typeNames, m, 0)
      {
        if Contains(low, typeNames[i].name) {
          return Some(typeNames[i].target);
        }
        i := i + 1;
      }
      return None;
    }

    /** `set_obj_type(value)` (murinoclub.py:140-152). */
    method SetObjType(value: string) returns (out: Outcome<Error>)
      modifies this
      ensures attrs == ObjectTypes.SetObjType(old(attrs), typeNames, value).e
      ensures out == ObjectTypes.SetObjType(old(attrs), typeNames, value).out
    {
      var known := TypeOfName(value);
      if known.Some? {
        attrs := attrs.(objType := known.value);
        return Pass;
      }
      var found := FindObjTypeByValue(value);
      if found.None? {
        return Fail(UnknownTypeName);
      }
      if found.value == SkipType {
        attrs := attrs.(needSave := false);
      }
      attrs := attrs.(objType := found.value);
      if Contains(value, "пентхаус") {
        SetFeature(ObjectTypes.Penthouse);
      }
      return Pass;
    }

    /** `check_is_object_type_valid(value)` (murinoclub.py:242-250). */
    method CheckIsObjectTypeValid(value: string) returns (out: Outcome<Error>)
      modifies this
      ensures attrs == ObjectTypes.CheckIsObjectTypeValid(cfg, old(attrs), typeNames, value).e
      ensures out == ObjectTypes.CheckIsObjectTypeValid(cfg, old(attrs), typeNames, value).out
    {
      var found := FindObjTypeByValue(value);
      if found.Some? && found.value != attrs.objType {
        if cfg.correctTypeDynamic {
          attrs := attrs.(objType := found.value);
        } else {
          return Fail(TypeInNumber);
        }
      }
      return Pass;
    }

    // -------------------------------------------------------------------
    // Building, section, numbers

    /** `set_building(value)` (murinoclub.py:154-161). */
    method SetBuilding(value: string)
      modifies this
      ensures attrs == ObjectTypes.SetBuilding(old(attrs), value)
    {
      var v := RemoveRestricted(value, ObjectTypes.BuildingParts);
      if ObjectTypes.NotEmptyValue(v) {
        attrs := attrs.(building := Some(v));
      }
    }

    /** `set_section(value)` (murinoclub.py:163-168). */
    method SetSection(value: string)
      modifies this
      ensures attrs == ObjectTypes.SetSection(old(attrs), value)
    {
      var v := RemoveRestricted(value, ObjectTypes.SectionParts);
      if v != "" && ObjectTypes.NotEmptyValue(v) {
        attrs := attrs.(section := Some(v));
      }
    }

    /** `set_number(value)` (murinoclub.py:252-260): the type check first, then the cleaned number. */
    method SetNumber(value: string) returns (out: Outcome<Error>)
      modifies this
      ensures attrs == ObjectTypes.SetNumber(cfg, old(attrs), typeNames, value).e
      ensures out == ObjectTypes.SetNumber(cfg, old(attrs), typeNames, value).out
    {
      out := CheckIsObjectTypeValid(value);
      if out.Fail? {
        return;
      }
      var v := RemoveRestricted(value, ObjectTypes.NumberParts);
      attrs := attrs.(number := Some(v));
    }

    /** `set_number_on_site(value)` (murinoclub.py:262-269). */
    method SetNumberOnSite(value: string)
      modifies this
      ensures attrs == ObjectTypes.SetNumberOnSite(old(attrs), value)
    {
      var v := RemoveRestricted(value, ObjectTypes.NumberParts);
      attrs := attrs.(numberOnSite := Some(v));
    }

    // -------------------------------------------------------------------
    // Prices

    /** `set_price_base(value, sale, multi)` (murinoclub.py:208-226). */
    method SetPriceBase(value: Val, sale: Val, multi: int) returns (out: Outcome<Error>)
      modifies this
      ensures attrs == Prices.SetPriceBase(cfg, old(attrs), value, sale, multi).e
      ensures out == Prices.SetPriceBase(cfg, old(attrs), value, sale, multi).out
    {
      var m := multi;
      if cfg.projectPriceMulti != 0 {
        m := cfg.projectPriceMulti;
      }
      var v := value;
      if value.Str? && Contains(value.s, "$") {
        attrs := attrs.(currency := Some("$"));
        v := Str(Replace(value.s, "$", ""));
      }
      out := UpdateBasePrice(v, sale, m);
    }

    /** The price part of `set_price_base` (murinoclub.py:214-225), on a value without its dollar sign. */
    method UpdateBasePrice(value: Val, sale: Val, m: int) returns (out: Outcome<Error>)
      modifies this
      ensures var u := Prices.BasePriceUpdate(cfg, old(attrs).priceBase, old(attrs).priceSale, value, sale, m);
        attrs == old(attrs).(priceBase := u.base, priceSale := u.sale) && out == u.out
    {
      var b := Prices.DecodePrice(cfg, value, m);
      if b.Err? {
        return Fail(b.error);
      }
      attrs := attrs.(priceBase := b.value);
      if Truthy(sale) {
        var ps := Prices.DecodePrice(cfg, sale, m);
        if ps.Err? {
          return Fail(ps.error);
        }
        OrderWithSale(ps.value);
      }
      out := Prices.CheckPriceValue(cfg, attrs.priceBase);
    }

    /** The ordering of the base price and a decoded sale price (murinoclub.py:217-225). */
    method OrderWithSale(ps: Option<int>)
      modifies this
      ensures var (b, s) := Prices.OrderPrices(old(attrs).priceBase, old(attrs).priceSale, ps);
        attrs == old(attrs).(priceBase := b, priceSale := s)
    {
      if PriceSet(ps) {
        if PriceSet(attrs.priceBase) {
          if ps.value < attrs.priceBase.value {
            attrs := attrs.(priceSale := ps);
          } else if ps.value > attrs.priceBase.value {
            attrs := attrs.(priceSale := attrs.priceBase, priceBase := ps);
          }
        } else {
          attrs := attrs.(priceBase := ps);
        }
      }
    }

    /** `set_price_sale(value, multi)` (murinoclub.py:470-472). */
    method SetPriceSale(value: Val, multi: int) returns (out: Outcome<Error>)
      modifies this
      ensures attrs == Prices.SetPrice(cfg, old(attrs), Prices.SaleSlot, value, multi).e
      ensures out == Prices.SetPrice(cfg, old(attrs), Prices.SaleSlot, value, multi).out
    {
      var p := Prices.DecodePrice(cfg, value, multi);
      if p.Err? {
        return Fail(p.error);
      }
      attrs := attrs.(priceSale := p.value);
      out := Prices.CheckPriceValue(cfg, attrs.priceSale);
    }

    /** `set_price_finished(value, sale, multi)` (murinoclub.py:474-476); `sale` is unused. */
    method SetPriceFinished(value: Val, multi: int) returns (out: Outcome<Error>)
      modifies this
      ensures attrs == Prices.SetPrice(cfg, old(attrs), Prices.FinishedSlot, value, multi).e
      ensures out == Prices.SetPrice(cfg, old(attrs), Prices.FinishedSlot, value, multi).out
    {
      var p := Prices.DecodePrice(cfg, value, multi);
      if p.Err? {
        return Fail(p.error);
      }
      attrs := attrs.(priceFinished := p.value);
      out := Prices.CheckPriceValue(cfg, attrs.priceFinished);
    }

    /** `set_price_finished_sale(value, sale, multi)` (murinoclub.py:478-480); `sale` is unused. */
    method SetPriceFinishedSale(value: Val, multi: int) returns (out: Outcome<Error>)
      modifies this
      ensures attrs == Prices.SetPrice(cfg, old(attrs), Prices.FinishedSaleSlot, value, multi).e
      ensures out == Prices.SetPrice(cfg, old(attrs), Prices.FinishedSaleSlot, value, multi).out
    {
      var p := Prices.DecodePrice(cfg, value, multi);
      if p.Err? {
        return Fail(p.error);
      }
      attrs := attrs.(priceFinishedSale := p.value);
      out := Prices.CheckPriceValue(cfg, attrs.priceFinishedSale);
    }

    /** `set_furniture_price(value, sale, multi)` (murinoclub.py:482-484); `sale` is unused. */
    method SetFurniturePrice(value: Val, multi: int) returns (out: Outcome<Error>)
      modifies this
      ensures attrs == Prices.SetPrice(cfg, old(attrs), Prices.FurnitureSlot, value, multi).e
      ensures out == Prices.SetPrice(cfg, old(attrs), Prices.FurnitureSlot, value, multi).out
    {
      var p := Prices.DecodePrice(cfg, value, multi);
      if p.Err? {
        return Fail(p.error);
      }
      attrs := attrs.(furniturePrice := p.value);
      out := Prices.CheckPriceValue(cfg, attrs.furniturePrice);
    }

    // -------------------------------------------------------------------
    // Areas, ceiling, discount

    /** `set_area(value)` (murinoclub.py:237-240). */
    method SetArea(value: Val) returns (out: Outcome<Error>)
      modifies this
      ensures attrs == Areas.SetArea(old(attrs), value).e
      ensures out == Areas.SetArea(old(attrs), value).out
    {
      if Areas.Given(value) {
        var a := Areas.AreaCleaner(value);
        if a.Err? {
          return Fail(a.error);
        }
        attrs := attrs.(area := Some(a.value));
      }
      return Pass;
    }

    /** `set_living_area(value)` (murinoclub.py:435-440). */
    method SetLivingArea(value: Val) returns (out: Outcome<Error>)
      modifies this
      ensures attrs == Areas.SetLivingArea(old(attrs), value).e
      ensures out == Areas.SetLivingArea(old(attrs), value).out
    {
      if !Areas.Given(value) {
        return Pass;
      }
      if attrs.usedRoomsForLivingArea {
        return Fail(LivingAreaAfterRoomAreas);
      }
      var a := Areas.AreaCleaner(value);
      if a.Err? {
        return Fail(a.error);
      }
      attrs := attrs.(livingArea := Some(a.value));
      return Pass;
    }

    /** `find_living_area_from_rooms(room_area)` (murinoclub.py:644-651): the living area accumulates room areas. */
    method FindLivingAreaFromRooms(roomArea: Val) returns (out: Outcome<Error>)
      modifies this
      ensures attrs == Areas.FindLivingAreaFromRooms(old(attrs), roomArea).e
      ensures out == Areas.FindLivingAreaFromRooms(old(attrs), roomArea).out
    {
      var cleaned := Areas.AreaCleaner(roomArea);
      if cleaned.Err? {
        return Fail(cleaned.error);
      }
      out := AddRoomArea(cleaned.value);
    }

    /** The step of `find_living_area_from_rooms` once the room's area `a` has been read. */
    method AddRoomArea(a: real) returns (out: Outcome<Error>)
      modifies this
      ensures attrs == Areas.AddRoomArea(old(attrs), a).e
      ensures out == Areas.AddRoomArea(old(attrs), a).out
    {
      var living := Areas.LivingOrZero(attrs);
      if !attrs.usedRoomsForLivingArea && living != 0.0 {
        return Fail(RoomAreaAfterLivingArea);
      }
      attrs := attrs.(livingArea := Some(living + a), usedRoomsForLivingArea := true);
      return Pass;
    }

    /** `set_ceil(value)` (murinoclub.py:442-447). */
    method SetCeil(value: string) returns (out: Outcome<Error>)
      modifies this
      ensures attrs == Areas.SetCeil(old(attrs), value).e
      ensures out == Areas.SetCeil(old(attrs), value).out
    {
      var v := RemoveRestricted(Replace(value, ",", "."), Areas.CeilParts);
      var d := ParseDecimal(v);
      if d.None? {
        return Fail(InvalidOperation);
      }
      attrs := attrs.(ceil := d);
      return Pass;
    }

    /** `set_discount_percent(value)` (murinoclub.py:579-583). */
    method SetDiscountPercent(value: string) returns (out: Outcome<Error>)
      modifies this
      ensures attrs == Areas.SetDiscountPercent(old(attrs), value).e
      ensures out == Areas.SetDiscountPercent(old(attrs), value).out
    {
      var v := RemoveRestricted(Replace(value, ",", "."), Areas.DiscountParts);
      var d := ParseDecimal(v);
      if d.None? {
        return Fail(InvalidOperation);
      }
      attrs := attrs.(discountPercent := d);
      return Pass;
    }

    // -------------------------------------------------------------------
    // Features, views, notes

    /** `set_feature(value)` (murinoclub.py:543-556): the list grows in place. */
    method SetFeature(value: string)
      modifies this
      ensures attrs == FeatureSetters.SetFeature(old(attrs), value)
    {
      if value == "" {
        return;
      }
      var c := RemoveRestricted(value, FeatureSetters.TabNewline);
      if Contains(Lower(c), "евро") {
        attrs := attrs.(euroPlanning := Some(1));
        return;
      }
      var f := attrs.feature;
      if FeatureSet(f) {
        if f.OneFeature? {
          f := FeatureList([f.text]);
        }
        if c !in f.items {
          f := FeatureList(f.items + [c]);
        }
      } else {
        f := OneFeature(c);
      }
      attrs := attrs.(feature := f);
    }

    /** `set_view(value)` (murinoclub.py:558-565). */
    method SetView(value: string)
      modifies this
      ensures attrs == FeatureSetters.SetView(old(attrs), value)
    {
      if value == "" {
        return;
      }
      var c := RemoveRestricted(value, FeatureSetters.TabNewline);
      if attrs.view.Some? && attrs.view.value != [] {
        attrs := attrs.(view := Some(attrs.view.value + [c]));
      } else {
        attrs := attrs.(view := Some([c]));
      }
    }

    /** `set_sale(value)` (murinoclub.py:573-577). */
    method SetSale(value: string)
      modifies this
      ensures attrs == FeatureSetters.SetSale(old(attrs), value)
    {
      if TextSet(attrs.sale) {
        attrs := attrs.(sale := Some(attrs.sale.value + "; " + value));
      } else {
        attrs := attrs.(sale := Some(value));
      }
    }

    /** `set_level(value)` (murinoclub.py:588-592). */
    method SetLevel(value: Val)
      modifies this
      ensures attrs == FeatureSetters.SetLevel(old(attrs), value)
    {
      if value.Str? && Contains(Lower(value.s), "двухуровневая") {
        SetFeature(FeatureSetters.TwoLevels);
      } else if Contains(FeatureSetters.ValText(value), "2") {
        SetFeature(FeatureSetters.TwoLevels);
      }
    }

    /** `set_balcon(value, balcon_type)` (murinoclub.py:594-617). */
    method SetBalcon(value: Val, kind: string)
      modifies this
      ensures attrs == FeatureSetters.SetBalcon(old(attrs), value, kind)
    {
      match value
      case Str(s) =>
        var l := Lower(s);
        if Contains(l, "терраса") {
          SetFeature(FeatureSetters.Terrace);
        }
        if Contains(l, "балкон") {
          SetFeature(kind);
        } else if Contains(l, "лоджия") {
          SetFeature(FeatureSetters.Loggia);
        } else if Contains(l, "да") || Contains(l, "есть") || Contains(l, "+") {
          SetFeature(kind);
        } else if FeatureSetters.NonZeroArea(s) {
          SetFeature(kind);
        }
      case Int(i) =>
        if i != 0 {
          SetFeature(kind);
        }
      case Nil =>
    }

    /** `set_loggia(value)` (murinoclub.py:619-620). */
    method SetLoggia(value: Val)
      modifies this
      ensures attrs == FeatureSetters.SetLoggia(old(attrs), value)
    {
      SetBalcon(value, FeatureSetters.Loggia);
    }

    /** `set_storeroom(value)` (murinoclub.py:622-623). */
    method SetStoreroom(value: Val)
      modifies this
      ensures attrs == FeatureSetters.SetStoreroom(old(attrs), value)
    {
      SetBalcon(value, FeatureSetters.StoreroomKind);
    }

    /** `set_terrace(value)` (murinoclub.py:625-642). */
    method SetTerrace(value: Val)
      modifies this
      ensures attrs == FeatureSetters.SetTerrace(old(attrs), value)
    {
      match value
      case Str(s) =>
        var l := Lower(s);
        if Contains(l, "да") || Contains(l, "есть") || Contains(l, "терраса") {
          SetFeature(FeatureSetters.Terrace);
        } else if FeatureSetters.NonZeroArea(s) {
          SetFeature(FeatureSetters.Terrace);
        }
      case Int(i) =>
        if i != 0 {
          SetFeature(FeatureSetters.Terrace);
        }
      case Nil =>
    }

    // Rooms

    /** `set_rooms(value, check_euro, check_type)` (murinoclub.py:271-334). */
    method SetRooms(value: Val, checkEuro: bool, checkType: bool) returns (out: Outcome<Error>)
      modifies this
      ensures attrs == RoomCounts.SetRooms(cfg, old(attrs), typeNames, value, checkEuro, checkType).e
      ensures out == RoomCounts.SetRooms(cfg, old(attrs), typeNames, value, checkEuro, checkType).out
    {
      match value {
        case Nil =>
          return Fail(TypeError);
        case Int(i) =>
          attrs := attrs.(rooms := Count(i));
        case Str(s) =>
          var l := Strip(Lower(s));
          if Contains(l, "пентхаус") {
            SetFeature(ObjectTypes.Penthouse);
            return Pass;
          }
          if Contains(l, "св. план") {
            SetFeature(RoomCounts.FreePlan);
            return Pass;
          }
          var v := Strip(Replace(Replace(l, "комнаты", ""), "комната", ""));
          if checkEuro && Contains(v, "евро") {
            attrs := attrs.(euroPlanning := Some(1));
          }
          if checkType {
            var stop := ScanTypes(v);
            if stop {
              return Pass;
            }
          }
          out := CountRooms(v, checkEuro);
          if out.Fail? {
            return;
          }
      }
      if attrs.rooms == Count(0) {
        attrs := attrs.(rooms := Studio);
      }
      return Pass;
    }

    /**
     * The type scan of `set_rooms` (murinoclub.py:283-293): a `flat` synonym
     * is skipped, an `apartment` one sets the type, any other sets the type
     * and ends the call, which the result reports.
     */
    method ScanTypes(v: string) returns (stop: bool)
      modifies this
      ensures (attrs.objType, stop) == RoomCounts.TypeScan(old(attrs).objType, typeNames, v, 0)
      ensures attrs == old(attrs).(objType := attrs.objType)
    {
      var lowered := Lower(v);
      var i := 0;
      while i < |typeNames|
        invariant i <= |typeNames|
        invariant attrs == old(attrs).(objType := attrs.objType)
        invariant RoomCounts.TypeScan(attrs.objType, typeNames, v, i) == RoomCounts.TypeScan(old(attrs).objType, typeNames, v, 0)
      {
        var entry := typeNames[i];
        if Contains(lowered, entry.name) {
          if entry.target == Apartment {
            attrs := attrs.(objType := Apartment);
          } else if entry.target != Flat {
            attrs := attrs.(objType := entry.target);
            return true;
          }
        }
        i := i + 1;
      }
      return false;
    }

    /** The count part of `set_rooms` (murinoclub.py:294-330) on the prepared text `v`. */
    method CountRooms(v: string, checkEuro: bool) returns (out: Outcome<Error>)
      modifies this
      ensures attrs == RoomCounts.RoomsOfWord(cfg, old(attrs), v, checkEuro).e
      ensures out == RoomCounts.RoomsOfWord(cfg, old(attrs), v, checkEuro).out
    {
      var n := RoomCounts.NumeralFrom(v, 0);
      if n.Some? {
        attrs := attrs.(rooms := Count(n.value));
        return Pass;
      }
      if Contains(v, "многоком") {
        attrs := attrs.(rooms := NoRooms);
        return Pass;
      }
      if RoomCounts.StudioWord(v) {
        attrs := attrs.(rooms := Studio);
        return Pass;
      }
      if Contains(v, "-1") {
        return Pass;
      }
      if RoomCounts.EuroQuirk(v, checkEuro) {
        attrs := attrs.(euroPlanning := Some(1));
      }
      if v in EmptyValues {
        return Pass;
      }
      var digits := FirstDigitRun(v);
      if digits.Some? {
        attrs := attrs.(rooms := Count(DigitsValue(digits.value)));
        return Pass;
      }
      if cfg.ignoreEmptyRooms {
        return Pass;
      }
      return Fail(NoRoomDigits);
    }

    // Floors and plan

    /** `set_floor(value)` (murinoclub.py:336-358). */
    method SetFloor(value: Val) returns (out: Outcome<Error>)
      modifies this
      ensures attrs == Places.SetFloor(cfg, old(attrs), value).e
      ensures out == Places.SetFloor(cfg, old(attrs), value).out
    {
      var v := value;
      if value.Str? && value.s != "" {
        var l := Lower(value.s);
        if Contains(l, "цоколь") {
          attrs := attrs.(floor := Some(-1));
          return Pass;
        }
        if Contains(l, "первый") {
          attrs := attrs.(floor := Some(1));
          return Pass;
        }
        if Contains(l, "подвал") {
          attrs := attrs.(floor := Some(-1));
          return Pass;
        }
        var t := value.s;
        if Contains(t, "из") {
          t := Split(t, "из")[0];
        }
        if Contains(t, "/") {
          t := Split(t, "/")[0];
        }
        assert t == Places.FloorPart(value.s);
        v := Str(t);
      }
      out := StoreFloor(v);
    }

    /** The rest of `set_floor` once the floor words are ruled out and the text is cut (murinoclub.py:351-358). */
    method StoreFloor(v: Val) returns (out: Outcome<Error>)
      modifies this
      ensures attrs == Places.FloorOfValue(cfg, old(attrs), v).e
      ensures out == Places.FloorOfValue(cfg, old(attrs), v).out
    {
      if cfg.splitFloors {
        if !v.Str? {
          return Fail(AttributeError);
        }
        var floors := SplitFloors(v.s);
        if floors.Err? {
          return Fail(floors.error);
        }
        attrs := attrs.(floors := floors.value);
        return Pass;
      }
      if !Truthy(v) {
        return Pass;
      }
      if v.Int? {
        attrs := attrs.(floor := Some(v.i));
        return Pass;
      }
      out := StoreFloorText(v.s);
    }

    /** The first signed integer of the text as the floor, unless it is an empty value (murinoclub.py:355-358). */
    method StoreFloorText(t: string) returns (out: Outcome<Error>)
      modifies this
      ensures attrs == Places.FloorOfText(old(attrs), t).e
      ensures out == Places.FloorOfText(old(attrs), t).out
    {
      var token := FirstSignedInt(t);
      if token.None? {
        return Fail(IndexError);
      }
      if Strip(Lower(token.value)) !in EmptyValues {
        attrs := attrs.(floor := ParseInt(token.value));
      }
      return Pass;
    }

    /** `set_plan(value)` (murinoclub.py:533-541) on text, without a base url. */
    method SetPlan(value: string)
      modifies this
      ensures attrs == Places.SetPlan(old(attrs), value)
    {
      if value == "" {
        return;
      }
      if Contains(value, "http") {
        attrs := attrs.(plan := Some(Url(value)));
      } else {
        attrs := attrs.(plan := Some(OnSite(value)));
      }
    }

    // Availability and finish

    /** `set_sale_status(value)` (murinoclub.py:430-433). */
    method SetSaleStatus(value: string)
      modifies this
      ensures attrs == Availability.SetSaleStatus(old(attrs), value)
    {
      var v := RemoveRestricted(value, Availability.StatusParts);
      attrs := attrs.(saleStatus := Some(v));
    }

    /** `set_in_sale(value)` (murinoclub.py:360-418). */
    method SetInSale(value: Val) returns (out: Outcome<Error>)
      modifies this
      ensures attrs == Availability.SetInSale(cfg, old(attrs), value).e
      ensures out == Availability.SetInSale(cfg, old(attrs), value).out
    {
      var v := ApplySaleWord(value);
      v := ApplyStatusLists(v);
      if Truthy(v) {
        var n := Availability.IntOf(v);
        if n.Err? {
          return Fail(n.error);
        }
        v := n.value;
      }
      var a := Availability.Availability(v);
      if a.None? {
        return Fail(WrongInSale);
      }
      attrs := attrs.(inSale := a.value);
      return Pass;
    }

    /** The word chain of `set_in_sale` (murinoclub.py:361-406): the status and promotion it records, and the value it leaves. */
    method ApplySaleWord(value: Val) returns (v: Val)
      modifies this
      ensures attrs == Availability.WordStatus(old(attrs), value)
      ensures v == Availability.WordValue(value)
    {
      v := value;
      if value.Str? {
        var w := Availability.SaleWord(Lower(value.s));
        if w.status.Some? {
          SetSaleStatus(w.status.value);
        }
        if w.promotion {
          SetSale(Availability.Promotion);
        }
        if w.value.Some? {
          v := Int(w.value.value);
        }
      }
    }

    /** The configured status lists of `set_in_sale` (murinoclub.py:407-413). */
    method ApplyStatusLists(v: Val) returns (w: Val)
      modifies this
      ensures attrs == Availability.ListedStatus(cfg, old(attrs), v)
      ensures w == Availability.ListedValue(cfg, v)
    {
      if v in cfg.inSaleStatuses {
        w := Int(1);
      } else if v in cfg.reservedStatuses {
        w := Int(1);
        SetSaleStatus(Availability.BookedByList);
      } else if v in cfg.notInSaleStatuses {
        w := Int(0);
      } else {
        w := v;
      }
    }

    /** `set_finished(value)` (murinoclub.py:420-423). */
    method SetFinished(value: Val) returns (out: Outcome<Error>)
      modifies this
      ensures attrs == Availability.SetFinished(old(attrs), value).e
      ensures out == Availability.SetFinished(old(attrs), value).out
    {
      if !Availability.FlagValue(value) {
        return Fail(WrongFinished);
      }
      attrs := attrs.(finished := value);
      return Pass;
    }

    /** `set_furniture(value)` (murinoclub.py:486-489). */
    method SetFurniture(value: Val) returns (out: Outcome<Error>)
      modifies this
      ensures attrs == Availability.SetFurniture(old(attrs), value).e
      ensures out == Availability.SetFurniture(old(attrs), value).out
    {
      if !Availability.FlagValue(value) {
        return Fail(WrongFurniture);
      }
      attrs := attrs.(furniture := value);
      return Pass;
    }

    /** `set_finishing_name(value)` (murinoclub.py:454-468). */
    method SetFinishingName(value: string)
      modifies this
      ensures attrs == Availability.SetFinishingName(old(attrs), value)
    {
      var v := RemoveRestricted(value, []);
      var none := SaysNotFinished(Lower(v));
      if none || v == "" {
        return;
      }
      var _ := SetFinished(Int(1));
      var bare := SaysFinished(Lower(v));
      if bare {
        return;
      }
      attrs := attrs.(finishingName := Some(v));
    }

    /** The first loop of `set_finishing_name` (murinoclub.py:459-461): the text holds a no-finish word. */
    static method SaysNotFinished(l: string) returns (b: bool)
      ensures b <==> ContainsAny(l, Availability.NotFinished)
    {
      var i := 0;
      while i < |Availability.NotFinished|
        invariant i <= |Availability.NotFinished|
        invariant forall k :: 0 <= k < i ==> !Contains(l, Availability.NotFinished[k])
      {
        if Contains(l, Availability.NotFinished[i]) {
          return true;
        }
        i := i + 1;
      }
      return false;
    }

    /** The second loop of `set_finishing_name` (murinoclub.py:465-467): the text is a bare yes. */
    static method SaysFinished(l: string) returns (b: bool)
      ensures b <==> l in Availability.FinishedWords
    {
      var i := 0;
      while i < |Availability.FinishedWords|
        invariant i <= |Availability.FinishedWords|
        invariant forall k :: 0 <= k < i ==> Availability.FinishedWords[k] != l
      {
        if Availability.FinishedWords[i] == l {
          return true;
        }
        i := i + 1;
      }
      return false;
    }

    // final_check

    /** `final_check()` (murinoclub.py:653-673). */
    method FinalCheck() returns (r: Result<bool, Error>)
      modifies this
      ensures attrs == Final.FinalCheck(cfg, old(attrs)).e
      ensures r == Final.FinalCheck(cfg, old(attrs)).out
    {
      var out := RunChecks();
      if out.Fail? {
        if !cfg.skipWrong {
          return Err(out.error);
        }
        attrs := attrs.(needSave := false);
        return Ok(false);
      }
      ClearRoomsByNotFlats();
      SetNotInSaleIfNoPrice();
      SwapBaseAndFinished();
      ClearSamePrices();
      if attrs.objType !in PossibleTypes {
        return Err(WrongObjType);
      }
      return Ok(true);
    }

    /** The checks of `final_check` that the configuration enables (murinoclub.py:655-658). */
    method RunChecks() returns (out: Outcome<Error>)
      modifies this
      ensures attrs == Final.Checks(cfg, old(attrs)).e
      ensures out == Final.Checks(cfg, old(attrs)).out
    {
      if cfg.validateData {
        out := ValidateObjData();
        if out.Fail? {
          return;
        }
      }
      if cfg.validatePrice {
        out := ValidatePrices();
        return;
      }
      return Pass;
    }

    /** `_validate_obj_data()` (murinoclub.py:702-721). */
    method ValidateObjData() returns (out: Outcome<Error>)
      ensures out == Final.ValidateObjData(attrs)
    {
      var e := attrs;
      if e.rooms.Count? && e.rooms.n > 10 && AreaSet(e.area) && e.area.value < 100.0 {
        return Fail(TooManyRoomsForArea);
      }
      if e.rooms.Count? && e.rooms.n > 30 {
        return Fail(TooManyRooms);
      }
      if e.floor.Some? && e.floor.value > 100 {
        return Fail(FloorTooHigh);
      }
      if e.objType == Flat || e.objType == Apartment {
        if AreaSet(e.area) && e.area.value < 10.0 {
          return Fail(FlatAreaTooSmall);
        }
        if AreaSet(e.area) && e.area.value > 3000.0 {
          return Fail(FlatAreaTooBig);
        }
      }
      if AreaSet(e.area) && AreaSet(e.livingArea) && e.livingArea.value > e.area.value {
        return Fail(LivingAreaTooBig);
      }
      if e.objType == Parking && AreaSet(e.area) && e.area.value > 50.0 {
        return Fail(ParkingAreaTooBig);
      }
      if AreaSet(e.area) && e.area.value <= 1.0 {
        return Fail(AreaTooSmall);
      }
      return Pass;
    }

    /** `_validate_prices()` (murinoclub.py:723-752): the pairs are swapped in place where allowed. */
    method ValidatePrices() returns (out: Outcome<Error>)
      modifies this
      ensures attrs == Final.ValidatePrices(cfg, old(attrs)).e
      ensures out == Final.ValidatePrices(cfg, old(attrs)).out
    {
      out := OrderBaseSale();
      if out.Fail? {
        return;
      }
      out := OrderFinished();
      if out.Fail? {
        return;
      }
      var d := attrs.discountPercent;
      if d.Some? && d.value != 0.0 && d.value > 30.0 {
        return Fail(DiscountTooBig);
      }
      out := MinimumCheck();
    }

    /** The base and sale prices of `_validate_prices` (murinoclub.py:724-730): swapped or refused when out of order. */
    method OrderBaseSale() returns (out: Outcome<Error>)
      modifies this
      ensures !cfg.swapWrongPrices && !Final.Ordered(old(attrs).priceBase, old(attrs).priceSale) ==>
        attrs == old(attrs) && out == Fail(WrongSalePrice)
      ensures cfg.swapWrongPrices || Final.Ordered(old(attrs).priceBase, old(attrs).priceSale) ==>
        attrs == Final.OrderBaseSale(old(attrs)) && out == Pass
    {
      if PriceSet(attrs.priceBase) && PriceSet(attrs.priceSale) && attrs.priceBase.value < attrs.priceSale.value {
        if !cfg.swapWrongPrices {
          return Fail(WrongSalePrice);
        }
        attrs := attrs.(priceBase := attrs.priceSale, priceSale := attrs.priceBase);
      }
      return Pass;
    }

    /** The finished prices of `_validate_prices` (murinoclub.py:732-739): swapped or refused when out of order. */
    method OrderFinished() returns (out: Outcome<Error>)
      modifies this
      ensures !cfg.swapWrongPrices && !Final.Ordered(old(attrs).priceFinished, old(attrs).priceFinishedSale) ==>
        attrs == old(attrs) && out == Fail(WrongFinishedSalePrice)
      ensures cfg.swapWrongPrices || Final.Ordered(old(attrs).priceFinished, old(attrs).priceFinishedSale) ==>
        attrs == Final.OrderFinished(old(attrs)) && out == Pass
    {
      if PriceSet(attrs.priceFinished) && PriceSet(attrs.priceFinishedSale) && attrs.priceFinished.value < attrs.priceFinishedSale.value {
        if !cfg.swapWrongPrices {
          return Fail(WrongFinishedSalePrice);
        }
        attrs := attrs.(priceFinished := attrs.priceFinishedSale, priceFinishedSale := attrs.priceFinished);
      }
      return Pass;
    }

    /** The minimum checks of `_validate_prices` (murinoclub.py:744-752). */
    method MinimumCheck() returns (out: Outcome<Error>)
      ensures out == Final.MinimumCheck(cfg, attrs)
    {
      var e := attrs;
      var m := cfg.minimalAllowedPrice;
      if e.objType == Flat || e.objType == Commercial || e.objType == Apartment {
        if PriceSet(e.priceSale) && e.priceSale.value < m {
          return Fail(PriceTooSmall(SaleField));
        }
        if PriceSet(e.priceBase) && e.priceBase.value < m {
          return Fail(PriceTooSmall(BaseField));
        }
        if PriceSet(e.priceFinishedSale) && e.priceFinishedSale.value < m {
          return Fail(PriceTooSmall(FinishedSaleField));
        }
        if PriceSet(e.priceFinished) && e.priceFinished.value < m {
          return Fail(PriceTooSmall(FinishedField));
        }
      }
      return Pass;
    }

    /** `_clear_rooms_by_not_flats()` (murinoclub.py:698-700). */
    method ClearRoomsByNotFlats()
      modifies this
      ensures attrs == Final.ClearRoomsByNotFlats(old(attrs))
    {
      if attrs.objType == Parking || attrs.objType == Storeroom {
        attrs := attrs.(rooms := NoRooms);
      }
    }

    /** `_set_not_in_sale_if_no_price()` (murinoclub.py:675-678). */
    method SetNotInSaleIfNoPrice()
      modifies this
      ensures attrs == Final.SetNotInSaleIfNoPrice(old(attrs))
    {
      var e := attrs;
      if !(PriceSet(e.priceBase) || PriceSet(e.priceSale) || PriceSet(e.priceFinished) || PriceSet(e.priceFinishedSale)) {
        attrs := attrs.(inSale := Some(0));
      }
    }

    /** `_swap_base_price_and_finish_price()` (murinoclub.py:680-687). */
    method SwapBaseAndFinished()
      modifies this
      ensures attrs == Final.SwapBaseAndFinished(old(attrs))
    {
      if attrs.finished == Int(1) && PriceSet(attrs.priceBase) && !PriceSet(attrs.priceFinished) {
        attrs := attrs.(priceFinished := attrs.priceBase, priceBase := None);
      }
      if attrs.finished == Int(1) && PriceSet(attrs.priceSale) && !PriceSet(attrs.priceFinishedSale) {
        attrs := attrs.(priceFinishedSale := attrs.priceSale, priceSale := None);
      }
    }

    /** `_clear_same_prices()` (murinoclub.py:689-696). */
    method ClearSamePrices()
      modifies this
      ensures attrs == Final.ClearSamePrices(old(attrs))
    {
      if PriceSet(attrs.priceBase) && PriceSet(attrs.priceSale) && attrs.priceBase == attrs.priceSale {
        attrs := attrs.(priceSale := None);
      }
      if PriceSet(attrs.priceFinished) && PriceSet(attrs.priceFinishedSale) && attrs.priceFinished == attrs.priceFinishedSale {
        attrs := attrs.(priceFinishedSale := None);
      }
    }
  }
}
