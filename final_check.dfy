/**
 * `final_check` and its helpers (murinoclub.py:653-752): the record checks,
 * the price checks that may swap a price pair, the rewrites that follow a
 * passing check, and the handling of `_skip_wrong`.
 */
module FinalCheck {
  import opened Results
  import opened Errors
  import opened EstateValues

  // ---------------------------------------------------------------------
  // _validate_obj_data

  /** The flat-like types whose area the record check bounds. */
  predicate FlatLike(t: ObjType) {
    t == Flat || t == Apartment
  }

  /** `_validate_obj_data` (murinoclub.py:702-721): the first check that fails, in the source's order. */
  function ValidateObjData(e: Estate): Outcome<Error> {
    var area := if AreaSet(e.area) then e.area.value else 0.0;
    if e.rooms.Count? && e.rooms.n > 10 && AreaSet(e.area) && area < 100.0 then Fail(TooManyRoomsForArea)
    else if e.rooms.Count? && e.rooms.n > 30 then Fail(TooManyRooms)
    else if e.floor.Some? && e.floor.value > 100 then Fail(FloorTooHigh)
    else if FlatLike(e.objType) && AreaSet(e.area) && area < 10.0 then Fail(FlatAreaTooSmall)
    else if FlatLike(e.objType) && AreaSet(e.area) && area > 3000.0 then Fail(FlatAreaTooBig)
    else if AreaSet(e.area) && AreaSet(e.livingArea) && e.livingArea.value > area then Fail(LivingAreaTooBig)
    else if e.objType == Parking && AreaSet(e.area) && area > 50.0 then Fail(ParkingAreaTooBig)
    else if AreaSet(e.area) && area <= 1.0 then Fail(AreaTooSmall)
    else Pass
  }

  /** What the record check demands, all at once: plausible rooms, floor and areas. */
  predicate ObjDataOk(e: Estate) {
    && (e.rooms.Count? ==> e.rooms.n <= 30 && (e.rooms.n > 10 && AreaSet(e.area) ==> e.area.value >= 100.0))
    && (e.floor.Some? ==> e.floor.value <= 100)
    && (AreaSet(e.area) ==> e.area.value > 1.0)
    && (AreaSet(e.area) && FlatLike(e.objType) ==> 10.0 <= e.area.value <= 3000.0)
    && (AreaSet(e.area) && e.objType == Parking ==> e.area.value <= 50.0)
    && (AreaSet(e.area) && AreaSet(e.livingArea) ==> e.livingArea.value <= e.area.value)
  }

  /** The record check passes exactly when every demand holds. */
  lemma {:induction false} ValidateObjDataIff(e: Estate)
    ensures ValidateObjData(e).Pass? <==> ObjDataOk(e)
  {
  }

  // ---------------------------------------------------------------------
  // _validate_prices

  /** The first price of a pair is not below the second, where both are set. */
  predicate Ordered(hi: Option<int>, lo: Option<int>) {
    PriceSet(hi) && PriceSet(lo) ==> hi.value >= lo.value
  }

  /** A set price is not below the minimum. */
  predicate AboveMinimum(p: Option<int>, m: int) {
    PriceSet(p) ==> p.value >= m
  }

  /** The types whose prices the minimum bounds. */
  predicate PricedType(t: ObjType) {
    t == Flat || t == Commercial || t == Apartment
  }

  /** The discount is not above 30 percent, where it is set. */
  predicate DiscountOk(e: Estate) {
    e.discountPercent.Some? && e.discountPercent.value != 0.0 ==> e.discountPercent.value <= 30.0
  }

  /** Every set price of a priced type is at least `_minimal_allowed_price`. */
  predicate MinimumOk(cfg: Config, e: Estate) {
    PricedType(e.objType) ==>
      && AboveMinimum(e.priceSale, cfg.minimalAllowedPrice)
      && AboveMinimum(e.priceBase, cfg.minimalAllowedPrice)
      && AboveMinimum(e.priceFinishedSale, cfg.minimalAllowedPrice)
      && AboveMinimum(e.priceFinished, cfg.minimalAllowedPrice)
  }

  /** A price pair in order: swapped where the second is the larger. */
  function OrderPair(hi: Option<int>, lo: Option<int>): (r: (Option<int>, Option<int>))
    ensures Ordered(r.0, r.1)
    ensures (r.0 == hi && r.1 == lo) || (r.0 == lo && r.1 == hi)
    ensures Ordered(hi, lo) ==> r == (hi, lo)
  {
    if PriceSet(hi) && PriceSet(lo) && hi.value < lo.value then (lo, hi) else (hi, lo)
  }

  /** The base and sale prices after the first check passed. */
  function OrderBaseSale(e: Estate): (r: Estate)
    ensures r == e.(priceBase := r.priceBase, priceSale := r.priceSale)
  {
    var p := OrderPair(e.priceBase, e.priceSale);
    e.(priceBase := p.0, priceSale := p.1)
  }

  /** The finished prices after the second check passed. */
  function OrderFinished(e: Estate): (r: Estate)
    ensures r == e.(priceFinished := r.priceFinished, priceFinishedSale := r.priceFinishedSale)
  {
    var p := OrderPair(e.priceFinished, e.priceFinishedSale);
    e.(priceFinished := p.0, priceFinishedSale := p.1)
  }

  /** The minimum checks of `_validate_prices` in the source's order (murinoclub.py:744-752). */
  function MinimumCheck(cfg: Config, e: Estate): (r: Outcome<Error>)
    ensures r.Pass? <==> MinimumOk(cfg, e)
  {
    var m := cfg.minimalAllowedPrice;
    if !PricedType(e.objType) then Pass
    else if !AboveMinimum(e.priceSale, m) then Fail(PriceTooSmall(SaleField))
    else if !AboveMinimum(e.priceBase, m) then Fail(PriceTooSmall(BaseField))
    else if !AboveMinimum(e.priceFinishedSale, m) then Fail(PriceTooSmall(FinishedSaleField))
    else if !AboveMinimum(e.priceFinished, m) then Fail(PriceTooSmall(FinishedField))
    else Pass
  }

  /**
   * `_validate_prices` (murinoclub.py:723-752). A pair in the wrong order
   * is swapped in place under `_swap_wrong_prices` and raises otherwise; a
   * swap made before a later check raises stays made.
   */
  function ValidatePrices(cfg: Config, e: Estate): (r: Step)
    ensures r.e == e.(priceBase := r.e.priceBase, priceSale := r.e.priceSale,
      priceFinished := r.e.priceFinished, priceFinishedSale := r.e.priceFinishedSale)
  {
    if !cfg.swapWrongPrices && !Ordered(e.priceBase, e.priceSale) then Step(e, Fail(WrongSalePrice))
    else
      var e1 := OrderBaseSale(e);
      if !cfg.swapWrongPrices && !Ordered(e1.priceFinished, e1.priceFinishedSale) then Step(e1, Fail(WrongFinishedSalePrice))
      else
        var e2 := OrderFinished(e1);
        if !DiscountOk(e2) then Step(e2, Fail(DiscountTooBig))
        else Step(e2, MinimumCheck(cfg, e2))
  }

  /** The pair `(a, b)` holds the prices of `(c, d)`, in that order or swapped. */
  predicate SamePair(a: Option<int>, b: Option<int>, c: Option<int>, d: Option<int>) {
    (a == c && b == d) || (a == d && b == c)
  }

  /** What the price check demands of the record it is given. */
  predicate PricesOk(cfg: Config, e: Estate) {
    && (!cfg.swapWrongPrices ==> Ordered(e.priceBase, e.priceSale) && Ordered(e.priceFinished, e.priceFinishedSale))
    && DiscountOk(e)
    && MinimumOk(cfg, e)
  }

  /** Ordering a pair keeps each price's bound against the minimum. */
  lemma {:induction false} OrderPairMinimum(hi: Option<int>, lo: Option<int>, m: int)
    ensures var p := OrderPair(hi, lo);
      AboveMinimum(p.0, m) && AboveMinimum(p.1, m) <==> AboveMinimum(hi, m) && AboveMinimum(lo, m)
  {
  }

  /**
   * The price check passes exactly when its demands hold of the record it
   * is given, the minimum included although it is checked after the swaps;
   * a passing check leaves both pairs in order and above the minimum.
   */
  lemma {:induction false} ValidatePricesIff(cfg: Config, e: Estate)
    ensures var r := ValidatePrices(cfg, e);
      && (r.out.Pass? <==> PricesOk(cfg, e))
      && (r.out.Pass? ==> Ordered(r.e.priceBase, r.e.priceSale) && Ordered(r.e.priceFinished, r.e.priceFinishedSale))
      && (r.out.Pass? ==> MinimumOk(cfg, r.e))
  {
    var m := cfg.minimalAllowedPrice;
    OrderPairMinimum(e.priceBase, e.priceSale, m);
    OrderPairMinimum(e.priceFinished, e.priceFinishedSale, m);
    var e2 := OrderFinished(OrderBaseSale(e));
    assert MinimumOk(cfg, e2) <==> MinimumOk(cfg, e);
  }

  /**
   * Whatever its outcome, the price check only ever swaps a pair: under
   * `_swap_wrong_prices` it leaves both in order, and pairs already in
   * order are left as they are.
   */
  lemma {:induction false} ValidatePricesSwaps(cfg: Config, e: Estate)
    ensures var r := ValidatePrices(cfg, e);
      && (cfg.swapWrongPrices ==> Ordered(r.e.priceBase, r.e.priceSale) && Ordered(r.e.priceFinished, r.e.priceFinishedSale))
      && SamePair(r.e.priceBase, r.e.priceSale, e.priceBase, e.priceSale)
      && SamePair(r.e.priceFinished, r.e.priceFinishedSale, e.priceFinished, e.priceFinishedSale)
      && (Ordered(e.priceBase, e.priceSale) && Ordered(e.priceFinished, e.priceFinishedSale) ==> r.e == e)
  {
  }

  // ---------------------------------------------------------------------
  // the rewrites after a passing check

  /** `_clear_rooms_by_not_flats` (murinoclub.py:698-700). */
  function ClearRoomsByNotFlats(e: Estate): (r: Estate)
    ensures r == e.(rooms := r.rooms)
    ensures r.rooms == if e.objType == Parking || e.objType == Storeroom then NoRooms else e.rooms
  {
    if e.objType == Parking || e.objType == Storeroom then e.(rooms := NoRooms) else e
  }

  /** Some price field is set. */
  predicate AnyPrice(e: Estate) {
    PriceSet(e.priceBase) || PriceSet(e.priceSale) || PriceSet(e.priceFinished) || PriceSet(e.priceFinishedSale)
  }

  /** `_set_not_in_sale_if_no_price` (murinoclub.py:675-678). */
  function SetNotInSaleIfNoPrice(e: Estate): (r: Estate)
    ensures r == e.(inSale := r.inSale)
    ensures r.inSale == if AnyPrice(e) then e.inSale else Some(0)
  {
    if AnyPrice(e) then e else e.(inSale := Some(0))
  }

  /**
   * `_swap_base_price_and_finish_price` (murinoclub.py:680-687): for a
   * finished object, a base or sale price without its finished counterpart
   * moves there.
   */
  function SwapBaseAndFinished(e: Estate): (r: Estate)
    ensures r == e.(priceBase := r.priceBase, priceSale := r.priceSale,
      priceFinished := r.priceFinished, priceFinishedSale := r.priceFinishedSale)
    ensures AnyPrice(r) <==> AnyPrice(e)
    ensures Ordered(e.priceBase, e.priceSale) ==> Ordered(r.priceBase, r.priceSale)
    ensures r.finished == Int(1) ==>
      (PriceSet(r.priceBase) ==> PriceSet(r.priceFinished)) && (PriceSet(r.priceSale) ==> PriceSet(r.priceFinishedSale))
    ensures Settled(e) ==> r == e
  {
    var moveBase := e.finished == Int(1) && PriceSet(e.priceBase) && !PriceSet(e.priceFinished);
    var e1 := if moveBase then e.(priceFinished := e.priceBase, priceBase := None) else e;
    var moveSale := e.finished == Int(1) && PriceSet(e.priceSale) && !PriceSet(e.priceFinishedSale);
    if moveSale then e1.(priceFinishedSale := e.priceSale, priceSale := None) else e1
  }

  /** A finished object has no base or sale price left to move to its finished counterpart. */
  predicate Settled(e: Estate) {
    e.finished == Int(1) ==>
      (PriceSet(e.priceBase) ==> PriceSet(e.priceFinished)) && (PriceSet(e.priceSale) ==> PriceSet(e.priceFinishedSale))
  }

  /** Neither pair holds the same set price twice. */
  predicate PairsDistinct(e: Estate) {
    && (PriceSet(e.priceBase) && PriceSet(e.priceSale) ==> e.priceBase != e.priceSale)
    && (PriceSet(e.priceFinished) && PriceSet(e.priceFinishedSale) ==> e.priceFinished != e.priceFinishedSale)
  }

  /** `_clear_same_prices` (murinoclub.py:689-696): a sale price equal to its base is dropped. */
  function ClearSamePrices(e: Estate): (r: Estate)
    ensures r == e.(priceSale := r.priceSale, priceFinishedSale := r.priceFinishedSale)
    ensures AnyPrice(r) <==> AnyPrice(e)
    ensures PairsDistinct(r)
    ensures PairsDistinct(e) ==> r == e
    ensures Ordered(e.priceBase, e.priceSale) ==> Ordered(r.priceBase, r.priceSale)
    ensures Ordered(e.priceFinished, e.priceFinishedSale) ==> Ordered(r.priceFinished, r.priceFinishedSale)
    ensures r.priceSale.Some? ==> r.priceSale == e.priceSale
    ensures r.priceFinishedSale.Some? ==> r.priceFinishedSale == e.priceFinishedSale
  {
    var e1 := if PriceSet(e.priceBase) && PriceSet(e.priceSale) && e.priceBase == e.priceSale then e.(priceSale := None) else e;
    if PriceSet(e.priceFinished) && PriceSet(e.priceFinishedSale) && e.priceFinished == e.priceFinishedSale
    then e1.(priceFinishedSale := None) else e1
  }

  /** The four rewrites, in the source's order (murinoclub.py:665-668). */
  function Rewrite(e: Estate): Estate {
    ClearSamePrices(SwapBaseAndFinished(SetNotInSaleIfNoPrice(ClearRoomsByNotFlats(e))))
  }

  // ---------------------------------------------------------------------
  // final_check

  /** The record after `final_check`, and its return value or the exception it raises. */
  datatype Verdict = Verdict(e: Estate, out: Result<bool, Error>)

  /** The checks `final_check` runs, as the configuration enables them. */
  function Checks(cfg: Config, e: Estate): (r: Step)
    ensures r.e == e.(priceBase := r.e.priceBase, priceSale := r.e.priceSale,
      priceFinished := r.e.priceFinished, priceFinishedSale := r.e.priceFinishedSale)
  {
    var v := if cfg.validateData then ValidateObjData(e) else Pass;
    if v.Fail? then Step(e, v)
    else if cfg.validatePrice then ValidatePrices(cfg, e)
    else Step(e, Pass)
  }

  /**
   * `final_check()` (murinoclub.py:653-673). A failing check raises, or
   * under `_skip_wrong` marks the record not to be saved and returns
   * False; otherwise the rewrites run and a type outside
   * `possible_types` raises whatever `_skip_wrong` says.
   */
  function FinalCheck(cfg: Config, e: Estate): (r: Verdict)
    ensures r.e.objType == e.objType
  {
    var c := Checks(cfg, e);
    if c.out.Fail? then
      if cfg.skipWrong then Verdict(c.e.(needSave := false), Ok(false)) else Verdict(c.e, Err(c.out.error))
    else
      var e1 := Rewrite(c.e);
      if e1.objType !in PossibleTypes then Verdict(e1, Err(WrongObjType)) else Verdict(e1, Ok(true))
  }

  /** What the enabled checks demand. */
  predicate ChecksOk(cfg: Config, e: Estate) {
    (cfg.validateData ==> ObjDataOk(e)) && (cfg.validatePrice ==> PricesOk(cfg, e))
  }

  lemma {:induction false} ChecksIff(cfg: Config, e: Estate)
    ensures Checks(cfg, e).out.Pass? <==> ChecksOk(cfg, e)
  {
    ValidateObjDataIff(e);
    ValidatePricesIff(cfg, e);
  }

  /**
   * A failing check under `_skip_wrong` returns False and clears
   * `_need_save`, changing nothing else but the price pairs a check swapped
   * before another raised; without `_skip_wrong` the exception propagates.
   */
  lemma {:induction false} FinalCheckOnFailure(cfg: Config, e: Estate)
    requires !ChecksOk(cfg, e)
    ensures var r := FinalCheck(cfg, e);
      && (cfg.skipWrong ==> r.out == Ok(false) && !r.e.needSave)
      && (!cfg.skipWrong ==> r.out.Err? && r.e.needSave == e.needSave)
      && r.e == e.(needSave := r.e.needSave, priceBase := r.e.priceBase, priceSale := r.e.priceSale,
           priceFinished := r.e.priceFinished, priceFinishedSale := r.e.priceFinishedSale)
      && SamePair(r.e.priceBase, r.e.priceSale, e.priceBase, e.priceSale)
      && SamePair(r.e.priceFinished, r.e.priceFinishedSale, e.priceFinished, e.priceFinishedSale)
  {
    ChecksIff(cfg, e);
    ValidatePricesSwaps(cfg, e);
  }

  /** Every set price of `r` is a price `e` held. */
  predicate PricesFrom(r: Estate, e: Estate) {
    forall p :: p in [r.priceBase, r.priceSale, r.priceFinished, r.priceFinishedSale] && PriceSet(p) ==>
      p in [e.priceBase, e.priceSale, e.priceFinished, e.priceFinishedSale]
  }

  /**
   * What the rewrites leave: no rooms for parking and storerooms, not in
   * sale without any price, a base price above a sale price, and never the
   * same price twice in a pair; every price is one the record held.
   */
  lemma {:induction false} RewriteProperties(e: Estate)
    ensures var r := Rewrite(e);
      && r == e.(rooms := r.rooms, inSale := r.inSale, priceBase := r.priceBase, priceSale := r.priceSale,
           priceFinished := r.priceFinished, priceFinishedSale := r.priceFinishedSale)
      && (r.objType == Parking || r.objType == Storeroom ==> r.rooms == NoRooms)
      && (!AnyPrice(r) ==> r.inSale == Some(0))
      && PairsDistinct(r)
      && (Ordered(e.priceBase, e.priceSale) && PriceSet(r.priceBase) && PriceSet(r.priceSale) ==>
            r.priceBase.value > r.priceSale.value)
      && PricesFrom(r, e)
  {
    var e1 := SetNotInSaleIfNoPrice(ClearRoomsByNotFlats(e));
    var e2 := SwapBaseAndFinished(e1);
    var r := ClearSamePrices(e2);
    assert PricesFrom(e2, e1);
    assert PricesFrom(r, e2);
  }

  /**
   * A passing check runs the rewrites and returns True, or raises for a
   * type outside `possible_types` (the skip marker included) whatever
   * `_skip_wrong` says; the record keeps `_need_save` and has the
   * properties of the rewrites, the base price above the sale price once
   * the price check ran.
   */
  lemma {:induction false} FinalCheckOnSuccess(cfg: Config, e: Estate)
    requires ChecksOk(cfg, e)
    ensures var r := FinalCheck(cfg, e);
      && r.out == (if e.objType in PossibleTypes then Ok(true) else Err(WrongObjType))
      && r.e.needSave == e.needSave
      && (r.e.objType == Parking || r.e.objType == Storeroom ==> r.e.rooms == NoRooms)
      && (!AnyPrice(r.e) ==> r.e.inSale == Some(0))
      && (PriceSet(r.e.priceBase) && PriceSet(r.e.priceSale) ==> r.e.priceBase != r.e.priceSale)
      && (cfg.validatePrice && PriceSet(r.e.priceBase) && PriceSet(r.e.priceSale) ==> r.e.priceBase.value > r.e.priceSale.value)
      && (PriceSet(r.e.priceFinished) && PriceSet(r.e.priceFinishedSale) ==> r.e.priceFinished != r.e.priceFinishedSale)
  {
    ChecksIff(cfg, e);
    ValidatePricesIff(cfg, e);
    var c := Checks(cfg, e);
    assert cfg.validatePrice ==> Ordered(c.e.priceBase, c.e.priceSale);
    RewriteProperties(c.e);
  }

  /** The skip marker never survives `final_check`: it raises even under `_skip_wrong`. */
  lemma {:induction false} FinalCheckRejectsSkipType(cfg: Config, e: Estate)
    requires e.objType == SkipType
    ensures var r := FinalCheck(cfg, e);
      r.out == if ChecksOk(cfg, e) then Err(WrongObjType) else if cfg.skipWrong then Ok(false) else Err(Checks(cfg, e).out.error)
  {
    ChecksIff(cfg, e);
    TypeOfNameOfTypeName(SkipType);
  }

  /** Prices taken from a record that met the minimum still meet it. */
  lemma {:induction false} MinimumOfPricesFrom(cfg: Config, r: Estate, e: Estate)
    requires PricesFrom(r, e) && r.objType == e.objType && MinimumOk(cfg, e)
    ensures MinimumOk(cfg, r)
  {
    var ps := [r.priceBase, r.priceSale, r.priceFinished, r.priceFinishedSale];
    assert ps[0] == r.priceBase && ps[1] == r.priceSale && ps[2] == r.priceFinished && ps[3] == r.priceFinishedSale;
  }

  /** A record the rewrites already left settled is a fixed point of them. */
  lemma {:induction false} RewriteFixed(e: Estate)
    requires Settled(e) && PairsDistinct(e)
    requires e.objType == Parking || e.objType == Storeroom ==> e.rooms == NoRooms
    requires !AnyPrice(e) ==> e.inSale == Some(0)
    ensures Rewrite(e) == e
  {
  }

  /**
   * A second `final_check` on the record a successful one left returns
   * True and changes nothing, provided the finished pair is in order and
   * no base or sale price is left to move (both can fail: see the two
   * lemmas below).
   */
  lemma {:induction false} FinalCheckIdempotent(cfg: Config, e: Estate)
    requires FinalCheck(cfg, e).out == Ok(true)
    requires Ordered(FinalCheck(cfg, e).e.priceFinished, FinalCheck(cfg, e).e.priceFinishedSale)
    requires Settled(FinalCheck(cfg, e).e)
    ensures FinalCheck(cfg, FinalCheck(cfg, e).e) == FinalCheck(cfg, e)
  {
    var c := Checks(cfg, e);
    var r := Rewrite(c.e);
    ChecksIff(cfg, e);
    ValidatePricesIff(cfg, e);
    RewriteProperties(c.e);
    assert ChecksOk(cfg, r) by {
      if cfg.validatePrice {
        MinimumOfPricesFrom(cfg, r, c.e);
      }
    }
    ChecksIff(cfg, r);
    ValidatePricesSwaps(cfg, r);
    assert Checks(cfg, r) == Step(r, Pass);
    RewriteFixed(r);
  }

  /**
   * Moving a base price to a missing finished price can put the finished
   * pair out of order: the record passes once and then fails its own check.
   */
  lemma {:induction false} FinalCheckInvertsFinishedPair()
    ensures var e := NewEstate().(finished := Int(1), priceBase := Some(1000000), priceFinishedSale := Some(2000000));
      var r := FinalCheck(DefaultConfig(), e);
      && r.out == Ok(true)
      && r.e.priceFinished == Some(1000000) && r.e.priceFinishedSale == Some(2000000)
      && FinalCheck(DefaultConfig(), r.e).out == Err(WrongFinishedSalePrice)
  {
  }

  /**
   * Dropping a finished sale price equal to the finished price frees its
   * place for the sale price, which a second `final_check` then moves.
   */
  lemma {:induction false} FinalCheckMovesSaleLater()
    ensures var e := NewEstate().(finished := Int(1), priceBase := Some(800000), priceSale := Some(600000),
        priceFinished := Some(700000), priceFinishedSale := Some(700000));
      var r := FinalCheck(DefaultConfig(), e);
      && r.out == Ok(true) && r.e.priceSale == Some(600000) && r.e.priceFinishedSale == None
      && FinalCheck(DefaultConfig(), r.e).e.priceSale == None
      && FinalCheck(DefaultConfig(), r.e).e.priceFinishedSale == Some(600000)
  {
  }
}
