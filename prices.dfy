/**
 * Prices: `_decode_price`, `correct_price`, `_check_price_value` and the
 * price setters of `EstateObject` (murinoclub.py:170-226, 470-484).
 */
module Prices {
  import opened Results
  import opened Errors
  import opened Text
  import opened Utils
  import opened EstateValues

  /** `round(x, 0)` on a `Decimal`: to the nearest integer, ties to the even one. */
  function RoundHalfEven(x: real): (n: int)
    ensures x - 0.5 <= n as real <= x + 0.5
    ensures (n as real - x == 0.5 || x - n as real == 0.5) ==> n % 2 == 0
  {
    var f := x.Floor;
    var d := x - f as real;
    if d < 0.5 then f
    else if d > 0.5 then f + 1
    else if f % 2 == 0 then f else f + 1
  }

  /**
   * `d * m`, written as repeated addition so that the verifier reads it as
   * a plain function rather than a nonlinear term; `MulIsProduct` proves it
   * is the product.
   */
  function Mul(d: real, m: int): real
    decreases if m < 0 then -m else m
  {
    if m == 0 then 0.0
    else if m > 0 then Mul(d, m - 1) + d
    else Mul(d, m + 1) - d
  }

  lemma {:induction false} MulIsProduct(d: real, m: int)
    ensures Mul(d, m) == d * (m as real)
    decreases if m < 0 then -m else m
  {
    if m > 0 {
      MulIsProduct(d, m - 1);
    } else if m < 0 {
      MulIsProduct(d, m + 1);
    }
  }

  /** On integers the product is the integer product. */
  lemma {:induction false} MulOfInt(n: int, m: int)
    ensures Mul(n as real, m) == (n * m) as real
  {
    MulIsProduct(n as real, m);
    assert (n as real) * (m as real) == (n * m) as real;
  }

  /** Rounding leaves an integer as it is. */
  lemma {:induction false} RoundHalfEvenOfInt(n: int)
    ensures RoundHalfEven(n as real) == n
  {
  }

  /** The words that mark a price as "on request", "sold", "booked", ... (murinoclub.py:172-175). */
  const NoPriceWords: seq<string> := ["запрос", "прода", "брон", "указ", "обсуждае", "уточн", "индивид"]

  /** The `restricted_parts` of `_decode_price` (murinoclub.py:179-182), in order. */
  const PriceParts: seq<string> := ["cтоимость", "стоимость", "рублей", "цена базовая", "квартиры",
    "руб.", "pуб.", "p уб.", "руб", "цена", "выгода до", "выгода", "млн.",
    "rub", "млн", "от", "\U{20BD}", "р.", "до", ">",
    "р", "\U{A0}", " ", ":", "\U{2019}", "p", "\\s", "!", "\\*"]

  /** The price parts read as regexes. */
  const PricePatterns: seq<Pattern> := Rxs(PriceParts)

  /** The text a price string is reduced to before `Decimal()`: comma as point, restricted parts removed. */
  function PriceText(s: string): string {
    Cleaned(Replace(s, ",", "."), PricePatterns)
  }

  /**
   * `correct_price` (murinoclub.py:191-200) on the reduced text: the lower
   * bound of a range, and values below 1000 read as millions. `Decimal()`
   * of text that is no number raises.
   */
  function CorrectPrice(t: string): Result<real, Error>
  {
    match ParseDecimal(LowerBound(t))
    case None => Err(InvalidOperation)
    case Some(d) => Ok(Scaled(d))
  }

  /** A number below 1000 is read as millions and rounded to a whole number. */
  function Scaled(d: real): real {
    if d < 1000.0 then RoundHalfEven(d * 1000000.0) as real else d
  }

  /**
   * What `correct_price` computes: it fails exactly when the lower bound is
   * no number; a small number becomes the nearest whole number of roubles to
   * that many millions, a larger one stays as it is.
   */
  lemma {:induction false} CorrectPriceMeaning(t: string)
    ensures CorrectPrice(t).Err? <==> ParseDecimal(LowerBound(t)).None?
    ensures ParseDecimal(LowerBound(t)).Some? ==>
      var d := ParseDecimal(LowerBound(t)).value;
      var r := CorrectPrice(t).value;
      (d < 1000.0 ==> r.Floor as real == r && d * 1000000.0 - 0.5 <= r <= d * 1000000.0 + 0.5) &&
      (d >= 1000.0 ==> r == d)
  {
  }

  /** The part of `t` before the first `-` and then before the first en dash, when `t` has a digit. */
  function LowerBound(t: string): (r: string)
    ensures HasDigit(t) ==> !Contains(r, "-") || Contains(t, "\U{2013}")
    ensures !HasDigit(t) ==> r == t
  {
    if HasDigit(t) then
      var a := if Contains(t, "-") then Split(t, "-")[0] else t;
      SplitPartsFree(t, '-');
      ContainsChar(a, '-');
      if Contains(a, "\U{2013}") then Split(a, "\U{2013}")[0] else a
    else t
  }

  /**
   * `_decode_price(value, multi)` (murinoclub.py:170-189): `None` for an
   * empty or "on request" value, else the number times `multi`, rounded.
   */
  function DecodePrice(cfg: Config, value: Val, multi: int): (r: Result<Option<int>, Error>)
  {
    match value
    case Nil => Ok(None)
    case Int(i) =>
      if i == 0 then Ok(None)
      else if cfg.autoCorrectPrice then Err(TypeError)
      else Ok(Some(i * multi))
    case Str(s) =>
      if ContainsAny(Lower(s), NoPriceWords) || s in EmptyValues then Ok(None)
      else
        var t := PriceText(s);
        if t == "" then Ok(None)
        else
          var d := if cfg.autoCorrectPrice then CorrectPrice(t)
            else if ParseDecimal(t).Some? then Ok(ParseDecimal(t).value) else Err(InvalidOperation);
          if d.Err? then Err(d.error) else Ok(Some(RoundHalfEven(Mul(d.value, multi))))
  }

  /** What the decoder promises: no price for empty and "on request" text, the value itself for digits. */
  lemma {:induction false} DecodePriceCases(cfg: Config, value: Val, multi: int)
    ensures !Truthy(value) ==> DecodePrice(cfg, value, multi) == Ok(None)
    ensures value.Str? && (ContainsAny(Lower(value.s), NoPriceWords) || value.s in EmptyValues) ==>
      DecodePrice(cfg, value, multi) == Ok(None)
    ensures value.Int? && value.i != 0 && !cfg.autoCorrectPrice ==> DecodePrice(cfg, value, multi) == Ok(Some(value.i * multi))
  {
    if value.Str? && value.s == "" {
      RemoveEachOfEmpty(PricePatterns);
      assert PriceText(value.s) == "";
    }
  }

  /** Nothing is left to remove from empty text. */
  lemma {:induction false} RemoveEachOfEmpty(ps: seq<Pattern>)
    ensures RemoveEach("", ps) == ""
    decreases |ps|
  {
    if ps != [] {
      assert RemovePattern("", ps[0]) == "";
      RemoveEachOfEmpty(ps[1..]);
    }
  }

  /** The price of a plain number is its value times `multi`. */
  lemma {:induction false} DecodePriceOfNat(cfg: Config, n: nat, multi: int)
    requires !cfg.autoCorrectPrice
    requires n != 0
    ensures DecodePrice(cfg, Str(NatToString(n)), multi) == Ok(Some(n * multi))
  {
    NatToStringValue(n);
    DecodePriceOfDigits(cfg, NatToString(n), multi);
  }

  lemma {:induction false} DecodePriceOfDigits(cfg: Config, s: string, multi: int)
    requires !cfg.autoCorrectPrice
    requires |s| > 0 && AllDigits(s) && DigitsValue(s) != 0
    ensures DecodePrice(cfg, Str(s), multi) == Ok(Some(DigitsValue(s) * multi))
  {
    assert DigitsValue("0") == 0;
    NoWordInDigits(s);
    PriceTextOfDigits(s);
    ParseDecimalOfDigits(s);
    var n := DigitsValue(s);
    MulOfInt(n, multi);
    RoundHalfEvenOfInt(n * multi);
    assert !(ContainsAny(Lower(s), NoPriceWords) || s in EmptyValues);
    assert PriceText(s) == s && s != "";
    assert ParseDecimal(s) == Some(n as real);
  }

  /** No word of `NoPriceWords` occurs in a digit string, and no such string is an empty value. */
  lemma {:induction false} NoWordInDigits(s: string)
    requires AllDigits(s) && |s| > 0 && s != "0"
    ensures !ContainsAny(Lower(s), NoPriceWords) && s !in EmptyValues
  {
    LowerDigits(s);
    forall i | 0 <= i < |NoPriceWords| ensures !Contains(s, NoPriceWords[i]) {
      var w := NoPriceWords[i];
      assert |w| > 0 && !IsDigit(w[0]);
      forall k | 0 <= k && k + |w| <= |s| ensures !OccursAt(s, w, k) {
        assert s[k..k + |w|][0] == s[k];
      }
    }
  }

  /** Lowering leaves digits alone. */
  lemma {:induction false} LowerDigits(s: string)
    requires AllDigits(s)
    ensures Lower(s) == s
  {
    assert forall i :: 0 <= i < |s| ==> !IsUpper(s[i]);
    assert forall i :: 0 <= i < |s| ==> Lower(s)[i] == LowerChar(s[i]) == s[i];
  }

  /** Reducing a digit string leaves it as it is. */
  lemma {:induction false} PriceTextOfDigits(s: string)
    requires AllDigits(s) && |s| > 0
    ensures PriceText(s) == s
  {
    assert ',' !in s by { assert !IsDigit(','); }
    CleanedOfDigits(s);
  }

  /** A digit string holds none of the price parts, so cleaning it changes nothing. */
  lemma {:induction false} CleanedOfDigits(s: string)
    requires AllDigits(s) && |s| > 0
    ensures Cleaned(s, PricePatterns) == s
  {
    PricePatternsMatchNoDigit(PricePatterns);
    DigitsUntouched(s, PricePatterns);
  }

  /** No price part starts with an atom that matches a digit. */
  lemma {:induction false} PricePatternsMatchNoDigit(ps: seq<Pattern>)
    requires ps == PricePatterns
    ensures forall i :: 0 <= i < |ps| ==> |ps[i]| > 0 && !DigitMatch(ps[i][0])
  {
    PricePatternsHeads();
    forall i | 0 <= i < |ps| ensures |ps[i]| > 0 && !DigitMatch(ps[i][0]) {
      NoDigitAtomMatch(ps[i][0]);
    }
  }

  /** `a` matches some digit. */
  predicate DigitMatch(a: Atom) {
    exists c :: IsDigit(c) && AtomMatches(a, c)
  }

  /** An atom that plainly matches no digit. */
  predicate NoDigitAtom(a: Atom) {
    match a
    case Char(c) => !IsDigit(LowerChar(c))
    case AnyChar => false
    case Space => true
  }

  lemma {:induction false} NoDigitAtomMatch(a: Atom)
    requires NoDigitAtom(a)
    ensures !DigitMatch(a)
  {
    forall c | IsDigit(c) ensures !AtomMatches(a, c) {
      assert !IsUpper(c);
    }
  }

  /** No price part begins with a digit. */
  lemma {:induction false} PricePatternsHeads()
    ensures forall i :: 0 <= i < |PricePatterns| ==> |PricePatterns[i]| > 0 && NoDigitAtom(PricePatterns[i][0])
  {
    PricePartsHeads();
    RxsAt(PriceParts);
    forall i | 0 <= i < |PricePatterns| ensures |PricePatterns[i]| > 0 && NoDigitAtom(PricePatterns[i][0]) {
      assert PricePatterns[i] == Rx(PriceParts[i]);
      RxFirst(PriceParts[i]);
    }
  }

  lemma {:induction false} PricePartsHeads()
    ensures forall i :: 0 <= i < |PriceParts| ==> NoDigitHead(PriceParts[i])
  {
    forall i | 0 <= i < |PriceParts| ensures NoDigitHead(PriceParts[i]) {
      // a case split over the 29 parts
      assert i == 0 || i == 1 || i == 2 || i == 3 || i == 4 || i == 5 || i == 6 || i == 7 || i == 8 || i == 9 || i == 10 || i == 11 || i == 12 || i == 13 || i == 14 || i == 15 || i == 16 || i == 17 || i == 18 || i == 19 || i == 20 || i == 21 || i == 22 || i == 23 || i == 24 || i == 25 || i == 26 || i == 27 || i == 28;
    }
  }

  /** The first atom of a pattern matches no digit, read off its first two characters. */
  predicate NoDigitHead(p: string) {
    && |p| > 0 && p[0] != '.'
    && (if p[0] == '\\' && |p| >= 2 then p[1] == 's' || !IsDigit(LowerChar(p[1])) else !IsDigit(LowerChar(p[0])))
  }

  lemma {:induction false} RxFirst(p: string)
    requires NoDigitHead(p)
    ensures |Rx(p)| > 0 && NoDigitAtom(Rx(p)[0])
  {
  }

  /** Removing patterns that begin with no digit leaves a stripped digit string as it is. */
  lemma {:induction false} DigitsUntouched(s: string, ps: seq<Pattern>)
    requires AllDigits(s) && |s| > 0
    requires forall i :: 0 <= i < |ps| ==> |ps[i]| > 0 && !DigitMatch(ps[i][0])
    ensures Cleaned(s, ps) == s
  {
    assert IsStripped(s) by { assert !IsSpace(s[0]) && !IsSpace(s[|s| - 1]); }
    RemoveEachDigits(s, ps);
  }

  lemma {:induction false} RemoveEachDigits(s: string, ps: seq<Pattern>)
    requires AllDigits(s) && |s| > 0
    requires forall i :: 0 <= i < |ps| ==> |ps[i]| > 0 && !DigitMatch(ps[i][0])
    ensures RemoveEach(s, ps) == s
    decreases |ps|
  {
    if ps != [] {
      RemovePatternDigits(s, ps[0]);
      assert IsStripped(s) by { assert !IsSpace(s[0]) && !IsSpace(s[|s| - 1]); }
      RemoveEachDigits(s, ps[1..]);
    }
  }

  lemma {:induction false} RemovePatternDigits(s: string, p: Pattern)
    requires AllDigits(s)
    requires |p| > 0 && !DigitMatch(p[0])
    ensures RemovePattern(s, p) == s
    decreases |s|
  {
    if |s| >= |p| {
      assert IsDigit(s[0]);
      assert !AtomMatches(p[0], s[0]);
      assert !MatchesAt(s, p, 0);
      RemovePatternDigits(s[1..], p);
      assert [s[0]] + s[1..] == s;
    }
  }

  /** `_check_price_value` (murinoclub.py:202-206): a set price must lie in `[10000, 10^11]`. */
  function CheckPriceValue(cfg: Config, price: Option<int>): (r: Outcome<Error>)
    ensures r.Fail? ==> r.error == WrongPriceValue
  {
    if PriceSet(price) && !cfg.ignoreSmallPrices && ((0 < price.value < 10000) || price.value > 1000000 * 100000)
    then Fail(WrongPriceValue)
    else Pass
  }

  /** The check raises exactly for a price in `(0, 10000)` or above `10^11`, and never when small prices are ignored. */
  lemma {:induction false} CheckPriceValueRange(cfg: Config, price: Option<int>)
    ensures CheckPriceValue(cfg, price).Fail? <==>
      !cfg.ignoreSmallPrices && price.Some? && (0 < price.value < 10000 || price.value > 100000000000)
    ensures price.None? || price == Some(0) || cfg.ignoreSmallPrices ==> CheckPriceValue(cfg, price) == Pass
  {
  }

  // ---------------------------------------------------------------------
  // Setters

  /** The multiplier `set_price_base` uses: the project's, when one is set (murinoclub.py:209-210). */
  function EffectiveMulti(cfg: Config, multi: int): int {
    if cfg.projectPriceMulti != 0 then cfg.projectPriceMulti else multi
  }

  /** A value holding `$` marks the price as dollars and loses its `$` signs (murinoclub.py:211-213). */
  predicate IsDollar(value: Val) {
    value.Str? && Contains(value.s, "$")
  }

  function WithoutDollar(value: Val): Val {
    if IsDollar(value) then Str(Replace(value.s, "$", "")) else value
  }

  /** The base and sale prices `set_price_base` leaves, and whether it raised. */
  datatype BasePrices = BasePrices(base: Option<int>, sale: Option<int>, out: Outcome<Error>)

  /**
   * How a decoded sale price `ps` meets the decoded base `b`
   * (murinoclub.py:215-225); `sale0` is the sale price held before.
   */
  function OrderPrices(b: Option<int>, sale0: Option<int>, ps: Option<int>): (Option<int>, Option<int>) {
    if !PriceSet(ps) then (b, sale0)
    else if !PriceSet(b) then (ps, sale0)
    else if ps.value < b.value then (b, ps)
    else if ps.value > b.value then (ps, b)
    else (b, sale0)
  }

  /**
   * The price part of `set_price_base` (murinoclub.py:214-225). The base
   * price is assigned before `sale` is decoded and before the range check,
   * so a raise there keeps it.
   */
  function BasePriceUpdate(cfg: Config, base0: Option<int>, sale0: Option<int>, value: Val, sale: Val, m: int): (r: BasePrices)
    ensures r.out.Pass? ==> CheckPriceValue(cfg, r.base).Pass?
  {
    match DecodePrice(cfg, value, m)
    case Err(err) => BasePrices(base0, sale0, Fail(err))
    case Ok(b) =>
      if !Truthy(sale) then BasePrices(b, sale0, CheckPriceValue(cfg, b))
      else
        match DecodePrice(cfg, sale, m)
        case Err(err) => BasePrices(b, sale0, Fail(err))
        case Ok(ps) =>
          var (nb, ns) := OrderPrices(b, sale0, ps);
          BasePrices(nb, ns, CheckPriceValue(cfg, nb))
  }

  /** `set_price_base(value, sale, multi)` (murinoclub.py:208-226). */
  function SetPriceBase(cfg: Config, e: Estate, value: Val, sale: Val, multi: int): Step {
    var u := BasePriceUpdate(cfg, e.priceBase, e.priceSale, WithoutDollar(value), sale, EffectiveMulti(cfg, multi));
    Step(e.(currency := if IsDollar(value) then Some("$") else e.currency, priceBase := u.base, priceSale := u.sale), u.out)
  }

  /**
   * Two different prices end up ordered: the larger is the base, the smaller
   * the sale price; equal prices leave the sale price as it was.
   */
  lemma {:induction false} OrderPricesOrders(b: int, sale0: Option<int>, s: int)
    requires b != 0 && s != 0
    ensures var (nb, ns) := OrderPrices(Some(b), sale0, Some(s));
      && nb == Some(if b < s then s else b)
      && ns == (if b == s then sale0 else Some(if b < s then b else s))
      && (ns.Some? && ns != sale0 ==> nb.value > ns.value)
  {
  }

  /** Without a base price, the sale price becomes the base and the sale field is left alone. */
  lemma {:induction false} OrderPricesFromSale(b: Option<int>, sale0: Option<int>, s: int)
    requires !PriceSet(b) && s != 0
    ensures OrderPrices(b, sale0, Some(s)) == (Some(s), sale0)
  {
  }

  /** The ordering rules as `set_price_base` applies them to what its two arguments decode to. */
  lemma {:induction false} SetPriceBaseOrders(cfg: Config, e: Estate, value: Val, sale: Val, multi: int)
    requires Truthy(sale)
    ensures var m := EffectiveMulti(cfg, multi);
      var db := DecodePrice(cfg, WithoutDollar(value), m);
      var ds := DecodePrice(cfg, sale, m);
      var r := SetPriceBase(cfg, e, value, sale, multi);
      db.Ok? && ds.Ok? ==>
        && (r.e.priceBase, r.e.priceSale) == OrderPrices(db.value, e.priceSale, ds.value)
        && r.out == CheckPriceValue(cfg, r.e.priceBase)
  {
  }

  /** A base price that `set_price_base` returns with passes the range check; only prices and currency change. */
  lemma {:induction false} SetPriceBasePlausible(cfg: Config, e: Estate, value: Val, sale: Val, multi: int)
    requires !cfg.ignoreSmallPrices
    ensures var r := SetPriceBase(cfg, e, value, sale, multi);
      r.out.Pass? && r.e.priceBase.Some? ==> !(0 < r.e.priceBase.value < 10000) && r.e.priceBase.value <= 100000000000
  {
    var u := BasePriceUpdate(cfg, e.priceBase, e.priceSale, WithoutDollar(value), sale, EffectiveMulti(cfg, multi));
    CheckPriceValueRange(cfg, u.base);
  }

  /** The price fields with a plain setter. */
  datatype PriceSlot = SaleSlot | FinishedSlot | FinishedSaleSlot | FurnitureSlot

  function WithPrice(e: Estate, slot: PriceSlot, p: Option<int>): Estate {
    match slot
    case SaleSlot => e.(priceSale := p)
    case FinishedSlot => e.(priceFinished := p)
    case FinishedSaleSlot => e.(priceFinishedSale := p)
    case FurnitureSlot => e.(furniturePrice := p)
  }

  function PriceIn(e: Estate, slot: PriceSlot): Option<int> {
    match slot
    case SaleSlot => e.priceSale
    case FinishedSlot => e.priceFinished
    case FinishedSaleSlot => e.priceFinishedSale
    case FurnitureSlot => e.furniturePrice
  }

  /**
   * `set_price_sale`, `set_price_finished`, `set_price_finished_sale` and
   * `set_furniture_price` (murinoclub.py:470-484): decode, assign, check.
   */
  function SetPrice(cfg: Config, e: Estate, slot: PriceSlot, value: Val, multi: int): Step {
    match DecodePrice(cfg, value, multi)
    case Err(err) => Step(e, Fail(err))
    case Ok(p) => Step(WithPrice(e, slot, p), CheckPriceValue(cfg, p))
  }

  /** A plain price setter writes its own field with the decoded price and nothing else, and raises exactly for an implausible price. */
  lemma {:induction false} SetPriceEffect(cfg: Config, e: Estate, slot: PriceSlot, value: Val, multi: int)
    ensures var r := SetPrice(cfg, e, slot, value, multi);
      match DecodePrice(cfg, value, multi)
      case Err(err) => r == Step(e, Fail(err))
      case Ok(p) =>
        && PriceIn(r.e, slot) == p
        && (forall other :: other != slot ==> PriceIn(r.e, other) == PriceIn(e, other))
        && (r.out.Fail? <==> !cfg.ignoreSmallPrices && p.Some? && (0 < p.value < 10000 || p.value > 100000000000))
    ensures var r := SetPrice(cfg, e, slot, value, multi);
      r.e == WithPrice(e, slot, PriceIn(r.e, slot))
  {
    var d := DecodePrice(cfg, value, multi);
    if d.Ok? {
      CheckPriceValueRange(cfg, d.value);
      WithPriceFrame(e, slot, d.value);
    }
  }

  /** Writing one price slot sets that slot and leaves the other three as they were. */
  lemma {:induction false} WithPriceFrame(e: Estate, slot: PriceSlot, p: Option<int>)
    ensures PriceIn(WithPrice(e, slot, p), slot) == p
    ensures forall other :: other != slot ==> PriceIn(WithPrice(e, slot, p), other) == PriceIn(e, other)
  {
    forall other | other != slot ensures PriceIn(WithPrice(e, slot, p), other) == PriceIn(e, other) {
      match slot
      case SaleSlot =>
      case FinishedSlot =>
      case FinishedSaleSlot =>
      case FurnitureSlot =>
    }
  }
}
