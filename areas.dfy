/**
 * Areas and other decimal fields: `_area_cleaner`, `set_area`,
 * `set_living_area`, `find_living_area_from_rooms`, `set_ceil` and
 * `set_discount_percent` (murinoclub.py:228-240, 435-447, 579-583, 644-651).
 */
module Areas {
  import opened Results
  import opened Errors
  import opened Text
  import opened Utils
  import opened EstateValues

  /**
   * `_area_cleaner(value)` (murinoclub.py:228-235): comma as point, then
   * the first number in the text. Text without a digit has no first match
   * (`IndexError`), and `Decimal(None)` raises `TypeError`.
   */
  function AreaCleaner(value: Val): (r: Result<real, Error>)
    ensures value.Int? ==> r == Ok(value.i as real)
    ensures value.Nil? ==> r == Err(TypeError)
    ensures value.Str? ==> (r.Err? <==> !HasDigit(Replace(value.s, ",", ".")))
    ensures r.Err? ==> r.error == TypeError || r.error == IndexError
  {
    match value
    case Str(s) =>
      var tok := FirstDecimal(Replace(s, ",", "."));
      if tok.None? then Err(IndexError) else Ok(ParseDecimal(tok.value).value)
    case Int(i) => Ok(i as real)
    case Nil => Err(TypeError)
  }

  /** On a run of digits the longest digit run starting at `i` reaches the end. */
  lemma {:induction false} DigitRunOfDigits(s: string, i: nat)
    requires i <= |s| && AllDigits(s)
    ensures DigitRun(s, i) == |s| - i
  {
  }

  /** The first number in a run of digits is the whole run. */
  lemma {:induction false} FirstDecimalOfDigits(s: string)
    requires |s| > 0 && AllDigits(s)
    ensures FirstDecimal(s) == Some(s)
  {
    DigitRunOfDigits(s, 0);
    assert AfterSign(s, 0) == 0;
    assert DecimalAt(s, 0);
    assert !FractionAt(s, 0);
    assert DecimalEnd(s, 0) == |s|;
    assert s[0..|s|] == s;
  }

  /** A plain number reads as its value. */
  lemma {:induction false} AreaCleanerOfDigits(s: string)
    requires |s| > 0 && AllDigits(s)
    ensures AreaCleaner(Str(s)) == Ok(DigitsValue(s) as real)
  {
    assert ',' !in s;
    assert Replace(s, ",", ".") == s;
    FirstDecimalOfDigits(s);
    ParseDecimalOfDigits(s);
  }

  /** A decimal comma is read as a point: `whole,frac` is `whole + 0.frac`. */
  lemma {:induction false} AreaCleanerOfComma(whole: string, frac: string)
    requires AllDigits(whole) && AllDigits(frac) && |frac| > 0
    ensures AreaCleaner(Str(whole + "," + frac)) == Ok(DigitsValue(whole) as real + FractionValue(frac))
  {
    var s := whole + "," + frac;
    var t := whole + "." + frac;
    ReplaceComma(whole, frac);
    FirstDecimalOfFraction(whole, frac);
    ParseDecimalOfFraction(whole, frac);
  }

  lemma {:induction false} ReplaceComma(whole: string, frac: string)
    requires AllDigits(whole) && AllDigits(frac)
    ensures Replace(whole + "," + frac, ",", ".") == whole + "." + frac
  {
    var s := whole + "," + frac;
    var t := whole + "." + frac;
    ReplaceChar(s, ',', '.');
    var r := Replace(s, [','], ['.']);
    assert |r| == |t|;
    forall i | 0 <= i < |t| ensures r[i] == t[i] {
      if i < |whole| {
        assert s[i] == whole[i] && t[i] == whole[i] && IsDigit(whole[i]);
      } else if i == |whole| {
        assert s[i] == ',' && t[i] == '.';
      } else {
        var j := i - |whole| - 1;
        assert s[i] == frac[j] && t[i] == frac[j] && IsDigit(frac[j]);
      }
    }
    assert r == t;
  }

  /** The first number in `whole.frac` is all of it. */
  lemma {:induction false} FirstDecimalOfFraction(whole: string, frac: string)
    requires AllDigits(whole) && AllDigits(frac) && |frac| > 0
    ensures FirstDecimal(whole + "." + frac) == Some(whole + "." + frac)
  {
    var t := whole + "." + frac;
    var k := |whole|;
    assert t[..k] == whole;
    DigitRunPrefix(t, whole);
    assert forall j :: k + 1 <= j < |t| ==> t[j] == frac[j - k - 1];
    DigitRunSuffix(t, k + 1);
    assert AfterSign(t, 0) == 0 by {
      assert t[0] == if k > 0 then whole[0] else '.';
    }
    assert t[k] == '.' && IsDigit(t[k + 1]);
    assert FractionAt(t, 0);
    assert DecimalAt(t, 0);
    assert DecimalEnd(t, 0) == |t|;
    assert t[0..|t|] == t;
  }

  /** The digit run at the head of `t` is the digit prefix `whole`, when a non-digit follows it. */
  lemma {:induction false} DigitRunPrefix(t: string, whole: string)
    requires AllDigits(whole) && |whole| < |t| && t[..|whole|] == whole && !IsDigit(t[|whole|])
    ensures DigitRun(t, 0) == |whole|
  {
    var n := DigitRun(t, 0);
    assert forall k :: 0 <= k < |whole| ==> t[k] == t[..|whole|][k];
    assert forall k :: 0 <= k < |whole| ==> IsDigit(t[k]);
  }

  /** The digit run from `i` to the end of `t`, when everything from `i` is a digit. */
  lemma {:induction false} DigitRunSuffix(t: string, i: nat)
    requires i <= |t| && forall j :: i <= j < |t| ==> IsDigit(t[j])
    ensures DigitRun(t, i) == |t| - i
  {
  }

  /** `Decimal('whole.frac')` is `whole + 0.frac`. */
  lemma {:induction false} ParseDecimalOfFraction(whole: string, frac: string)
    requires AllDigits(whole) && AllDigits(frac) && |frac| > 0
    ensures ParseDecimal(whole + "." + frac) == Some(DigitsValue(whole) as real + FractionValue(frac))
  {
    var t := whole + "." + frac;
    assert t[|t| - 1] == frac[|frac| - 1];
    assert t[0] == if |whole| > 0 then whole[0] else '.';
    ParseDecimalUnsigned(t);
    UnsignedDecimalOfFraction(whole, frac);
  }

  /** The unsigned reading of `whole.frac`. */
  lemma {:induction false} UnsignedDecimalOfFraction(whole: string, frac: string)
    requires AllDigits(whole) && AllDigits(frac) && |frac| > 0
    ensures UnsignedDecimal(whole + "." + frac) == Some(DigitsValue(whole) as real + FractionValue(frac))
  {
    var t := whole + "." + frac;
    assert t[|whole|] == '.';
    IndexOfChar(t, '.', |whole|);
    assert t[..|whole|] == whole;
    assert t[|whole| + 1..] == frac;
  }

  // ---------------------------------------------------------------------
  // Setters

  /** The guard of `set_area` and its kin: a truthy value that is no empty-value text. */
  predicate Given(v: Val) {
    Truthy(v) && (v.Str? ==> Strip(Lower(v.s)) !in EmptyValues)
  }

  /** `set_area(value)` (murinoclub.py:237-240). */
  function SetArea(e: Estate, value: Val): (r: Step)
    ensures r.e == e.(area := r.e.area)
    ensures !Given(value) ==> r == Step(e, Pass)
    ensures Given(value) ==> match AreaCleaner(value)
      case Ok(a) => r == Step(e.(area := Some(a)), Pass)
      case Err(err) => r == Step(e, Fail(err))
  {
    if !Given(value) then Step(e, Pass)
    else match AreaCleaner(value)
      case Ok(a) => Step(e.(area := Some(a)), Pass)
      case Err(err) => Step(e, Fail(err))
  }

  /**
   * `set_living_area(value)` (murinoclub.py:435-440): refused once room
   * areas have been summed into the living area.
   */
  function SetLivingArea(e: Estate, value: Val): (r: Step)
    ensures r.e == e.(livingArea := r.e.livingArea)
    ensures !Given(value) ==> r == Step(e, Pass)
    ensures Given(value) && e.usedRoomsForLivingArea ==> r == Step(e, Fail(LivingAreaAfterRoomAreas))
    ensures Given(value) && !e.usedRoomsForLivingArea ==> match AreaCleaner(value)
      case Ok(a) => r == Step(e.(livingArea := Some(a)), Pass)
      case Err(err) => r == Step(e, Fail(err))
  {
    if !Given(value) then Step(e, Pass)
    else if e.usedRoomsForLivingArea then Step(e, Fail(LivingAreaAfterRoomAreas))
    else match AreaCleaner(value)
      case Ok(a) => Step(e.(livingArea := Some(a)), Pass)
      case Err(err) => Step(e, Fail(err))
  }

  /** The living area read as a number, `None` as 0. */
  function LivingOrZero(e: Estate): real {
    if e.livingArea.Some? then e.livingArea.value else 0.0
  }

  /**
   * `find_living_area_from_rooms(room_area)` (murinoclub.py:644-651): add a
   * room's area to the living area, refused when a living area came from
   * its own field.
   */
  function FindLivingAreaFromRooms(e: Estate, roomArea: Val): (r: Step)
    ensures r.e == e.(livingArea := r.e.livingArea, usedRoomsForLivingArea := r.e.usedRoomsForLivingArea)
  {
    match AreaCleaner(roomArea)
    case Err(err) => Step(e, Fail(err))
    case Ok(a) => AddRoomArea(e, a)
  }

  /** The step of `find_living_area_from_rooms` once the room's area `a` has been read. */
  function AddRoomArea(e: Estate, a: real): (r: Step)
    ensures r.e == e.(livingArea := r.e.livingArea, usedRoomsForLivingArea := r.e.usedRoomsForLivingArea)
  {
    if !e.usedRoomsForLivingArea && LivingOrZero(e) != 0.0 then Step(e, Fail(RoomAreaAfterLivingArea))
    else Step(e.(livingArea := Some(LivingOrZero(e) + a), usedRoomsForLivingArea := true), Pass)
  }

  /** The two sources of the living area exclude each other. */
  lemma {:induction false} LivingAreaSourcesExclusive(e: Estate, value: Val, roomArea: Val)
    ensures e.usedRoomsForLivingArea && Given(value) ==> SetLivingArea(e, value).out == Fail(LivingAreaAfterRoomAreas)
    ensures !e.usedRoomsForLivingArea && AreaSet(e.livingArea) && AreaCleaner(roomArea).Ok? ==>
      FindLivingAreaFromRooms(e, roomArea).out == Fail(RoomAreaAfterLivingArea)
  {
  }

  /** The room areas of a listing, summed in turn; the first that raises stops the sum. */
  function AddRoomAreas(e: Estate, areas: seq<Val>): Step
    decreases |areas|
  {
    if areas == [] then Step(e, Pass)
    else
      var s := FindLivingAreaFromRooms(e, areas[0]);
      if s.out.Fail? then s else AddRoomAreas(s.e, areas[1..])
  }

  function SumAreas(areas: seq<Val>): real
    requires forall i :: 0 <= i < |areas| ==> AreaCleaner(areas[i]).Ok?
    decreases |areas|
  {
    if areas == [] then 0.0 else AreaCleaner(areas[0]).value + SumAreas(areas[1..])
  }

  /** Summing readable room areas from no living area gives their sum and marks the living area as summed. */
  lemma {:induction false} AddRoomAreasSums(e: Estate, areas: seq<Val>)
    requires forall i :: 0 <= i < |areas| ==> AreaCleaner(areas[i]).Ok?
    requires e.usedRoomsForLivingArea || LivingOrZero(e) == 0.0
    ensures var r := AddRoomAreas(e, areas);
      && r.out == Pass
      && (areas != [] ==> r.e.livingArea == Some(LivingOrZero(e) + SumAreas(areas)) && r.e.usedRoomsForLivingArea)
    decreases |areas|
  {
    if areas != [] {
      var a := AreaCleaner(areas[0]).value;
      var s := FindLivingAreaFromRooms(e, areas[0]);
      assert s == AddRoomArea(e, a);
      assert s.out == Pass && s.e.usedRoomsForLivingArea && LivingOrZero(s.e) == LivingOrZero(e) + a;
      var rest := areas[1..];
      assert forall i :: 0 <= i < |rest| ==> rest[i] == areas[i + 1];
      AddRoomAreasSums(s.e, rest);
      assert AddRoomAreas(e, areas) == AddRoomAreas(s.e, rest);
      assert SumAreas(areas) == a + SumAreas(rest);
    }
  }

  /** The restricted parts of `set_ceil` (murinoclub.py:443-444). */
  const CeilParts: seq<Pattern> := Rxs(["высота", "потолков", "потолки", "потолка", "потолок", ":", "м.", "м"])

  /** `set_ceil(value)` (murinoclub.py:442-447): the ceiling height as a `Decimal`. */
  function SetCeil(e: Estate, value: string): (r: Step)
    ensures r.e == e.(ceil := r.e.ceil)
    ensures r.out.Pass? <==> ParseDecimal(Cleaned(Replace(value, ",", "."), CeilParts)).Some?
    ensures r.out.Pass? ==> r.e.ceil == ParseDecimal(Cleaned(Replace(value, ",", "."), CeilParts))
  {
    match ParseDecimal(Cleaned(Replace(value, ",", "."), CeilParts))
    case None => Step(e, Fail(InvalidOperation))
    case Some(d) => Step(e.(ceil := Some(d)), Pass)
  }

  /** The restricted parts of `set_discount_percent` (murinoclub.py:580). */
  const DiscountParts: seq<Pattern> := Rxs(["скидка", "%", "-"])

  /** `set_discount_percent(value)` (murinoclub.py:579-583). */
  function SetDiscountPercent(e: Estate, value: string): (r: Step)
    ensures r.e == e.(discountPercent := r.e.discountPercent)
    ensures r.out.Pass? <==> ParseDecimal(Cleaned(Replace(value, ",", "."), DiscountParts)).Some?
    ensures r.out.Pass? ==> r.e.discountPercent == ParseDecimal(Cleaned(Replace(value, ",", "."), DiscountParts))
  {
    match ParseDecimal(Cleaned(Replace(value, ",", "."), DiscountParts))
    case None => Step(e, Fail(InvalidOperation))
    case Some(d) => Step(e.(discountPercent := Some(d)), Pass)
  }
}
