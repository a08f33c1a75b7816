/**
 * `set_rooms(value, check_euro, check_type)` (murinoclub.py:271-334): the
 * room count from text that may also name the type, euro planning, a
 * penthouse, a free layout or a studio.
 */
module RoomCounts {
  import opened Results
  import opened Errors
  import opened Text
  import opened Synonyms
  import opened EstateValues
  import opened FeatureSetters
  import opened ObjectTypes

  /** The feature `set_rooms` records for a free layout. */
  const FreePlan: string := "Свободная планировка"

  /** The text the count is read from: lowered, stripped, without `комнаты`/`комната` (murinoclub.py:273, 280). */
  function RoomText(s: string): string {
    Strip(Replace(Replace(Strip(Lower(s)), "комнаты", ""), "комната", ""))
  }

  // ---------------------------------------------------------------------
  // The type scan (murinoclub.py:283-293)

  /** A type whose synonym ends the scan and the whole call. */
  predicate Stops(t: ObjType) {
    t != Flat && t != Apartment
  }

  /**
   * The scan over the synonym table from entry `i`: a `flat` synonym is
   * skipped, an `apartment` one sets the type and goes on, any other sets
   * the type and stops. The result is the type and whether it stopped.
   */
  function TypeScan(t: ObjType, names: seq<Entry<ObjType>>, v: string, i: nat): (ObjType, bool)
    requires i <= |names|
    decreases |names| - i
  {
    if i == |names| then (t, false)
    else if Contains(Lower(v), names[i].name) && Stops(names[i].target) then (names[i].target, true)
    else if Contains(Lower(v), names[i].name) && names[i].target == Apartment then TypeScan(Apartment, names, v, i + 1)
    else TypeScan(t, names, v, i + 1)
  }

  /** A synonym of entry `j` occurs and names a type of the given kind. */
  predicate Hit(names: seq<Entry<ObjType>>, v: string, j: nat, stops: bool)
    requires j < |names|
  {
    Contains(Lower(v), names[j].name) && (if stops then Stops(names[j].target) else names[j].target == Apartment)
  }

  /**
   * The scan stops exactly at the first occurring synonym of a type other
   * than `flat` and `apartment`, with that type; when it runs through, the
   * type is `apartment` if an `apartment` synonym occurs and is kept
   * otherwise.
   */
  lemma {:induction false} TypeScanFinds(t: ObjType, names: seq<Entry<ObjType>>, v: string, i: nat)
    requires i <= |names|
    ensures var (t', stop) := TypeScan(t, names, v, i);
      && (stop <==> exists j :: i <= j < |names| && Hit(names, v, j, true))
      && (stop ==> exists j :: (i <= j < |names| && Hit(names, v, j, true) && t' == names[j].target
            && forall k :: i <= k < j ==> !Hit(names, v, k, true)))
      && (!stop && (exists j :: i <= j < |names| && Hit(names, v, j, false)) ==> t' == Apartment)
      && (!stop && (forall j :: i <= j < |names| ==> !Hit(names, v, j, false)) ==> t' == t)
  {
    TypeScanStops(t, names, v, i);
    TypeScanRunsThrough(t, names, v, i);
  }

  /** The scan stops exactly at the first occurring synonym of a stopping type, with that type. */
  lemma {:induction false} TypeScanStops(t: ObjType, names: seq<Entry<ObjType>>, v: string, i: nat)
    requires i <= |names|
    ensures var (t', stop) := TypeScan(t, names, v, i);
      && (stop <==> exists j :: i <= j < |names| && Hit(names, v, j, true))
      && (stop ==> exists j :: (i <= j < |names| && Hit(names, v, j, true) && t' == names[j].target
            && forall k :: i <= k < j ==> !Hit(names, v, k, true)))
  {
    TypeScanStopsIff(t, names, v, i);
    TypeScanStopsAtFirst(t, names, v, i);
  }

  lemma {:induction false} TypeScanStopsIff(t: ObjType, names: seq<Entry<ObjType>>, v: string, i: nat)
    requires i <= |names|
    ensures TypeScan(t, names, v, i).1 <==> exists j :: i <= j < |names| && Hit(names, v, j, true)
    decreases |names| - i
  {
    if i < |names| {
      var hit := Contains(Lower(v), names[i].name);
      if hit && Stops(names[i].target) {
        assert Hit(names, v, i, true);
      } else if hit && names[i].target == Apartment {
        TypeScanStopsIff(Apartment, names, v, i + 1);
        assert !Hit(names, v, i, true);
      } else {
        TypeScanStopsIff(t, names, v, i + 1);
        assert !Hit(names, v, i, true);
      }
    }
  }

  lemma {:induction false} TypeScanStopsAtFirst(t: ObjType, names: seq<Entry<ObjType>>, v: string, i: nat)
    requires i <= |names|
    ensures var (t', stop) := TypeScan(t, names, v, i);
      stop ==> exists j :: (i <= j < |names| && Hit(names, v, j, true) && t' == names[j].target
        && forall k :: i <= k < j ==> !Hit(names, v, k, true))
    decreases |names| - i
  {
    if i < |names| {
      var hit := Contains(Lower(v), names[i].name);
      if hit && Stops(names[i].target) {
        assert Hit(names, v, i, true);
      } else if hit && names[i].target == Apartment {
        TypeScanStopsAtFirst(Apartment, names, v, i + 1);
        assert !Hit(names, v, i, true);
      } else {
        TypeScanStopsAtFirst(t, names, v, i + 1);
        assert !Hit(names, v, i, true);
      }
    }
  }

  /** A scan that runs through ends on `apartment` if an `apartment` synonym occurs, and on the type it started with otherwise. */
  lemma {:induction false} TypeScanRunsThrough(t: ObjType, names: seq<Entry<ObjType>>, v: string, i: nat)
    requires i <= |names|
    ensures var (t', stop) := TypeScan(t, names, v, i);
      && (!stop && (exists j :: i <= j < |names| && Hit(names, v, j, false)) ==> t' == Apartment)
      && (!stop && (forall j :: i <= j < |names| ==> !Hit(names, v, j, false)) ==> t' == t)
    decreases |names| - i
  {
    if i < |names| {
      var hit := Contains(Lower(v), names[i].name);
      if hit && Stops(names[i].target) {
      } else if hit && names[i].target == Apartment {
        TypeScanRunsThrough(Apartment, names, v, i + 1);
        assert Hit(names, v, i, false);
      } else {
        TypeScanRunsThrough(t, names, v, i + 1);
        assert !Hit(names, v, i, false);
      }
    }
  }

  // ---------------------------------------------------------------------
  // Words for counts (murinoclub.py:294-334)

  /** The spelled numerals, row `k` standing for `k + 1` rooms, as the `elif` chain tests them. */
  const Numerals: seq<seq<string>> := [
    ["одно", "1-а", "однушка"],
    ["двух", "2-х", "двушка"],
    ["трех", "трёх", "3-х", "трешка", "трёшка"],
    ["четырех", "четырёх", "4-х"],
    ["пяти"],
    ["шести"],
    ["семи"]
  ]

  /** The first row of numerals from `i` holding a word that occurs in `v`, as a room count. */
  function NumeralFrom(v: string, i: nat): (r: Option<nat>)
    requires i <= |Numerals|
    ensures r.Some? ==> i < r.value <= |Numerals|
    decreases |Numerals| - i
  {
    if i == |Numerals| then None
    else if ContainsAny(v, Numerals[i]) then Some(i + 1)
    else NumeralFrom(v, i + 1)
  }

  /**
   * The numeral chain gives `n` rooms exactly when a word of row `n - 1`
   * occurs and no word of an earlier row does.
   */
  lemma {:induction false} NumeralFromFinds(v: string, i: nat, n: nat)
    requires i <= |Numerals|
    ensures NumeralFrom(v, i) == Some(n) <==>
      i < n <= |Numerals| && ContainsAny(v, Numerals[n - 1]) && forall k :: i <= k < n - 1 ==> !ContainsAny(v, Numerals[k])
    decreases |Numerals| - i
  {
    if i < |Numerals| && !ContainsAny(v, Numerals[i]) {
      NumeralFromFinds(v, i + 1, n);
    }
  }

  /** No row of numerals occurs in `v`. */
  lemma {:induction false} NumeralFromNone(v: string, i: nat)
    requires i <= |Numerals|
    ensures NumeralFrom(v, i).None? <==> forall k :: i <= k < |Numerals| ==> !ContainsAny(v, Numerals[k])
    decreases |Numerals| - i
  {
    if i < |Numerals| && !ContainsAny(v, Numerals[i]) {
      NumeralFromNone(v, i + 1);
    }
  }

  /** Text that `set_rooms` reads as a studio (murinoclub.py:313-319); some spellings mix Latin letters in. */
  predicate StudioWord(v: string) {
    ContainsAny(v, ["студия", "студ", "studio", "cтудия"])
    || v in ["с", "c", "s", "ст", "ст.", "0", "cт", "st"]
  }

  /**
   * `check_euro and 'e' in value or 'е' in value and len(value) < 4`
   * (murinoclub.py:322): `and` binds tighter than `or`, so a short text with a
   * Cyrillic `е` marks euro planning even when `check_euro` is off, and the
   * Latin `e` is matched at any length.
   */
  predicate EuroQuirk(v: string, checkEuro: bool) {
    (checkEuro && Contains(v, "e")) || (Contains(v, "е") && |v| < 4)
  }

  /** The grouping makes the length bound apply to the Cyrillic letter only. */
  lemma {:induction false} EuroQuirkPrecedence(v: string, checkEuro: bool)
    ensures !checkEuro ==> (EuroQuirk(v, checkEuro) <==> Contains(v, "е") && |v| < 4)
    ensures checkEuro && Contains(v, "e") ==> EuroQuirk(v, checkEuro)
  {
  }

  /** `rooms` as `set_rooms` leaves it on every path that reaches its end: a count of 0 becomes `'studio'`. */
  function StudioIfZero(e: Estate): (r: Estate)
    ensures r.rooms != Count(0)
    ensures r == e.(rooms := r.rooms)
    ensures e.rooms != Count(0) ==> r == e
  {
    if e.rooms == Count(0) then e.(rooms := Studio) else e
  }

  /**
   * The count part of `set_rooms` on the prepared text `v` (murinoclub.py:294-330):
   * a numeral, `многоком` (rooms unset), a studio word, the `-1` exception,
   * the euro quirk, an empty value, the first run of digits, or a raise.
   */
  function RoomsOfWord(cfg: Config, e: Estate, v: string, checkEuro: bool): (r: Step)
    ensures r.e == e.(rooms := r.e.rooms, euroPlanning := r.e.euroPlanning)
    ensures r.out.Fail? ==> r.e.rooms == e.rooms
  {
    match NumeralFrom(v, 0)
    case Some(n) => Step(e.(rooms := Count(n)), Pass)
    case None =>
      if Contains(v, "многоком") then Step(e.(rooms := NoRooms), Pass)
      else if StudioWord(v) then Step(e.(rooms := Studio), Pass)
      else if Contains(v, "-1") then Step(e, Pass)
      else
        var e1 := if EuroQuirk(v, checkEuro) then e.(euroPlanning := Some(1)) else e;
        if v in EmptyValues then Step(e1, Pass)
        else match FirstDigitRun(v)
          case Some(d) => Step(e1.(rooms := Count(DigitsValue(d))), Pass)
          case None => if cfg.ignoreEmptyRooms then Step(e1, Pass) else Step(e1, Fail(NoRoomDigits))
  }

  /**
   * The text path of `set_rooms` once the feature words are ruled out
   * (murinoclub.py:280-334), on the prepared text `v`: euro planning, the
   * type scan, then the count and the studio normalisation.
   */
  function CountPath(cfg: Config, e: Estate, names: seq<Entry<ObjType>>, v: string, checkEuro: bool, checkType: bool): (r: Step)
    ensures r.e == e.(rooms := r.e.rooms, euroPlanning := r.e.euroPlanning, objType := r.e.objType)
    ensures r.out.Fail? ==> r.e.rooms == e.rooms
    ensures e.rooms != Count(0) ==> r.e.rooms != Count(0)
  {
    var e1 := if checkEuro && Contains(v, "евро") then e.(euroPlanning := Some(1)) else e;
    var scan := if checkType then TypeScan(e1.objType, names, v, 0) else (e1.objType, false);
    var e2 := e1.(objType := scan.0);
    if scan.1 then Step(e2, Pass)
    else
      var w := RoomsOfWord(cfg, e2, v, checkEuro);
      if w.out.Fail? then w else Step(StudioIfZero(w.e), Pass)
  }

  /**
   * `set_rooms(value, check_euro, check_type)` (murinoclub.py:271-334).
   * A non-text value goes through `int()`, which `None` fails.
   */
  function SetRooms(cfg: Config, e: Estate, names: seq<Entry<ObjType>>, value: Val, checkEuro: bool, checkType: bool): (r: Step)
    ensures r.e == e.(rooms := r.e.rooms, euroPlanning := r.e.euroPlanning, objType := r.e.objType, feature := r.e.feature)
  {
    match value
    case Nil => Step(e, Fail(TypeError))
    case Int(i) => Step(StudioIfZero(e.(rooms := Count(i))), Pass)
    case Str(s) =>
      var l := Strip(Lower(s));
      if Contains(l, "пентхаус") then Step(SetFeature(e, Penthouse), Pass)
      else if Contains(l, "св. план") then Step(SetFeature(e, FreePlan), Pass)
      else CountPath(cfg, e, names, RoomText(s), checkEuro, checkType)
  }

  // ---------------------------------------------------------------------
  // What set_rooms guarantees

  /** The text path that reaches the count: no penthouse, no free layout, no stopping type. */
  predicate ReachesCount(e: Estate, names: seq<Entry<ObjType>>, s: string, checkEuro: bool, checkType: bool) {
    var l := Strip(Lower(s));
    !Contains(l, "пентхаус") && !Contains(l, "св. план")
    && (checkType ==> !TypeScan(e.objType, names, RoomText(s), 0).1)
  }

  /**
   * Along the text path that reaches the count, `set_rooms` is the count
   * part on the prepared text, then the studio normalisation.
   */
  lemma {:induction false} SetRoomsCounts(cfg: Config, e: Estate, names: seq<Entry<ObjType>>, s: string, checkEuro: bool, checkType: bool)
    requires ReachesCount(e, names, s, checkEuro, checkType)
    ensures var v := RoomText(s);
      var e1 := if checkEuro && Contains(v, "евро") then e.(euroPlanning := Some(1)) else e;
      var e2 := if checkType then e1.(objType := TypeScan(e.objType, names, v, 0).0) else e1;
      var w := RoomsOfWord(cfg, e2, v, checkEuro);
      SetRooms(cfg, e, names, Str(s), checkEuro, checkType) == if w.out.Fail? then w else Step(StudioIfZero(w.e), Pass)
  {
    assert SetRooms(cfg, e, names, Str(s), checkEuro, checkType) == CountPath(cfg, e, names, RoomText(s), checkEuro, checkType);
  }

  /** A count of 0 never survives a `set_rooms` that returns at its end; other paths leave `rooms` alone. */
  lemma {:induction false} SetRoomsNoZero(cfg: Config, e: Estate, names: seq<Entry<ObjType>>, value: Val, checkEuro: bool, checkType: bool)
    requires e.rooms != Count(0)
    ensures SetRooms(cfg, e, names, value, checkEuro, checkType).e.rooms != Count(0)
  {
    match value
    case Nil =>
    case Int(i) =>
    case Str(s) =>
      var l := Strip(Lower(s));
      if !Contains(l, "пентхаус") && !Contains(l, "св. план") {
        assert SetRooms(cfg, e, names, value, checkEuro, checkType) == CountPath(cfg, e, names, RoomText(s), checkEuro, checkType);
      }
  }

  /** An integer sets the count, 0 giving `'studio'`; `None` raises. */
  lemma {:induction false} SetRoomsOfInt(cfg: Config, e: Estate, names: seq<Entry<ObjType>>, i: int, checkEuro: bool, checkType: bool)
    ensures SetRooms(cfg, e, names, Int(i), checkEuro, checkType) == Step(e.(rooms := if i == 0 then Studio else Count(i)), Pass)
    ensures SetRooms(cfg, e, names, Nil, checkEuro, checkType) == Step(e, Fail(TypeError))
  {
  }

  /** The numerals: `n` rooms for a word of row `n - 1` when no earlier row's word occurs. */
  lemma {:induction false} RoomsOfNumeral(cfg: Config, e: Estate, v: string, checkEuro: bool, n: nat)
    requires 1 <= n <= 7
    requires ContainsAny(v, Numerals[n - 1]) && forall k :: 0 <= k < n - 1 ==> !ContainsAny(v, Numerals[k])
    ensures RoomsOfWord(cfg, e, v, checkEuro) == Step(e.(rooms := Count(n)), Pass)
  {
    NumeralFromFinds(v, 0, n);
  }

  /** `двух` and `2-х` give two rooms. */
  lemma {:induction false} RoomsOfTwo(cfg: Config, e: Estate, v: string, checkEuro: bool)
    requires Contains(v, "двух") || Contains(v, "2-х")
    requires !ContainsAny(v, Numerals[0])
    ensures RoomsOfWord(cfg, e, v, checkEuro) == Step(e.(rooms := Count(2)), Pass)
  {
    var row := Numerals[1];
    assert row[0] == "двух" && row[1] == "2-х";
    assert ContainsAny(v, row);
    RoomsOfNumeral(cfg, e, v, checkEuro, 2);
  }

  /** Text with no numeral, studio word or `-1` that is no empty value gives its first number of digits. */
  lemma {:induction false} RoomsOfDigits(cfg: Config, e: Estate, v: string, checkEuro: bool)
    requires NumeralFrom(v, 0).None? && !Contains(v, "многоком") && !StudioWord(v) && !Contains(v, "-1")
    requires v !in EmptyValues
    ensures var r := RoomsOfWord(cfg, e, v, checkEuro);
      && (HasDigit(v) ==> r.out == Pass && r.e.rooms == Count(DigitsValue(FirstDigitRun(v).value)))
      && (!HasDigit(v) ==> r.e.rooms == e.rooms && (r.out.Fail? <==> !cfg.ignoreEmptyRooms))
      && (r.e.euroPlanning == if EuroQuirk(v, checkEuro) then Some(1) else e.euroPlanning)
  {
  }

  /**
   * `set_rooms` raises on text only for a digit-free count text that
   * matched nothing, and never under `_ignore_empty_rooms`.
   */
  lemma {:induction false} SetRoomsRaises(cfg: Config, e: Estate, names: seq<Entry<ObjType>>, s: string, checkEuro: bool, checkType: bool)
    ensures var r := SetRooms(cfg, e, names, Str(s), checkEuro, checkType);
      var v := RoomText(s);
      r.out.Fail? ==>
        && r.out == Fail(NoRoomDigits)
        && !cfg.ignoreEmptyRooms
        && !HasDigit(v) && v !in EmptyValues && !StudioWord(v) && NumeralFrom(v, 0).None?
  {
    var l := Strip(Lower(s));
    if !Contains(l, "пентхаус") && !Contains(l, "св. план") {
      assert SetRooms(cfg, e, names, Str(s), checkEuro, checkType) == CountPath(cfg, e, names, RoomText(s), checkEuro, checkType);
      CountPathRaises(cfg, e, names, RoomText(s), checkEuro, checkType);
    } else {
      assert SetRooms(cfg, e, names, Str(s), checkEuro, checkType).out == Pass;
    }
  }

  lemma {:induction false} CountPathRaises(cfg: Config, e: Estate, names: seq<Entry<ObjType>>, v: string, checkEuro: bool, checkType: bool)
    ensures var r := CountPath(cfg, e, names, v, checkEuro, checkType);
      r.out.Fail? ==>
        && r.out == Fail(NoRoomDigits)
        && !cfg.ignoreEmptyRooms
        && !HasDigit(v) && v !in EmptyValues && !StudioWord(v) && NumeralFrom(v, 0).None?
  {
  }

  /** The penthouse and free-layout texts record a feature and touch nothing else. */
  lemma {:induction false} SetRoomsFeatures(cfg: Config, e: Estate, names: seq<Entry<ObjType>>, s: string, checkEuro: bool, checkType: bool)
    ensures var r := SetRooms(cfg, e, names, Str(s), checkEuro, checkType);
      var l := Strip(Lower(s));
      && (Contains(l, "пентхаус") ==> r.out == Pass && r.e == e.(feature := r.e.feature) && Penthouse in FeatureItems(r.e.feature))
      && (!Contains(l, "пентхаус") && Contains(l, "св. план") ==>
            r.out == Pass && r.e == e.(feature := r.e.feature) && FreePlan in FeatureItems(r.e.feature))
  {
    PenthouseIsPlain();
    FreePlanIsPlain();
    SetPlainFeature(e, Penthouse);
    SetPlainFeature(e, FreePlan);
  }

  lemma {:induction false} FreePlanClean()
    ensures FreePlan != "" && IsStripped(FreePlan) && '\t' !in FreePlan && '\n' !in FreePlan
  {
  }

  lemma {:induction false} FreePlanNoE()
    ensures forall k :: 0 <= k < |FreePlan| ==> LowerChar(FreePlan[k]) != "евро"[0]
  {
  }

  /** `Свободная планировка` is recorded under its own spelling. */
  lemma {:induction false} FreePlanIsPlain()
    ensures PlainFeature(FreePlan)
  {
    FreePlanClean();
    FreePlanNoE();
    PlainKind(FreePlan, 0);
  }
}
