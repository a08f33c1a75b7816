/**
 * Where the object lies and what its plan is: `set_floor` and `set_plan`
 * (murinoclub.py:336-358, 533-541).
 */
module Places {
  import opened Results
  import opened Errors
  import opened Text
  import opened Utils
  import opened EstateValues

  // ---------------------------------------------------------------------
  // set_floor

  /** The floor a word of the lowered text names at once: basement, first floor (murinoclub.py:338-346). */
  function FloorWord(l: string): Option<int> {
    if Contains(l, "цоколь") then Some(-1)
    else if Contains(l, "первый") then Some(1)
    else if Contains(l, "подвал") then Some(-1)
    else None
  }

  /** The part before `из`, then the part of that before `/` ("5 из 17", "5/17"). */
  function FloorPart(s: string): string {
    var a := if Contains(s, "из") then Split(s, "из")[0] else s;
    if Contains(a, "/") then Split(a, "/")[0] else a
  }

  /** The first signed integer of truthy text as the floor, unless it is an empty value (murinoclub.py:355-358). */
  function FloorOfText(e: Estate, t: string): (r: Step)
    ensures r.e == e.(floor := r.e.floor)
    ensures r.out.Fail? ==> r == Step(e, Fail(IndexError))
  {
    match FirstSignedInt(t)
    case None => Step(e, Fail(IndexError))
    case Some(tok) =>
      if Strip(Lower(tok)) in EmptyValues then Step(e, Pass)
      else Step(e.(floor := ParseInt(tok)), Pass)
  }

  /** What `set_floor` does with the value once no floor word matched and text is cut (murinoclub.py:351-358). */
  function FloorOfValue(cfg: Config, e: Estate, v: Val): (r: Step)
    ensures r.e == e.(floor := r.e.floor, floors := r.e.floors)
    ensures r.out.Fail? ==> r.e == e
  {
    if cfg.splitFloors then
      if v.Str? then
        match SplitFloorsSpec(v.s)
        case Ok(fs) => Step(e.(floors := fs), Pass)
        case Err(err) => Step(e, Fail(err))
      else Step(e, Fail(AttributeError))
    else if !Truthy(v) then Step(e, Pass)
    else if v.Int? then Step(e.(floor := Some(v.i)), Pass)
    else FloorOfText(e, v.s)
  }

  /**
   * `set_floor(value)` (murinoclub.py:336-358). Non-empty text naming the
   * basement or the first floor sets the floor at once; otherwise text is
   * cut at `из` and `/`. With `_split_floors` the rest goes to
   * `split_floors` (which fails on anything but text); without it, the first
   * signed integer of truthy text, or a truthy integer itself, becomes the
   * floor, unless the integer text is one of the empty values.
   */
  function SetFloor(cfg: Config, e: Estate, value: Val): (r: Step)
    ensures r.e == e.(floor := r.e.floor, floors := r.e.floors)
    ensures r.out.Fail? ==> r.e == e
  {
    var word := if value.Str? && value.s != "" then FloorWord(Lower(value.s)) else None;
    if word.Some? then Step(e.(floor := word), Pass)
    else FloorOfValue(cfg, e, if value.Str? && value.s != "" then Str(FloorPart(value.s)) else value)
  }

  /** The text names none of the floor words. */
  predicate NoFloorWord(s: string) {
    FloorWord(Lower(s)).None?
  }

  /** The floor words win over everything else, `_split_floors` included, in the order the source tests them. */
  lemma {:induction false} SetFloorWords(cfg: Config, e: Estate, s: string)
    ensures var r := SetFloor(cfg, e, Str(s));
      var l := Lower(s);
      && (Contains(l, "цоколь") ==> r == Step(e.(floor := Some(-1)), Pass))
      && (!Contains(l, "цоколь") && Contains(l, "первый") ==> r == Step(e.(floor := Some(1)), Pass))
      && (!Contains(l, "цоколь") && !Contains(l, "первый") && Contains(l, "подвал") ==>
            r == Step(e.(floor := Some(-1)), Pass))
  {
    if FloorWord(Lower(s)).Some? {
      assert |Lower(s)| > 0;
    }
  }

  /** An integer value is the floor when truthy, and is ignored when zero; `split_floors` refuses it. */
  lemma {:induction false} SetFloorOfInt(cfg: Config, e: Estate, i: int)
    ensures var r := SetFloor(cfg, e, Int(i));
      && (cfg.splitFloors ==> r == Step(e, Fail(AttributeError)))
      && (!cfg.splitFloors ==> r == Step(if i == 0 then e else e.(floor := Some(i)), Pass))
  {
  }

  /** The characters of `str(i)`: a minus sign first for a negative number, digits elsewhere. */
  lemma {:induction false} IntToStringChars(i: int)
    ensures var d := IntToString(i);
      && |d| > 0 && (d[0] == '-' <==> i < 0)
      && (i < 0 ==> |d| > 1 && IsDigit(d[1]))
      && (forall j :: 0 <= j < |d| ==> IsDigit(d[j]) || (j == 0 && d[j] == '-'))
  {
    var d := IntToString(i);
    if i < 0 {
      var n := NatToString(-i);
      assert d == "-" + n;
      assert forall j :: 1 <= j < |d| ==> d[j] == n[j - 1];
    }
  }

  /** `re.findall(r'-?\d+', ...)[0]` of text opening with `str(i)` and no digit after it is `str(i)`. */
  lemma {:induction false} LeadingIntToken(i: int, u: string)
    requires u == [] || !IsDigit(u[0])
    ensures FirstSignedInt(IntToString(i) + u) == Some(IntToString(i))
  {
    var d := IntToString(i);
    var s := d + u;
    IntToStringChars(i);
    assert forall k :: 0 <= k < |d| ==> s[k] == d[k];
    assert u != [] ==> s[|d|] == u[0];
    assert SignedIntAt(s, 0);
    assert FirstSignedIntFrom(s, 0) == Some(0);
    if i < 0 {
      var n := DigitRun(s, 1);
      assert n == |d| - 1;
      assert SignedIntToken(s, 0) == s[0..|d|];
    } else {
      var n := DigitRun(s, 0);
      assert n == |d|;
      assert SignedIntToken(s, 0) == s[0..|d|];
    }
    assert s[0..|d|] == d;
  }

  /** The cut text is a prefix of the text. */
  lemma {:induction false} FloorPartPrefix(s: string)
    ensures |FloorPart(s)| <= |s| && FloorPart(s) == s[..|FloorPart(s)|]
  {
    SplitFirst(s, "из");
    var a := if Contains(s, "из") then Split(s, "из")[0] else s;
    assert a == s[..|a|];
    SplitFirst(a, "/");
  }

  /** The cut keeps every character before the first `и` or `/`. */
  lemma {:induction false} FloorPartKeeps(s: string, k: nat)
    requires k <= |s|
    requires forall j :: 0 <= j < k ==> s[j] != 'и' && s[j] != '/'
    ensures k <= |FloorPart(s)|
  {
    SplitFirst(s, "из");
    var a := if Contains(s, "из") then Split(s, "из")[0] else s;
    if Contains(s, "из") {
      var q := IndexOf(s, "из").value;
      assert s[q..q + 2][0] == s[q] == 'и';
      assert a == s[..q];
    }
    assert k <= |a| && a[..k] == s[..k];
    SplitFirst(a, "/");
    if Contains(a, "/") {
      var q := IndexOf(a, "/").value;
      assert a[q..q + 1][0] == a[q] == '/';
      assert q >= k by { assert forall j :: 0 <= j < k ==> a[j] == s[j]; }
    }
  }

  /** `str(i)` lowered and stripped is itself. */
  lemma {:induction false} IntTextPlain(i: int)
    ensures Strip(Lower(IntToString(i))) == IntToString(i)
  {
    var d := IntToString(i);
    IntToStringChars(i);
    assert Lower(d) == d by {
      forall j | 0 <= j < |d| ensures Lower(d)[j] == d[j] { assert !IsUpper(d[j]); }
    }
    assert IsStripped(d) by { assert !IsSpace(d[0]) && !IsSpace(d[|d| - 1]); }
  }

  /** `str(i)` is one of the empty values only for 0. */
  lemma {:induction false} IntTextEmpty(i: int)
    ensures IntToString(i) in EmptyValues <==> i == 0
  {
    var d := IntToString(i);
    IntToStringChars(i);
    assert d[0] != 'n' && d[0] != '\U{2013}' && d[0] != '\U{2014}';
    assert d !in EmptyValues[..2] + EmptyValues[3..];
    if i >= 0 {
      NatToStringValue(i);
      assert d == NatToString(i);
      assert d == "0" ==> DigitsValue(d) == 0;
      assert i == 0 ==> d == [DigitChar(0)];
    }
  }

  /** The first signed integer of text opening with `str(i)` and no digit after it is the floor, but 0 is ignored. */
  lemma {:induction false} FloorOfLeadingInt(e: Estate, i: int, u: string)
    requires u == [] || !IsDigit(u[0])
    ensures FloorOfText(e, IntToString(i) + u) == Step(if i == 0 then e else e.(floor := Some(i)), Pass)
  {
    LeadingIntToken(i, u);
    IntTextPlain(i);
    IntTextEmpty(i);
    ParseIntOfIntToString(i);
  }

  /** Cutting text that opens with `str(i)` keeps `str(i)`, and what follows it in the cut opens with no digit. */
  lemma {:induction false} LeadingIntCut(i: int, u: string)
    requires u == [] || !IsDigit(u[0])
    ensures var d := IntToString(i);
      var p := FloorPart(d + u);
      && |d| <= |p| && p == d + p[|d|..] && (p[|d|..] == [] || !IsDigit(p[|d|..][0]))
  {
    var d := IntToString(i);
    var s := d + u;
    IntToStringChars(i);
    assert forall j :: 0 <= j < |d| ==> s[j] == d[j];
    FloorPartKeeps(s, |d|);
    FloorPartPrefix(s);
    var p := FloorPart(s);
    var u' := p[|d|..];
    assert p == d + u' by { assert p[..|d|] == s[..|d|] == d; }
    assert u' != [] ==> u'[0] == u[0] by { assert u' != [] ==> u'[0] == p[|d|] == s[|d|]; }
  }

  /**
   * Text opening with an integer that no digit follows ("5 из 17", "-1/3",
   * "12 этаж") sets that floor; the integer 0 is one of the empty values and
   * leaves the floor as it was.
   */
  lemma {:induction false} SetFloorLeadingInt(cfg: Config, e: Estate, i: int, u: string)
    requires !cfg.splitFloors
    requires u == [] || !IsDigit(u[0])
    requires NoFloorWord(IntToString(i) + u)
    ensures SetFloor(cfg, e, Str(IntToString(i) + u)) == Step(if i == 0 then e else e.(floor := Some(i)), Pass)
  {
    var d := IntToString(i);
    var s := d + u;
    LeadingIntCut(i, u);
    var p := FloorPart(s);
    FloorOfLeadingInt(e, i, p[|d|..]);
    assert SetFloor(cfg, e, Str(s)) == FloorOfValue(cfg, e, Str(p));
    assert |d| > 0 by { IntToStringChars(i); }
    assert FloorOfValue(cfg, e, Str(p)) == FloorOfText(e, p);
  }

  /** Text without digits raises once its cut part is non-empty; a cut part that is empty is ignored. */
  lemma {:induction false} SetFloorNoDigits(cfg: Config, e: Estate, s: string)
    requires !cfg.splitFloors
    requires !HasDigit(s) && NoFloorWord(s)
    ensures SetFloor(cfg, e, Str(s)) == Step(e, if FloorPart(s) == "" then Pass else Fail(IndexError))
  {
    FloorPartPrefix(s);
    var p := FloorPart(s);
    assert !HasDigit(p) by {
      forall k | 0 <= k < |p| ensures !IsDigit(p[k]) { assert p[k] == s[k]; }
    }
  }

  /** Text made of digits, hyphens and commas contains no floor word, no `из` and no `/`. */
  lemma {:induction false} FloorCharsFree(s: string, w: string)
    requires FloorChars(s) && |w| > 0 && !FloorChar(w[0])
    ensures !Contains(s, w)
  {
    forall q | 0 <= q && q + |w| <= |s| ensures !OccursAt(s, w, q) {
      assert s[q..q + |w|][0] == s[q];
      assert FloorChar(s[q]);
    }
  }

  /** Floor characters are not changed by lowering. */
  lemma {:induction false} LowerFloorChars(s: string)
    requires FloorChars(s)
    ensures Lower(s) == s
  {
    forall j | 0 <= j < |s| ensures Lower(s)[j] == s[j] { assert FloorChar(s[j]); }
  }

  /** The text of floor items is non-empty, names no floor word and holds neither `из` nor `/`. */
  lemma {:induction false} FloorsTextFree(items: seq<FloorItem>)
    requires |items| >= 1
    ensures var s := FloorsText(items);
      s != "" && NoFloorWord(s) && !Contains(s, "из") && !Contains(s, "/")
  {
    var s := FloorsText(items);
    ItemTextsShape(items);
    JoinFloorChars(ItemTexts(items));
    LowerFloorChars(s);
    FloorCharsFree(s, "цоколь");
    FloorCharsFree(s, "первый");
    FloorCharsFree(s, "подвал");
    FloorCharsFree(s, "из");
    FloorCharsFree(s, "/");
    assert |ItemTexts(items)[0]| > 0;
    JoinEnds(",", ItemTexts(items));
  }

  /** With `_split_floors`, the text of floor ranges and numbers ("2-5,7") sets the floors they stand for. */
  lemma {:induction false} SetFloorOfItems(cfg: Config, e: Estate, items: seq<FloorItem>)
    requires cfg.splitFloors && |items| >= 1
    ensures SetFloor(cfg, e, Str(FloorsText(items))) == Step(e.(floors := Some(ItemsFloors(items))), Pass)
  {
    var s := FloorsText(items);
    FloorsTextFree(items);
    SplitFloorsOfItems(items);
    assert FloorPart(s) == s;
    assert SetFloor(cfg, e, Str(s)) == FloorOfValue(cfg, e, Str(s));
  }

  // ---------------------------------------------------------------------
  // set_plan

  /**
   * `set_plan(value)` (murinoclub.py:533-541) as the mapper calls it, with
   * text and no base url: a link holding `http` is kept, any other is one
   * the source joins to the site's domain.
   */
  function SetPlan(e: Estate, value: string): (r: Estate)
    ensures r == e.(plan := r.plan)
  {
    if value == "" then e
    else if Contains(value, "http") then e.(plan := Some(Url(value)))
    else e.(plan := Some(OnSite(value)))
  }

  /** Empty text changes nothing; other text is the plan, absolute exactly when it holds `http`. */
  lemma {:induction false} SetPlanRecords(e: Estate, value: string)
    ensures var r := SetPlan(e, value);
      && (value == "" ==> r == e)
      && (value != "" ==>
            (r.plan.Some? && (r.plan.value.Url? <==> Contains(value, "http"))
             && (if r.plan.value.Url? then r.plan.value.url else r.plan.value.path) == value))
  {
  }
}
