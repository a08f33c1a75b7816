/**
 * Availability and finish: `set_in_sale`, `set_sale_status`,
 * `set_finished`, `set_furniture` and `set_finishing_name`
 * (murinoclub.py:360-433, 454-468, 486-489).
 */
module Availability {
  import opened Results
  import opened Errors
  import opened Text
  import opened Utils
  import opened EstateValues
  import opened FeatureSetters

  /** The restricted parts of `set_sale_status` (murinoclub.py:431). */
  const StatusParts: seq<Pattern> := [[Char('с'), Char('т'), Char('а'), Char('т'), Char('у'), Char('с')], [Char(':')]]

  /** `set_sale_status(value)` (murinoclub.py:430-433). */
  function SetSaleStatus(e: Estate, value: string): (r: Estate)
    ensures r == e.(saleStatus := Some(Cleaned(value, StatusParts)))
  {
    e.(saleStatus := Some(Cleaned(value, StatusParts)))
  }

  /** The status recorded is stripped, no longer than the text given, and holds no `:`. */
  lemma {:induction false} SetSaleStatusClean(e: Estate, value: string)
    ensures var s := SetSaleStatus(e, value).saleStatus.value;
      IsStripped(s) && |s| <= |value| && FreeOf(s, Char(':'))
  {
    CleanedProperties(value, StatusParts);
    assert |StatusParts[1]| == 1 && StatusParts[1][0] == Char(':');
  }

  /** The sale statuses `set_in_sale` records. */
  const Booked: string := "Забронирована"
  const Reserved: string := "Зарезервирована"
  const Secondary: string := "Вторичная продажа"
  const ClosedSales: string := "Закрытые продажи"
  const BookedByList: string := "Забронировано"
  const Promotion: string := "Акция"

  /**
   * What a word of the availability chain decides (murinoclub.py:361-406):
   * a sale status to record, the availability it stands for, and whether it
   * is a promotion. `value` is `None` where the text passes on unchanged.
   */
  datatype Word = Word(status: Option<string>, value: Option<int>, promotion: bool)

  /** The `if`/`elif` chain of `set_in_sale` on the lowered text. */
  function SaleWord(l: string): Word {
    if Contains(l, "брон") then Word(Some(Booked), Some(1), false)
    else if Contains(l, "резерв") then Word(Some(Reserved), Some(1), false)
    else if Contains(l, "reserv") then Word(Some(Reserved), Some(1), false)
    else if Contains(l, "book") then Word(Some(Reserved), Some(1), false)
    else if Contains(l, "вторичная продажа") then Word(Some(Secondary), Some(1), false)
    else if Contains(l, "закрытые продажи") then Word(Some(ClosedSales), Some(1), false)
    else if Contains(l, "свобод") then Word(None, Some(1), false)
    else if Contains(l, "акция") then Word(None, Some(1), true)
    else if Contains(l, "выгодное предложение") then Word(None, Some(1), false)
    else if Contains(l, "free") then Word(None, Some(1), false)
    else if Contains(l, "в продаже") then Word(None, Some(1), false)
    else if Contains(l, "продан") then Word(None, Some(0), false)
    else if Contains(l, "sold") then Word(None, Some(0), false)
    else if Contains(l, "false") then Word(None, Some(0), false)
    else if Contains(l, "true") then Word(None, Some(0), false)
    else if Contains(l, "avail") then Word(None, Some(1), false)
    else if l == "active" then Word(None, Some(1), false)
    else if l == "sale" then Word(None, Some(1), false)
    else if Contains(l, "unavailable") then Word(None, Some(1), false)
    else Word(None, None, false)
  }

  /** `int(value)` for a value that is truthy. */
  function IntOf(v: Val): Result<Val, Error> {
    match v
    case Int(i) => Ok(v)
    case Str(s) => if ParseInt(s).Some? then Ok(Int(ParseInt(s).value)) else Err(ValueError)
    case Nil => Err(TypeError)
  }

  /** The availability a final value stands for, if it is one of 0, 1 and `None`. */
  function Availability(v: Val): Option<Option<int>> {
    match v
    case Int(i) => if i == 0 || i == 1 then Some(Some(i)) else None
    case Str(_) => None
    case Nil => Some(None)
  }

  /** The value after the chain: the word's availability where a word matched. */
  function WordValue(value: Val): Val {
    var w := if value.Str? then SaleWord(Lower(value.s)) else Word(None, None, false);
    if w.value.Some? then Int(w.value.value) else value
  }

  /** The value after the configured status lists (murinoclub.py:407-413). */
  function ListedValue(cfg: Config, v: Val): Val {
    if v in cfg.inSaleStatuses then Int(1)
    else if v in cfg.reservedStatuses then Int(1)
    else if v in cfg.notInSaleStatuses then Int(0)
    else v
  }

  /** `int()` of a truthy value, then the check against 0, 1 and `None` (murinoclub.py:414-418). */
  function FinalInSale(v: Val): (r: Result<Option<int>, Error>)
    ensures r.Ok? ==> r.value in {Some(0), Some(1), None}
  {
    match if Truthy(v) then IntOf(v) else Ok(v)
    case Err(err) => Err(err)
    case Ok(v3) =>
      match Availability(v3)
      case None => Err(WrongInSale)
      case Some(a) => Ok(a)
  }

  /**
   * `set_in_sale(value)` (murinoclub.py:360-418): a word of the chain, then
   * the configured status lists, then `int()` of what is truthy; the result
   * must be 0, 1 or `None`. Statuses and promotions are recorded before
   * the final check, so they stay when it raises.
   */
  function SetInSale(cfg: Config, e: Estate, value: Val): (r: Step)
    ensures r.e == e.(inSale := r.e.inSale, saleStatus := r.e.saleStatus, sale := r.e.sale)
  {
    var v1 := WordValue(value);
    var e3 := ListedStatus(cfg, WordStatus(e, value), v1);
    match FinalInSale(ListedValue(cfg, v1))
    case Err(err) => Step(e3, Fail(err))
    case Ok(a) => Step(e3.(inSale := a), Pass)
  }

  /** The status and promotion a word of the chain records (murinoclub.py:361-406). */
  function WordStatus(e: Estate, value: Val): (r: Estate)
    ensures r == e.(saleStatus := r.saleStatus, sale := r.sale)
  {
    var w := if value.Str? then SaleWord(Lower(value.s)) else Word(None, None, false);
    var e1 := if w.status.Some? then SetSaleStatus(e, w.status.value) else e;
    if w.promotion then SetSale(e1, Promotion) else e1
  }

  /** The status a configured reserved value records (murinoclub.py:409-411). */
  function ListedStatus(cfg: Config, e: Estate, v: Val): (r: Estate)
    ensures r == e.(saleStatus := r.saleStatus)
  {
    if v !in cfg.inSaleStatuses && v in cfg.reservedStatuses then SetSaleStatus(e, BookedByList) else e
  }

  /** A returning `set_in_sale` leaves `in_sale` at 0, 1 or `None`; a raising one leaves it as it was. */
  lemma {:induction false} SetInSaleRange(cfg: Config, e: Estate, value: Val)
    ensures var r := SetInSale(cfg, e, value);
      && (r.out.Pass? ==> r.e.inSale in {Some(0), Some(1), None})
      && (r.out.Fail? ==> r.e.inSale == e.inSale)
      && (r.out.Pass? <==> FinalInSale(ListedValue(cfg, WordValue(value))).Ok?)
  {
  }

  /** A word of the chain decides the availability, unless the configured lists map it again. */
  lemma {:induction false} SetInSaleOfWord(cfg: Config, e: Estate, s: string)
    requires SaleWord(Lower(s)).value.Some?
    requires cfg.inSaleStatuses == [] && cfg.reservedStatuses == [] && cfg.notInSaleStatuses == []
    ensures var r := SetInSale(cfg, e, Str(s));
      r.out == Pass && r.e.inSale == SaleWord(Lower(s)).value
  {
  }

  /** The chain's words: booked and reserved texts are available with a status; sold texts are not available. */
  lemma {:induction false} SaleWordStatuses(l: string)
    ensures Contains(l, "брон") ==> SaleWord(l) == Word(Some(Booked), Some(1), false)
    ensures !Contains(l, "брон") && Contains(l, "резерв") ==> SaleWord(l) == Word(Some(Reserved), Some(1), false)
    ensures SaleWord(l).value == Some(0) ==>
      Contains(l, "продан") || Contains(l, "sold") || Contains(l, "false") || Contains(l, "true")
    ensures SaleWord(l).status.Some? ==> SaleWord(l).value == Some(1)
  {
  }

  /**
   * `'true'` reads as not available (murinoclub.py:397-398), the same as
   * `'false'`: the chain maps both to 0.
   */
  lemma {:induction false} TrueMeansNotInSale(l: string)
    requires Contains(l, "true")
    requires !Contains(l, "брон") && !Contains(l, "резерв") && !Contains(l, "reserv") && !Contains(l, "book")
    requires !Contains(l, "вторичная продажа") && !Contains(l, "закрытые продажи") && !Contains(l, "свобод")
    requires !Contains(l, "акция") && !Contains(l, "выгодное предложение") && !Contains(l, "free")
    requires !Contains(l, "в продаже") && !Contains(l, "продан") && !Contains(l, "sold")
    ensures SaleWord(l).value == Some(0)
  {
  }

  /**
   * The last test of the chain never decides: text holding `unavailable`
   * holds `avail`, which an earlier test reads as available.
   */
  lemma {:induction false} UnavailableIsAvail(l: string)
    requires Contains(l, "unavailable")
    ensures Contains(l, "avail")
  {
    var i := IndexOf(l, "unavailable").value;
    assert "unavailable"[2..7] == "avail";
    OccursWithin(l, "unavailable", "avail", i, 2);
  }

  /** An occurrence inside an occurrence is an occurrence. */
  lemma {:induction false} OccursWithin(s: string, p: string, q: string, i: int, j: int)
    requires OccursAt(s, p, i) && OccursAt(p, q, j)
    ensures OccursAt(s, q, i + j)
  {
    forall k | 0 <= k < |q|
      ensures s[i + j + k] == q[k]
    {
      assert s[i..i + |p|][j + k] == p[j + k];
      assert p[j..j + |q|][k] == q[k];
    }
    assert s[i + j..i + j + |q|] == q;
  }

  /** A configured in-sale status makes the record available whatever the chain said. */
  lemma {:induction false} SetInSaleListed(cfg: Config, e: Estate, value: Val)
    requires (if value.Str? && SaleWord(Lower(value.s)).value.Some? then Int(SaleWord(Lower(value.s)).value.value) else value) in cfg.inSaleStatuses
    ensures SetInSale(cfg, e, value).out == Pass && SetInSale(cfg, e, value).e.inSale == Some(1)
  {
  }

  /** Integers other than 0 and 1 are refused. */
  lemma {:induction false} SetInSaleRefuses(cfg: Config, e: Estate, i: int)
    requires i != 0 && i != 1
    requires Int(i) !in cfg.inSaleStatuses && Int(i) !in cfg.reservedStatuses && Int(i) !in cfg.notInSaleStatuses
    ensures SetInSale(cfg, e, Int(i)) == Step(e, Fail(WrongInSale))
  {
  }

  // ---------------------------------------------------------------------
  // finished and furniture

  /** The values `set_finished` and `set_furniture` accept: 0, 1, `None` and `'optional'`. */
  predicate FlagValue(v: Val) {
    v == Int(0) || v == Int(1) || v == Nil || v == Str("optional")
  }

  /** `set_finished(value)` (murinoclub.py:420-423). */
  function SetFinished(e: Estate, value: Val): (r: Step)
    ensures r.e == e.(finished := r.e.finished)
    ensures r.out.Pass? <==> FlagValue(value)
    ensures r.out.Pass? ==> r.e.finished == value
    ensures r.out.Fail? ==> r == Step(e, Fail(WrongFinished))
  {
    if FlagValue(value) then Step(e.(finished := value), Pass) else Step(e, Fail(WrongFinished))
  }

  /** `set_furniture(value)` (murinoclub.py:486-489). */
  function SetFurniture(e: Estate, value: Val): (r: Step)
    ensures r.e == e.(furniture := r.e.furniture)
    ensures r.out.Pass? <==> FlagValue(value)
    ensures r.out.Pass? ==> r.e.furniture == value
    ensures r.out.Fail? ==> r == Step(e, Fail(WrongFurniture))
  {
    if FlagValue(value) then Step(e.(furniture := value), Pass) else Step(e, Fail(WrongFurniture))
  }

  /** `finished` and `furniture` only ever hold accepted values. */
  lemma {:induction false} FlagsStayValid(e: Estate, value: Val)
    requires FlagValue(e.finished) && FlagValue(e.furniture)
    ensures FlagValue(SetFinished(e, value).e.finished) && FlagValue(SetFurniture(e, value).e.furniture)
  {
  }

  // ---------------------------------------------------------------------
  // finishing_name

  /** Texts that say there is no finish, with the empty values (murinoclub.py:456-457). */
  const NotFinished: seq<string> := ["без отделки", "без ремонта", "нет"] + EmptyValues

  /** Texts that say only that there is a finish (murinoclub.py:464). */
  const FinishedWords: seq<string> := ["да", "есть", "1", "с отделкой", "true"]

  /**
   * `set_finishing_name(value)` (murinoclub.py:454-468): text holding a
   * no-finish word changes nothing; other non-empty text marks the record
   * finished and, unless it only says so, is kept as the finish's name.
   */
  function SetFinishingName(e: Estate, value: string): (r: Estate)
    ensures r == e.(finished := r.finished, finishingName := r.finishingName)
  {
    var v := Strip(value);
    if ContainsAny(Lower(v), NotFinished) || v == "" then e
    else
      var e1 := e.(finished := Int(1));
      if Lower(v) in FinishedWords then e1 else e1.(finishingName := Some(v))
  }

  /**
   * The three outcomes of `set_finishing_name`: nothing for an empty or a
   * no-finish text; otherwise finished, with the stripped text as the name
   * unless it is a bare yes.
   */
  lemma {:induction false} SetFinishingNameOutcomes(e: Estate, value: string)
    ensures var r := SetFinishingName(e, value);
      var v := Strip(value);
      && (ContainsAny(Lower(v), NotFinished) || v == "" ==> r == e)
      && (!ContainsAny(Lower(v), NotFinished) && v != "" ==>
            r.finished == Int(1) && FlagValue(r.finished)
            && r.finishingName == (if Lower(v) in FinishedWords then e.finishingName else Some(v)))
  {
  }
}
