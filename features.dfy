/**
 * The setters that accumulate descriptive text (murinoclub.py:543-565,
 * 573-577, 588-642): `set_feature`, `set_view`, `set_sale`, `set_level`,
 * `set_balcon` with `set_loggia` and `set_storeroom`, and `set_terrace`.
 */
module FeatureSetters {
  import opened Results
  import opened Text
  import opened Utils
  import opened EstateValues
  import Areas

  /** The restricted parts of `set_feature` and `set_view`: tab and newline, as the patterns they spell. */
  const TabNewline: seq<Pattern> := [[Char('\t')], [Char('\n')]]

  /** The texts `feature` holds, read as a list. */
  function FeatureItems(f: Features): seq<string> {
    match f
    case NoFeature => []
    case OneFeature(t) => [t]
    case FeatureList(items) => items
  }

  predicate Distinct(xs: seq<string>) {
    forall i, j :: 0 <= i < j < |xs| ==> xs[i] != xs[j]
  }

  /** A set `feature` turns into a list and gains `c` unless it holds it; an unset one becomes `c`. */
  function AddFeature(f: Features, c: string): Features {
    if FeatureSet(f) then
      var items := FeatureItems(f);
      FeatureList(if c in items then items else items + [c])
    else OneFeature(c)
  }

  /** The text `set_feature` and `set_view` keep: stripped, tabs and newlines removed. */
  function FeatureText(value: string): string {
    Cleaned(value, TabNewline)
  }

  /** Text that stands for euro planning rather than a feature. */
  predicate IsEuro(c: string) {
    Contains(Lower(c), "евро")
  }

  /**
   * `set_feature(value)` (murinoclub.py:543-556). Text holding `евро`
   * marks euro planning instead of being recorded.
   */
  function SetFeature(e: Estate, value: string): (r: Estate)
    ensures r == e.(feature := r.feature, euroPlanning := r.euroPlanning)
  {
    if value == "" then e
    else
      var c := FeatureText(value);
      e.(feature := if IsEuro(c) then e.feature else AddFeature(e.feature, c),
        euroPlanning := if IsEuro(c) then Some(1) else e.euroPlanning)
  }

  /** Text `set_feature` records as it is. */
  predicate PlainFeature(w: string) {
    w != "" && FeatureText(w) == w && !IsEuro(w)
  }

  /**
   * Appending records `c`; the texts held before stay, in order, and
   * nothing but `c` is added, and that only when it is not held already.
   */
  lemma {:induction false} AddFeatureRecords(f: Features, c: string)
    ensures var new_ := FeatureItems(AddFeature(f, c));
      && c in new_
      && (FeatureSet(f) ==> FeatureItems(f) <= new_ && new_[|FeatureItems(f)|..] == (if c in FeatureItems(f) then [] else [c]))
      && (!FeatureSet(f) ==> new_ == [c])
  {
  }

  /** Appending the same text again changes nothing but the list form. */
  lemma {:induction false} AddFeatureTwice(f: Features, c: string)
    ensures FeatureItems(AddFeature(AddFeature(f, c), c)) == FeatureItems(AddFeature(f, c))
  {
    var once := AddFeature(f, c);
    AddFeatureRecords(f, c);
    if FeatureSet(once) {
      assert c in FeatureItems(once);
      assert AddFeature(once, c) == FeatureList(FeatureItems(once));
    } else {
      assert AddFeature(once, c) == OneFeature(c);
      assert once == OneFeature(c);
    }
  }

  /** Appending keeps a list without duplicates so. */
  lemma {:induction false} AddFeatureKeepsDistinct(f: Features, c: string)
    requires Distinct(FeatureItems(f))
    ensures Distinct(FeatureItems(AddFeature(f, c)))
  {
    var items := FeatureItems(f);
    if FeatureSet(f) && c !in items {
      var n := items + [c];
      assert FeatureItems(AddFeature(f, c)) == n;
      forall i, j | 0 <= i < j < |n| ensures n[i] != n[j] {
        if j == |items| {
          assert n[i] == items[i];
        }
      }
    }
  }

  /** A recorded text ends up in `feature`, appended after what was held unless held already. */
  lemma {:induction false} SetFeatureRecords(e: Estate, value: string)
    requires value != "" && !IsEuro(FeatureText(value))
    ensures var c := FeatureText(value);
      var old_ := FeatureItems(e.feature);
      var new_ := FeatureItems(SetFeature(e, value).feature);
      && c in new_
      && (FeatureSet(e.feature) ==> old_ <= new_ && new_[|old_|..] == (if c in old_ then [] else [c]))
      && (!FeatureSet(e.feature) ==> new_ == [c])
      && SetFeature(e, value).euroPlanning == e.euroPlanning
  {
    AddFeatureRecords(e.feature, FeatureText(value));
  }

  /** `feature` never holds a text twice. */
  lemma {:induction false} SetFeatureKeepsDistinct(e: Estate, value: string)
    requires Distinct(FeatureItems(e.feature))
    ensures Distinct(FeatureItems(SetFeature(e, value).feature))
  {
    var c := FeatureText(value);
    if value == "" || IsEuro(c) {
      assert SetFeature(e, value).feature == e.feature;
    } else {
      assert SetFeature(e, value).feature == AddFeature(e.feature, c);
      AddFeatureKeepsDistinct(e.feature, c);
    }
  }

  /** Text holding `евро` sets `euro_planning` to 1 and leaves `feature` alone. */
  lemma {:induction false} SetFeatureEuro(e: Estate, value: string)
    requires value != "" && IsEuro(FeatureText(value))
    ensures SetFeature(e, value).feature == e.feature
    ensures SetFeature(e, value).euroPlanning == Some(1)
  {
  }

  /** A second call with the same text adds nothing more. */
  lemma {:induction false} SetFeatureTwice(e: Estate, value: string)
    ensures var once := SetFeature(e, value);
      FeatureItems(SetFeature(once, value).feature) == FeatureItems(once.feature)
      && SetFeature(once, value).euroPlanning == once.euroPlanning
  {
    var once := SetFeature(e, value);
    var c := FeatureText(value);
    if value != "" && !IsEuro(c) {
      assert once.feature == AddFeature(e.feature, c);
      assert SetFeature(once, value).feature == AddFeature(once.feature, c);
      AddFeatureTwice(e.feature, c);
    } else {
      assert once.feature == e.feature && SetFeature(once, value) == once;
    }
  }

  /** A plain text is recorded under its own spelling. */
  lemma {:induction false} SetPlainFeature(e: Estate, w: string)
    requires PlainFeature(w)
    ensures w in FeatureItems(SetFeature(e, w).feature)
    ensures SetFeature(e, w).euroPlanning == e.euroPlanning
  {
    SetFeatureRecords(e, w);
  }

  // ---------------------------------------------------------------------
  // view and sale

  function ViewItems(v: Option<seq<string>>): seq<string> {
    if v.Some? then v.value else []
  }

  /** `set_view(value)` (murinoclub.py:558-565): append the cleaned text, starting a list when there is none. */
  function SetView(e: Estate, value: string): (r: Estate)
    ensures r == e.(view := r.view)
  {
    if value == "" then e
    else
      e.(view := AppendView(e.view, FeatureText(value)))
  }

  /** The view list with `c` appended, or a list of `c` alone when there is none yet. */
  function AppendView(v: Option<seq<string>>, c: string): Option<seq<string>> {
    Some(if v.Some? && v.value != [] then v.value + [c] else [c])
  }

  /** Every non-empty view text is appended, in order. */
  lemma {:induction false} SetViewAppends(e: Estate, value: string)
    requires value != ""
    ensures ViewItems(SetView(e, value).view) == ViewItems(e.view) + [FeatureText(value)]
  {
    AppendViewItems(e.view, FeatureText(value));
  }

  lemma {:induction false} AppendViewItems(v: Option<seq<string>>, c: string)
    ensures ViewItems(AppendView(v, c)) == ViewItems(v) + [c]
  {
    if v.None? || v.value == [] {
      assert ViewItems(v) + [c] == [c];
    }
  }

  function SaleText(s: Option<string>): string {
    if s.Some? then s.value else ""
  }

  /** `set_sale(value)` (murinoclub.py:573-577): append to the notes after `; `, or start them. */
  function SetSale(e: Estate, value: string): (r: Estate)
    ensures r == e.(sale := r.sale)
  {
    e.(sale := Some(if TextSet(e.sale) then e.sale.value + "; " + value else value))
  }

  /** Notes given one by one end up joined by `; `, in order. */
  lemma {:induction false} SetSaleJoins(e: Estate, notes: seq<string>, value: string)
    requires forall i :: 0 <= i < |notes| ==> notes[i] != ""
    requires SaleText(e.sale) == Join("; ", notes)
    ensures SaleText(SetSale(e, value).sale) == Join("; ", notes + [value])
  {
    if notes != [] {
      JoinEnds("; ", notes);
      JoinSnoc("; ", notes, value);
    } else {
      assert notes + [value] == [value];
    }
  }

  lemma {:induction false} JoinSnoc(sep: string, parts: seq<string>, v: string)
    requires |parts| >= 1
    ensures Join(sep, parts + [v]) == Join(sep, parts) + sep + v
    decreases |parts|
  {
    if |parts| > 1 {
      assert (parts + [v])[1..] == parts[1..] + [v];
      JoinSnoc(sep, parts[1..], v);
    }
  }

  // ---------------------------------------------------------------------
  // Levels, balconies, terraces

  /** `str(value)`. */
  function ValText(v: Val): string {
    match v
    case Str(s) => s
    case Int(i) => IntToString(i)
    case Nil => "None"
  }

  const TwoLevels: string := "Двухуровневая"

  /** `set_level(value)` (murinoclub.py:588-592): a two-level home is a feature. */
  function SetLevel(e: Estate, value: Val): (r: Estate)
    ensures r == e.(feature := r.feature, euroPlanning := r.euroPlanning)
  {
    if (value.Str? && Contains(Lower(value.s), "двухуровневая")) || Contains(ValText(value), "2") then
      SetFeature(e, TwoLevels)
    else e
  }

  const Balcony: string := "Балкон"
  const Loggia: string := "Лоджия"
  const StoreroomKind: string := "Кладовая"
  const Terrace: string := "Терраса"

  /** The record after `set_feature(kind)` when `matched`, unchanged otherwise. */
  function MarkIf(e: Estate, matched: bool, kind: string): Estate {
    if matched then SetFeature(e, kind) else e
  }

  /**
   * Text that names no kind but reads as a non-zero area counts as a
   * mark; text that is no area counts as none, since the exception is
   * swallowed.
   */
  predicate NonZeroArea(s: string) {
    var a := Areas.AreaCleaner(Str(s));
    a.Ok? && a.value != 0.0
  }

  /** `set_balcon(value, balcon_type)` (murinoclub.py:594-617); it never raises. */
  function SetBalcon(e: Estate, value: Val, kind: string): (r: Estate)
    ensures r == e.(feature := r.feature, euroPlanning := r.euroPlanning)
  {
    match value
    case Str(s) =>
      var l := Lower(s);
      var e1 := MarkIf(e, Contains(l, "терраса"), Terrace);
      if Contains(l, "балкон") then SetFeature(e1, kind)
      else if Contains(l, "лоджия") then SetFeature(e1, Loggia)
      else MarkIf(e1, Contains(l, "да") || Contains(l, "есть") || Contains(l, "+") || NonZeroArea(s), kind)
    case Int(i) => MarkIf(e, i != 0, kind)
    case Nil => e
  }

  /** `set_loggia` (murinoclub.py:619-620). */
  function SetLoggia(e: Estate, value: Val): Estate {
    SetBalcon(e, value, Loggia)
  }

  /** `set_storeroom` (murinoclub.py:622-623). */
  function SetStoreroom(e: Estate, value: Val): Estate {
    SetBalcon(e, value, StoreroomKind)
  }

  /** `set_terrace(value)` (murinoclub.py:625-642); it never raises. */
  function SetTerrace(e: Estate, value: Val): (r: Estate)
    ensures r == e.(feature := r.feature, euroPlanning := r.euroPlanning)
  {
    match value
    case Str(s) =>
      var l := Lower(s);
      MarkIf(e, Contains(l, "да") || Contains(l, "есть") || Contains(l, "терраса") || NonZeroArea(s), Terrace)
    case Int(i) => MarkIf(e, i != 0, Terrace)
    case Nil => e
  }

  // ---------------------------------------------------------------------
  // What the mark setters record

  /** Stripped text without tabs and newlines is kept as it is. */
  lemma {:induction false} FeatureTextOfClean(w: string)
    requires IsStripped(w) && '\t' !in w && '\n' !in w
    ensures FeatureText(w) == w
  {
    ControlFree(w, '\t');
    ControlFree(w, '\n');
    RemoveAbsentAtom(w, Char('\t'));
    RemoveAbsentAtom(w, Char('\n'));
    var rest := TabNewline[1..];
    assert rest == [[Char('\n')]] && rest[1..] == [];
    calc {
      FeatureText(w);
      RemoveEach(Strip(w), TabNewline);
      RemoveEach(w, TabNewline);
      RemoveEach(Strip(RemovePattern(w, [Char('\t')])), rest);
      RemoveEach(w, rest);
      RemoveEach(Strip(RemovePattern(w, [Char('\n')])), []);
      w;
    }
  }

  /** A control character matches, ignoring case, only itself. */
  lemma {:induction false} ControlFree(w: string, c: char)
    requires c == '\t' || c == '\n'
    requires c !in w
    ensures FreeOf(w, Char(c))
  {
    forall k | 0 <= k < |w| ensures !AtomMatches(Char(c), w[k]) {
      assert w[k] != c;
      assert LowerChar(c) == c;
    }
  }

  /** Text in which, lowered, some letter of `евро` never occurs is not euro planning. */
  lemma {:induction false} NotEuro(w: string, j: nat)
    requires j < 4
    requires forall k :: 0 <= k < |w| ==> LowerChar(w[k]) != "евро"[j]
    ensures !IsEuro(w)
  {
    var s := Lower(w);
    var p := "евро";
    forall k | 0 <= k && k + |p| <= |s| ensures !OccursAt(s, p, k) {
      assert s[k..k + |p|][j] == s[k + j];
    }
  }

  /** Clean text without some letter of `евро` is plain. */
  lemma {:induction false} PlainKind(w: string, j: nat)
    requires w != "" && IsStripped(w) && '\t' !in w && '\n' !in w
    requires j < 4
    requires forall k :: 0 <= k < |w| ==> LowerChar(w[k]) != "евро"[j]
    ensures PlainFeature(w)
  {
    FeatureTextOfClean(w);
    NotEuro(w, j);
  }

  /** The kinds the mark setters record are kept under their own spelling. */
  lemma {:induction false} KindsArePlain()
    ensures PlainFeature(Balcony) && PlainFeature(Loggia) && PlainFeature(StoreroomKind) && PlainFeature(Terrace)
  {
    KindIsPlain(Balcony, 0);
    KindIsPlain(Loggia, 0);
    KindIsPlain(StoreroomKind, 0);
    KindIsPlain(Terrace, 1);
  }

  lemma {:induction false} KindIsPlain(w: string, j: nat)
    requires w in [Balcony, Loggia, StoreroomKind, Terrace]
    requires j == if w == Terrace then 1 else 0
    ensures PlainFeature(w)
  {
    assert IsStripped(w);
    assert '\t' !in w && '\n' !in w;
    assert forall k :: 0 <= k < |w| ==> LowerChar(w[k]) != "евро"[j];
    PlainKind(w, j);
  }

  /** Text in which, lowered, no `е` stands two letters before an `р` is not euro planning. */
  lemma {:induction false} NotEuroPair(w: string)
    requires forall k :: 0 <= k && k + 2 < |w| ==> LowerChar(w[k]) != 'е' || LowerChar(w[k + 2]) != 'р'
    ensures !IsEuro(w)
  {
    var s := Lower(w);
    var p := "евро";
    assert |p| == 4 && p[0] == 'е' && p[2] == 'р';
    forall k | 0 <= k && k + |p| <= |s| ensures !OccursAt(s, p, k) {
      NotOccursAtPair(s, p, k);
    }
  }

  /** `p` does not occur at `k` when the letters at `k` and `k + 2` differ from its first and third. */
  lemma {:induction false} NotOccursAtPair(s: string, p: string, k: int)
    requires |p| >= 3 && 0 <= k
    requires k + 2 < |s| ==> s[k] != p[0] || s[k + 2] != p[2]
    ensures !OccursAt(s, p, k)
  {
  }

  /** Clean text in which no `е` stands two letters before an `р` is plain. */
  lemma {:induction false} PlainOfPair(w: string)
    requires w != "" && IsStripped(w) && '\t' !in w && '\n' !in w
    requires forall k :: 0 <= k && k + 2 < |w| ==> LowerChar(w[k]) != 'е' || LowerChar(w[k + 2]) != 'р'
    ensures PlainFeature(w)
  {
    FeatureTextOfClean(w);
    NotEuroPair(w);
  }

  lemma {:induction false} TwoLevelsClean()
    ensures TwoLevels != "" && IsStripped(TwoLevels) && '\t' !in TwoLevels && '\n' !in TwoLevels
  {
  }

  lemma {:induction false} TwoLevelsPairs()
    ensures forall k :: 0 <= k && k + 2 < |TwoLevels| ==> LowerChar(TwoLevels[k]) != 'е' || LowerChar(TwoLevels[k + 2]) != 'р'
  {
  }

  /** `Двухуровневая` is plain too: its one `р` is not preceded by `е?`. */
  lemma {:induction false} TwoLevelsIsPlain()
    ensures PlainFeature(TwoLevels)
  {
    TwoLevelsClean();
    TwoLevelsPairs();
    PlainOfPair(TwoLevels);
  }

  /** A non-empty text once held stays held. */
  lemma {:induction false} SetFeatureKeeps(e: Estate, value: string, w: string)
    requires w != "" && w in FeatureItems(e.feature)
    ensures w in FeatureItems(SetFeature(e, value).feature)
  {
    assert FeatureSet(e.feature);
    var c := FeatureText(value);
    if value != "" && !IsEuro(c) {
      assert SetFeature(e, value).feature == AddFeature(e.feature, c);
      AddFeatureRecords(e.feature, c);
    } else {
      assert SetFeature(e, value).feature == e.feature;
    }
  }

  /**
   * What `set_balcon` records: its kind for text naming a balcony, saying
   * yes or reading as a non-zero area and for a non-zero number, a loggia
   * for text naming one, and a terrace besides for text naming one.
   */
  lemma {:induction false} SetBalconRecords(e: Estate, value: Val, kind: string)
    requires PlainFeature(kind)
    ensures var r := SetBalcon(e, value, kind);
      var l := if value.Str? then Lower(value.s) else "";
      && (value.Str? && (Contains(l, "балкон") || (!Contains(l, "лоджия") && (Contains(l, "да") || Contains(l, "есть") || Contains(l, "+") || NonZeroArea(value.s))))
          ==> kind in FeatureItems(r.feature))
      && (value.Str? && !Contains(l, "балкон") && Contains(l, "лоджия") ==> Loggia in FeatureItems(r.feature))
      && (value.Str? && Contains(l, "терраса") ==> Terrace in FeatureItems(r.feature))
      && (value.Int? && value.i != 0 ==> kind in FeatureItems(r.feature))
      && ((value.Int? && value.i == 0) || value.Nil? ==> r == e)
      && r.euroPlanning == e.euroPlanning
  {
    KindsArePlain();
    match value
    case Str(s) =>
      var l := Lower(s);
      var e1 := MarkIf(e, Contains(l, "терраса"), Terrace);
      if Contains(l, "терраса") {
        SetPlainFeature(e, Terrace);
      }
      if Contains(l, "балкон") {
        SetPlainFeature(e1, kind);
        if Contains(l, "терраса") { SetFeatureKeeps(e1, kind, Terrace); }
      } else if Contains(l, "лоджия") {
        SetPlainFeature(e1, Loggia);
        if Contains(l, "терраса") { SetFeatureKeeps(e1, Loggia, Terrace); }
      } else if Contains(l, "да") || Contains(l, "есть") || Contains(l, "+") || NonZeroArea(s) {
        SetPlainFeature(e1, kind);
        if Contains(l, "терраса") { SetFeatureKeeps(e1, kind, Terrace); }
      }
    case Int(i) =>
      if i != 0 { SetPlainFeature(e, kind); }
    case Nil =>
  }

  /** A mark records a plain kind when it applies, keeps `feature` free of duplicates, and changes nothing otherwise. */
  lemma {:induction false} MarkIfRecords(e: Estate, matched: bool, kind: string)
    requires PlainFeature(kind)
    ensures matched ==> kind in FeatureItems(MarkIf(e, matched, kind).feature)
    ensures !matched ==> MarkIf(e, matched, kind) == e
    ensures Distinct(FeatureItems(e.feature)) ==> Distinct(FeatureItems(MarkIf(e, matched, kind).feature))
  {
    if matched {
      SetPlainFeature(e, kind);
      if Distinct(FeatureItems(e.feature)) {
        SetFeatureKeepsDistinct(e, kind);
      }
    }
  }

  /** The marks keep `feature` free of duplicates. */
  lemma {:induction false} SetBalconKeepsDistinct(e: Estate, value: Val, kind: string)
    requires Distinct(FeatureItems(e.feature))
    ensures Distinct(FeatureItems(SetBalcon(e, value, kind).feature))
  {
    var r := SetBalcon(e, value, kind);
    match value
    case Str(s) =>
      var l := Lower(s);
      var e1 := MarkIf(e, Contains(l, "терраса"), Terrace);
      SetFeatureKeepsDistinct(e, Terrace);
      assert Distinct(FeatureItems(e1.feature));
      assert r == SetFeature(e1, kind) || r == SetFeature(e1, Loggia) || r == e1;
      SetFeatureKeepsDistinct(e1, kind);
      SetFeatureKeepsDistinct(e1, Loggia);
    case Int(i) =>
      assert r == SetFeature(e, kind) || r == e;
      SetFeatureKeepsDistinct(e, kind);
    case Nil =>
  }

  /** What `set_terrace` records: a terrace for text saying yes, naming one or reading as a non-zero area, and for a non-zero number. */
  lemma {:induction false} SetTerraceRecords(e: Estate, value: Val)
    ensures var r := SetTerrace(e, value);
      && (value.Str? && (var l := Lower(value.s);
            Contains(l, "да") || Contains(l, "есть") || Contains(l, "терраса") || NonZeroArea(value.s))
          ==> Terrace in FeatureItems(r.feature))
      && (value.Int? && value.i != 0 ==> Terrace in FeatureItems(r.feature))
      && ((value.Int? && value.i == 0) || value.Nil? ==> r == e)
      && (Distinct(FeatureItems(e.feature)) ==> Distinct(FeatureItems(r.feature)))
  {
    KindsArePlain();
    match value
    case Str(s) =>
      var l := Lower(s);
      MarkIfRecords(e, Contains(l, "да") || Contains(l, "есть") || Contains(l, "терраса") || NonZeroArea(s), Terrace);
    case Int(i) =>
      MarkIfRecords(e, i != 0, Terrace);
    case Nil =>
  }

  /** `set_level` records a two-level home for text naming one and for any value whose text holds a `2`. */
  lemma {:induction false} SetLevelRecords(e: Estate, value: Val)
    ensures var r := SetLevel(e, value);
      && ((value.Str? && Contains(Lower(value.s), "двухуровневая")) || Contains(ValText(value), "2")
          ==> TwoLevels in FeatureItems(r.feature))
      && (!(value.Str? && Contains(Lower(value.s), "двухуровневая")) && !Contains(ValText(value), "2") ==> r == e)
  {
    TwoLevelsIsPlain();
    SetPlainFeature(e, TwoLevels);
  }

  /** A level of 2 marks the home two-level, a level of 1 does not. */
  lemma {:induction false} SetLevelOfNumber(e: Estate)
    ensures TwoLevels in FeatureItems(SetLevel(e, Int(2)).feature)
    ensures SetLevel(e, Int(1)) == e
  {
    assert ValText(Int(2)) == "2";
    assert Contains("2", "2") by { assert OccursAt("2", "2", 0); }
    assert ValText(Int(1)) == "1";
    assert !Contains("1", "2") by { assert "1"[0..1] == "1"; }
    SetLevelRecords(e, Int(2));
  }
}
