/**
 * The static helpers of `Utils`: `remove_restricted` (also copied onto
 * `EstateObject`), `_normalize_str`, `split_floors` and `parse_post_data`.
 */
module Utils {
  import opened Results
  import opened Errors
  import opened Text

  // ---------------------------------------------------------------------
  // The restricted parts handed to `re.sub(part, '', value, flags=re.I)`

  /**
   * One position of a restricted part read as a regex: a character matched
   * without regard to case, `.` (any character but a newline), or `\s`.
   */
  datatype Atom = Char(c: char) | AnyChar | Space

  /** A restricted part: every one the normaliser uses is a fixed-length regex. */
  type Pattern = seq<Atom>

  /** The regex a restricted-part string spells: `.` is any character, `\s` whitespace, `\x` the character `x`. */
  function Rx(s: string): (p: Pattern)
    ensures |p| <= |s|
    ensures |s| > 0 ==> |p| > 0
    decreases |s|
  {
    if s == [] then []
    else if s[0] == '\\' && |s| >= 2 then [if s[1] == 's' then Space else Char(s[1])] + Rx(s[2..])
    else if s[0] == '.' then [AnyChar] + Rx(s[1..])
    else [Char(s[0])] + Rx(s[1..])
  }

  /** The restricted-part strings of a list, read as regexes. */
  function Rxs(parts: seq<string>): seq<Pattern> {
    if parts == [] then [] else [Rx(parts[0])] + Rxs(parts[1..])
  }

  /** Each part is read on its own. */
  lemma {:induction false} RxsAt(parts: seq<string>)
    ensures |Rxs(parts)| == |parts|
    ensures forall i :: 0 <= i < |parts| ==> Rxs(parts)[i] == Rx(parts[i])
    decreases |parts|
  {
    if parts != [] {
      RxsAt(parts[1..]);
    }
  }

  predicate AtomMatches(a: Atom, c: char) {
    match a
    case Char(p) => LowerChar(c) == LowerChar(p)
    case AnyChar => c != '\n'
    case Space => IsSpace(c)
  }

  /** `p` matches `s` at index `i`. */
  predicate MatchesAt(s: string, p: Pattern, i: nat) {
    i + |p| <= |s| && forall k :: 0 <= k < |p| ==> AtomMatches(p[k], s[i + k])
  }

  /** `re.sub(p, '', s, flags=re.I)`: the leftmost non-overlapping matches of `p` are dropped. */
  function RemovePattern(s: string, p: Pattern): (r: string)
    ensures |r| <= |s|
    decreases |s|
  {
    if |p| == 0 || |s| < |p| then s
    else if MatchesAt(s, p, 0) then RemovePattern(s[|p|..], p)
    else [s[0]] + RemovePattern(s[1..], p)
  }

  /** The rest of `remove_restricted` once the value is stripped: each part removed in turn, stripping after each. */
  function RemoveEach(v: string, restricted: seq<Pattern>): string
    decreases |restricted|
  {
    if restricted == [] then v else RemoveEach(Strip(RemovePattern(v, restricted[0])), restricted[1..])
  }

  /** What `remove_restricted(value, restricted)` returns for a string `value`. */
  function Cleaned(value: string, restricted: seq<Pattern>): string {
    RemoveEach(Strip(value), restricted)
  }

  /** `remove_restricted` on a string (murinoclub.py:777-782, and its copy at 116-121). */
  method RemoveRestricted(value: string, restricted: seq<Pattern>) returns (r: string)
    ensures r == Cleaned(value, restricted)
  {
    r := Strip(value);
    var i := 0;
    while i < |restricted|
      invariant 0 <= i <= |restricted|
      invariant RemoveEach(r, restricted[i..]) == Cleaned(value, restricted)
    {
      RemoveEachStep(r, restricted, i);
      r := Strip(RemovePattern(r, restricted[i]));
      i := i + 1;
    }
  }

  lemma {:induction false} RemoveEachStep(v: string, restricted: seq<Pattern>, i: nat)
    requires i < |restricted|
    ensures RemoveEach(v, restricted[i..]) == RemoveEach(Strip(RemovePattern(v, restricted[i])), restricted[i + 1..])
  {
    assert restricted[i..][1..] == restricted[i + 1..];
  }

  /** No character of `s` matches the one-character pattern `a`. */
  predicate FreeOf(s: string, a: Atom) {
    forall k :: 0 <= k < |s| ==> !AtomMatches(a, s[k])
  }

  /** `re.sub` only drops characters. */
  lemma {:induction false} RemovePatternChars(s: string, p: Pattern)
    ensures forall k :: 0 <= k < |RemovePattern(s, p)| ==> RemovePattern(s, p)[k] in s
    decreases |s|
  {
    if |p| == 0 || |s| < |p| {
    } else if MatchesAt(s, p, 0) {
      RemovePatternChars(s[|p|..], p);
      forall k | 0 <= k < |RemovePattern(s, p)| ensures RemovePattern(s, p)[k] in s {
        assert RemovePattern(s, p)[k] in s[|p|..];
      }
    } else {
      RemovePatternChars(s[1..], p);
      var r := RemovePattern(s, p);
      forall k | 0 <= k < |r| ensures r[k] in s {
        if k > 0 { assert r[k] == RemovePattern(s[1..], p)[k - 1]; assert r[k] in s[1..]; }
      }
    }
  }

  /** A one-character pattern that matches nothing in `s` leaves it as it is. */
  lemma {:induction false} RemoveAbsentAtom(s: string, a: Atom)
    requires FreeOf(s, a)
    ensures RemovePattern(s, [a]) == s
    decreases |s|
  {
    if |s| >= 1 {
      assert !AtomMatches([a][0], s[0 + 0]);
      assert !MatchesAt(s, [a], 0);
      RemoveAbsentAtom(s[1..], a);
      assert [s[0]] + s[1..] == s;
    }
  }

  /** Removing a one-character pattern removes every character it matches. */
  lemma {:induction false} RemoveSingleAtom(s: string, a: Atom)
    ensures FreeOf(RemovePattern(s, [a]), a)
    decreases |s|
  {
    if |s| >= 1 {
      RemoveSingleAtom(s[1..], a);
      assert s[1..] == s[|[a]|..];
      if !MatchesAt(s, [a], 0) {
        var r := RemovePattern(s, [a]);
        forall k | 0 <= k < |r| ensures !AtomMatches(a, r[k]) {
          if k > 0 { assert r[k] == RemovePattern(s[1..], [a])[k - 1]; }
        }
      }
    }
  }

  lemma {:induction false} StripChars(s: string)
    ensures forall k :: 0 <= k < |Strip(s)| ==> Strip(s)[k] in s
  {
    var r := Strip(s);
    var o := |s| - |LStrip(s)|;
    StripShape(s);
    assert r == s[o..o + |r|];
    forall k | 0 <= k < |r| ensures r[k] in s {
      assert r[k] == s[o + k];
    }
  }

  /** One removal step keeps only characters of its input and stays free of what the input was free of. */
  lemma {:induction false} StepChars(v: string, p: Pattern)
    ensures forall k :: 0 <= k < |Strip(RemovePattern(v, p))| ==> Strip(RemovePattern(v, p))[k] in v
  {
    var m := RemovePattern(v, p);
    RemovePatternChars(v, p);
    StripChars(m);
  }

  lemma {:induction false} RemoveEachShape(v: string, restricted: seq<Pattern>)
    requires IsStripped(v)
    ensures IsStripped(RemoveEach(v, restricted))
    ensures |RemoveEach(v, restricted)| <= |v|
    decreases |restricted|
  {
    if restricted != [] {
      RemoveEachShape(Strip(RemovePattern(v, restricted[0])), restricted[1..]);
    }
  }

  lemma {:induction false} RemoveEachChars(v: string, restricted: seq<Pattern>)
    ensures forall k :: 0 <= k < |RemoveEach(v, restricted)| ==> RemoveEach(v, restricted)[k] in v
    decreases |restricted|
  {
    if restricted != [] {
      var m := Strip(RemovePattern(v, restricted[0]));
      RemoveEachChars(m, restricted[1..]);
      StepChars(v, restricted[0]);
    }
  }

  lemma {:induction false} RemoveEachKeepsFree(v: string, restricted: seq<Pattern>, a: Atom)
    requires FreeOf(v, a)
    ensures FreeOf(RemoveEach(v, restricted), a)
  {
    RemoveEachChars(v, restricted);
  }

  lemma {:induction false} RemoveEachFree(v: string, restricted: seq<Pattern>, j: nat)
    requires j < |restricted| && |restricted[j]| == 1
    ensures FreeOf(RemoveEach(v, restricted), restricted[j][0])
    decreases j
  {
    var m := Strip(RemovePattern(v, restricted[0]));
    if j == 0 {
      var a := restricted[0][0];
      assert restricted[0] == [a];
      RemoveSingleAtom(v, a);
      StripChars(RemovePattern(v, [a]));
      RemoveEachKeepsFree(m, restricted[1..], a);
    } else {
      assert restricted[1..][j - 1] == restricted[j];
      RemoveEachFree(m, restricted[1..], j - 1);
    }
  }

  /**
   * `remove_restricted` returns stripped text, no longer than its input, made
   * of the input's characters, and with no character left that a
   * one-character restricted part matches.
   */
  lemma {:induction false} CleanedProperties(value: string, restricted: seq<Pattern>)
    ensures IsStripped(Cleaned(value, restricted))
    ensures |Cleaned(value, restricted)| <= |value|
    ensures forall k :: 0 <= k < |Cleaned(value, restricted)| ==> Cleaned(value, restricted)[k] in value
    ensures forall j :: 0 <= j < |restricted| && |restricted[j]| == 1 ==> FreeOf(Cleaned(value, restricted), restricted[j][0])
  {
    var v := Strip(value);
    RemoveEachShape(v, restricted);
    RemoveEachChars(v, restricted);
    StripChars(value);
    forall j | 0 <= j < |restricted| && |restricted[j]| == 1 ensures FreeOf(Cleaned(value, restricted), restricted[j][0]) {
      RemoveEachFree(v, restricted, j);
    }
  }

  /** The shape part of `CleanedProperties` alone: stripped and no longer than the input. */
  lemma {:induction false} CleanedStripped(value: string, restricted: seq<Pattern>)
    ensures IsStripped(Cleaned(value, restricted)) && |Cleaned(value, restricted)| <= |value|
  {
    CleanedProperties(value, restricted);
  }

  /** With no restricted parts, `remove_restricted` is `strip()`. */
  lemma {:induction false} CleanedNothing(value: string)
    ensures Cleaned(value, []) == Strip(value)
  {
  }

  // ---------------------------------------------------------------------
  // _normalize_str

  /** `re.sub(r'\s', ' ', s)`. */
  function Blanked(s: string): (r: string)
    ensures |r| == |s|
    ensures forall i :: 0 <= i < |s| ==> r[i] == if IsSpace(s[i]) then ' ' else s[i]
  {
    if s == [] then [] else [if IsSpace(s[0]) then ' ' else s[0]] + Blanked(s[1..])
  }

  /** `_normalize_str` (murinoclub.py:785-786). */
  function NormalizeStr(s: string): string {
    Join(" ", Words(Strip(Blanked(s))))
  }

  /** Normal text: no whitespace at either end, every whitespace character a blank, never two blanks in a row. */
  predicate IsNormal(s: string) {
    IsStripped(s)
    && (forall i :: 0 <= i < |s| && IsSpace(s[i]) ==> s[i] == ' ')
    && (forall i :: 0 <= i < |s| - 1 ==> !BlanksAt(s, i))
  }

  /** Two blanks in a row at index `i`. */
  predicate BlanksAt(s: string, i: nat)
    requires i + 1 < |s|
  {
    s[i] == ' ' && s[i + 1] == ' '
  }

  /** The blank-joined words of any text are normal. */
  lemma {:induction false} JoinWordsIsNormal(ws: seq<string>)
    requires forall i :: 0 <= i < |ws| ==> IsWord(ws[i])
    ensures IsNormal(Join(" ", ws))
    decreases |ws|
  {
    if |ws| == 1 {
    } else if |ws| >= 2 {
      var w := ws[0];
      var rest := Join(" ", ws[1..]);
      JoinWordsIsNormal(ws[1..]);
      JoinEnds(" ", ws[1..]);
      JoinEnds(" ", ws);
      var s := Join(" ", ws);
      assert s == w + " " + rest;
      forall i | 0 <= i < |s| && IsSpace(s[i]) ensures s[i] == ' ' {
        if i > |w| { assert s[i] == rest[i - |w| - 1]; }
      }
      forall i | 0 <= i < |s| - 1 ensures !BlanksAt(s, i) {
        if i == |w| { assert s[i + 1] == rest[0]; }
        else if i > |w| {
          assert s[i] == rest[i - |w| - 1];
          assert s[i + 1] == rest[i - |w|];
          assert !BlanksAt(rest, i - |w| - 1);
        }
      }
    }
  }

  /** A normal text after a blank is normal. */
  lemma {:induction false} NormalAfterBlank(s: string, n: nat)
    requires IsNormal(s) && n < |s| && s[n] == ' '
    ensures n + 1 < |s| && s[n + 1] != ' '
    ensures IsNormal(s[n + 1..])
  {
    var rest := s[n + 1..];
    forall i | 0 <= i < |rest| && IsSpace(rest[i]) ensures rest[i] == ' ' { assert rest[i] == s[n + 1 + i]; }
    forall i | 0 <= i < |rest| - 1 ensures !BlanksAt(rest, i) {
      assert rest[i] == s[n + 1 + i];
      assert rest[i + 1] == s[n + 2 + i];
      assert !BlanksAt(s, n + 1 + i);
    }
    if n + 1 < |s| { assert !BlanksAt(s, n); }
  }

  lemma {:induction false} SliceAt(s: string, n: nat)
    requires n < |s|
    ensures s[n..] == [s[n]] + s[n + 1..]
  {
  }

  lemma {:induction false} JoinAfterBlank(s: string, n: nat, ws: seq<string>)
    requires n < |s| && s[n] == ' '
    requires |ws| > 0 && Join(" ", ws) == s[n + 1..]
    ensures Join(" ", [s[..n]] + ws) == s
  {
    assert ([s[..n]] + ws)[1..] == ws;
    assert s == s[..n] + " " + s[n + 1..];
  }

  /** One word, a blank, and text that is already the blank-join of its words. */
  lemma {:induction false} JoinWordsStep(s: string, n: nat)
    requires s != [] && !IsSpace(s[0])
    requires n == WordLen(s) && n + 1 < |s| && s[n] == ' ' && !IsSpace(s[n + 1])
    requires Join(" ", Words(s[n + 1..])) == s[n + 1..]
    ensures Join(" ", Words(s)) == s
  {
    var rest := s[n + 1..];
    assert LStrip(s) == s;
    WordsStep(s);
    SliceAt(s, n);
    WordsAfterBlank(rest);
    WordsStep(rest);
    assert LStrip(rest) == rest;
    var ws := Words(rest);
    assert Words(s) == [s[..n]] + ws;
    JoinAfterBlank(s, n, ws);
  }

  /** Normal text is the blank-join of its words. */
  lemma {:induction false} JoinWordsOfNormal(s: string)
    requires IsNormal(s)
    ensures Join(" ", Words(s)) == s
    decreases |s|
  {
    if s != [] {
      var n := WordLen(s);
      if n == |s| {
        WordLenNoSpace(s);
        WordsOfWord(s);
      } else {
        NormalAfterBlank(s, n);
        JoinWordsOfNormal(s[n + 1..]);
        JoinWordsStep(s, n);
      }
    }
  }

  /** `_normalize_str` keeps the words of its input. */
  lemma {:induction false} NormalizeStrWords(s: string)
    ensures Words(NormalizeStr(s)) == Words(s)
  {
    var b := Blanked(s);
    assert SameShape(b, s);
    WordsSameShape(b, s);
    WordsStrip(b);
    WordsAreWords(Strip(b));
    WordsOfJoin(Words(Strip(b)));
  }

  /** `_normalize_str` always returns normal text. */
  lemma {:induction false} NormalizeStrIsNormal(s: string)
    ensures IsNormal(NormalizeStr(s))
  {
    WordsAreWords(Strip(Blanked(s)));
    JoinWordsIsNormal(Words(Strip(Blanked(s))));
  }

  /** The texts `_normalize_str` leaves alone are exactly the normal ones. */
  lemma {:induction false} NormalizeStrFixedPoints(s: string)
    ensures NormalizeStr(s) == s <==> IsNormal(s)
  {
    NormalizeStrIsNormal(s);
    if IsNormal(s) {
      var b := Blanked(s);
      assert SameShape(b, s);
      WordsSameShape(b, s);
      WordsStrip(b);
      JoinWordsOfNormal(s);
    }
  }

  lemma {:induction false} NormalizeStrIdempotent(s: string)
    ensures NormalizeStr(NormalizeStr(s)) == NormalizeStr(s)
  {
    NormalizeStrIsNormal(s);
    NormalizeStrFixedPoints(NormalizeStr(s));
  }

  // ---------------------------------------------------------------------
  // split_floors

  /** What `re.sub(r'[а-яА-я]', '', s, flags=re.I)` removes: U+0410..U+044F, and the old letter forms U+1C80..U+1C86 whose upper case lies there. */
  predicate IsRemovedLetter(c: char) {
    0x410 <= c as int <= 0x44F || 0x1C80 <= c as int <= 0x1C86
  }

  function DropLetters(s: string): (r: string)
    ensures |r| <= |s|
    ensures (forall k :: 0 <= k < |s| ==> !IsRemovedLetter(s[k])) ==> r == s
  {
    if s == [] then [] else (if IsRemovedLetter(s[0]) then [] else [s[0]]) + DropLetters(s[1..])
  }

  /** The floor text once letters are dropped, `;` read as `,` and an en dash as `-`. */
  function FloorText(t: string): (u: string)
    ensures |u| <= |t|
  {
    Replace(Replace(DropLetters(t), ";", ","), "\U{2013}", "-")
  }

  /** `list(range(a, b))`. */
  function Range(a: int, b: int): (r: seq<int>)
    ensures |r| == if a <= b then b - a else 0
    decreases b - a
  {
    if a >= b then [] else [a] + Range(a + 1, b)
  }

  /** The `k`-th element of `range(a, b)` is `a + k`. */
  lemma {:induction false} RangeValues(a: int, b: int)
    ensures forall k :: 0 <= k < |Range(a, b)| ==> Range(a, b)[k] == a + k
    decreases b - a
  {
    if a < b {
      RangeValues(a + 1, b);
      var r := Range(a, b);
      forall k | 0 <= k < |r| ensures r[k] == a + k {
        if k > 0 { assert r[k] == Range(a + 1, b)[k - 1]; }
      }
    }
  }

  lemma {:induction false} RangeSnoc(a: int, f: int)
    requires a <= f
    ensures Range(a, f + 1) == Range(a, f) + [f]
  {
    RangeValues(a, f + 1);
    RangeValues(a, f);
    var r := Range(a, f + 1);
    var t := Range(a, f) + [f];
    assert |r| == |t|;
    forall k | 0 <= k < |r| ensures r[k] == t[k] {
      if k < f - a { assert t[k] == Range(a, f)[k]; }
    }
    assert r == t;
  }

  /** A result prefixed by the floors already collected. */
  function Prepend(acc: seq<int>, r: Result<seq<int>, Error>): Result<seq<int>, Error> {
    match r
    case Ok(fs) => Ok(acc + fs)
    case Err(e) => Err(e)
  }

  lemma {:induction false} PrependNothing(r: Result<seq<int>, Error>)
    ensures Prepend([], r) == r
  {
    if r.Ok? { assert [] + r.value == r.value; }
  }

  lemma {:induction false} PrependTwice(a: seq<int>, b: seq<int>, r: Result<seq<int>, Error>)
    ensures Prepend(a, Prepend(b, r)) == Prepend(a + b, r)
  {
    if r.Ok? { assert a + (b + r.value) == (a + b) + r.value; }
  }

  lemma {:induction false} PrependDone(a: seq<int>)
    ensures Prepend(a, Ok([])) == Ok(a)
  {
    assert a + [] == a;
  }

  /** `[int(floor) for floor in parts if floor]`. */
  function ParseNonEmpty(parts: seq<string>): Result<seq<int>, Error> {
    if parts == [] then Ok([])
    else if parts[0] == [] then ParseNonEmpty(parts[1..])
    else match ParseInt(parts[0])
      case None => Err(ValueError)
      case Some(n) => Prepend([n], ParseNonEmpty(parts[1..]))
  }

  /** A range `a-b` gives the floors `a` to `b`; anything but exactly two integer parts raises. */
  function RangeFloors(u: string): Result<seq<int>, Error> {
    RangeOfParts(Split(u, "-"))
  }

  /** The floors of the hyphen-separated parts of a range. */
  function RangeOfParts(parts: seq<string>): Result<seq<int>, Error> {
    if |parts| != 2 then Err(ValueError) else RangeOfBounds(ParseInt(parts[0]), ParseInt(parts[1]))
  }

  /** `range(int(a), int(b) + 1)` once both ends are read; an end that is no integer raises `ValueError`. */
  function RangeOfBounds(lo: Option<int>, hi: Option<int>): Result<seq<int>, Error> {
    if lo.None? || hi.None? then Err(ValueError) else Ok(Range(lo.value, hi.value + 1))
  }

  function SingleFloor(u: string): Result<seq<int>, Error> {
    match ParseInt(u)
    case Some(n) => Ok([n])
    case None => Err(ValueError)
  }

  function WrapSome(r: Result<seq<int>, Error>): Result<Option<seq<int>>, Error> {
    match r
    case Ok(fs) => Ok(Some(fs))
    case Err(e) => Err(e)
  }

  /**
   * `split_floors` (murinoclub.py:827-850): `None` for blank text, else the
   * floors of a range `a-b`, of a list `a,b,c`, of a single number, or of a
   * list whose items are themselves ranges or numbers.
   */
  function SplitFloorsSpec(s: string): Result<Option<seq<int>>, Error>
    decreases |s|, 1, 0
  {
    var t := Strip(s);
    if t == [] then Ok(None)
    else
      var u := FloorText(t);
      if u == [] then Ok(Some([]))
      else if Contains(u, "-") && Contains(u, ",") then
        SplitPartsLength(u, ",");
        WrapSome(ExpandParts(Split(u, ","), |s|))
      else if Contains(u, "-") then WrapSome(RangeFloors(u))
      else if Contains(u, ",") then WrapSome(ParseNonEmpty(Split(u, ",")))
      else WrapSome(SingleFloor(u))
  }

  /** The floors of each comma-separated part in turn; a blank part (`None`) cannot be extended and raises. */
  function ExpandParts(parts: seq<string>, bound: nat): Result<seq<int>, Error>
    requires forall i :: 0 <= i < |parts| ==> |parts[i]| < bound
    decreases bound, 0, |parts|
  {
    if parts == [] then Ok([])
    else match SplitFloorsSpec(parts[0])
      case Err(e) => Err(e)
      case Ok(None) => Err(TypeError)
      case Ok(Some(fs)) => Prepend(fs, ExpandParts(parts[1..], bound))
  }

  lemma {:induction false} ExpandPartsStep(parts: seq<string>, bound: nat, i: nat)
    requires forall j :: 0 <= j < |parts| ==> |parts[j]| < bound
    requires i < |parts|
    ensures ExpandParts(parts[i..], bound) == match SplitFloorsSpec(parts[i])
      case Err(e) => Err(e)
      case Ok(None) => Err(TypeError)
      case Ok(Some(fs)) => Prepend(fs, ExpandParts(parts[i + 1..], bound))
  {
    var rest := parts[i..];
    assert rest[0] == parts[i] && rest[1..] == parts[i + 1..];
  }

  lemma {:induction false} ParseNonEmptyStep(parts: seq<string>, i: nat)
    requires i < |parts|
    ensures ParseNonEmpty(parts[i..]) ==
      if parts[i] == [] then ParseNonEmpty(parts[i + 1..])
      else match ParseInt(parts[i])
        case None => Err(ValueError)
        case Some(n) => Prepend([n], ParseNonEmpty(parts[i + 1..]))
  {
    var rest := parts[i..];
    assert rest[0] == parts[i] && rest[1..] == parts[i + 1..];
  }

  method SplitFloors(s: string) returns (r: Result<Option<seq<int>>, Error>)
    ensures r == SplitFloorsSpec(s)
    decreases |s|, 1
  {
    var t := Strip(s);
    if t == [] {
      return Ok(None);
    }
    var u := FloorText(t);
    if u == [] {
      return Ok(Some([]));
    }
    var floors: Result<seq<int>, Error>;
    if Contains(u, "-") && Contains(u, ",") {
      SplitPartsLength(u, ",");
      floors := ExpandFloorParts(Split(u, ","), |s|);
    } else if Contains(u, "-") {
      floors := ExpandRange(u);
    } else if Contains(u, ",") {
      floors := ParseFloorList(Split(u, ","));
    } else {
      floors := SingleFloor(u);
    }
    return WrapSome(floors);
  }

  method ExpandFloorParts(parts: seq<string>, bound: nat) returns (r: Result<seq<int>, Error>)
    requires forall i :: 0 <= i < |parts| ==> |parts[i]| < bound
    ensures r == ExpandParts(parts, bound)
    decreases bound, 0
  {
    var floors: seq<int> := [];
    var i := 0;
    assert parts[0..] == parts;
    PrependNothing(ExpandParts(parts, bound));
    while i < |parts|
      invariant 0 <= i <= |parts|
      invariant ExpandParts(parts, bound) == Prepend(floors, ExpandParts(parts[i..], bound))
    {
      ExpandPartsStep(parts, bound, i);
      var part := SplitFloors(parts[i]);
      match part {
        case Err(e) => return Err(e);
        case Ok(None) => return Err(TypeError);
        case Ok(Some(fs)) =>
          PrependTwice(floors, fs, ExpandParts(parts[i + 1..], bound));
          floors := floors + fs;
      }
      i := i + 1;
    }
    PrependDone(floors);
    return Ok(floors);
  }

  method ExpandRange(u: string) returns (r: Result<seq<int>, Error>)
    ensures r == RangeFloors(u)
  {
    var parts := Split(u, "-");
    if |parts| != 2 {
      return Err(ValueError);
    }
    var low, high := ParseInt(parts[0]), ParseInt(parts[1]);
    if low.None? || high.None? {
      return Err(ValueError);
    }
    var floors: seq<int> := [];
    var floor := low.value;
    while floor < high.value + 1
      invariant low.value <= floor && floors == Range(low.value, floor)
      invariant floor <= high.value + 1 || floor == low.value
      decreases high.value + 1 - floor
    {
      RangeSnoc(low.value, floor);
      floors := floors + [floor];
      floor := floor + 1;
    }
    return Ok(floors);
  }

  method ParseFloorList(parts: seq<string>) returns (r: Result<seq<int>, Error>)
    ensures r == ParseNonEmpty(parts)
  {
    var floors: seq<int> := [];
    var i := 0;
    assert parts[0..] == parts;
    PrependNothing(ParseNonEmpty(parts));
    while i < |parts|
      invariant 0 <= i <= |parts|
      invariant ParseNonEmpty(parts) == Prepend(floors, ParseNonEmpty(parts[i..]))
    {
      ParseNonEmptyStep(parts, i);
      if parts[i] != [] {
        var n := ParseInt(parts[i]);
        if n.None? {
          return Err(ValueError);
        }
        PrependTwice(floors, [n.value], ParseNonEmpty(parts[i + 1..]));
        floors := floors + [n.value];
      }
      i := i + 1;
    }
    PrependDone(floors);
    return Ok(floors);
  }

  // The floor text a listing writes, and what split_floors reads from it.

  /** One item of a floor list: a floor or an inclusive range of floors. */
  datatype FloorItem = Single(floor: nat) | Span(low: nat, high: nat)

  function ItemText(it: FloorItem): string {
    match it
    case Single(f) => NatToString(f)
    case Span(lo, hi) => NatToString(lo) + "-" + NatToString(hi)
  }

  function ItemFloors(it: FloorItem): seq<int> {
    match it
    case Single(f) => [f]
    case Span(lo, hi) => Range(lo, hi + 1)
  }

  function ItemTexts(items: seq<FloorItem>): (r: seq<string>)
    ensures |r| == |items|
    ensures forall i :: 0 <= i < |items| ==> r[i] == ItemText(items[i])
  {
    if items == [] then [] else [ItemText(items[0])] + ItemTexts(items[1..])
  }

  function ItemsFloors(items: seq<FloorItem>): seq<int> {
    if items == [] then [] else ItemFloors(items[0]) + ItemsFloors(items[1..])
  }

  /** The items written out and joined by commas. */
  function FloorsText(items: seq<FloorItem>): string {
    Join(",", ItemTexts(items))
  }

  predicate FloorChar(c: char) {
    IsDigit(c) || c == '-' || c == ','
  }

  predicate FloorChars(s: string) {
    forall k :: 0 <= k < |s| ==> FloorChar(s[k])
  }

  /** Text made only of digits, hyphens and commas passes the letter and dash rewriting unchanged. */
  lemma {:induction false} FloorTextOfFloorChars(s: string)
    requires FloorChars(s)
    ensures FloorText(s) == s
  {
    assert DropLetters(s) == s;
    assert ';' !in s by {
      forall k | 0 <= k < |s| ensures s[k] != ';' { assert FloorChar(s[k]); }
    }
    assert '\U{2013}' !in s by {
      forall k | 0 <= k < |s| ensures s[k] != '\U{2013}' { assert FloorChar(s[k]); }
    }
  }

  lemma {:induction false} ItemTextShape(it: FloorItem)
    ensures |ItemText(it)| > 0 && IsDigit(ItemText(it)[0]) && IsDigit(ItemText(it)[|ItemText(it)| - 1])
    ensures FloorChars(ItemText(it))
    ensures ',' !in ItemText(it)
    ensures '-' in ItemText(it) <==> it.Span?
  {
    match it
    case Single(f) =>
      var t := NatToString(f);
      assert forall k :: 0 <= k < |t| ==> IsDigit(t[k]);
    case Span(lo, hi) =>
      var a, b := NatToString(lo), NatToString(hi);
      var t := a + "-" + b;
      assert t[|a|] == '-';
      forall k | 0 <= k < |t| ensures FloorChar(t[k]) && t[k] != ',' {
        if k < |a| { assert t[k] == a[k]; }
        else if k > |a| { assert t[k] == b[k - |a| - 1]; }
      }
  }

  lemma {:induction false} JoinFloorChars(parts: seq<string>)
    requires forall i :: 0 <= i < |parts| ==> FloorChars(parts[i])
    ensures FloorChars(Join(",", parts))
  {
    var s := Join(",", parts);
    forall k | 0 <= k < |s| ensures FloorChar(s[k]) {
      var c := s[k];
      JoinChars(",", parts, c);
      if c != ',' {
        var i :| 0 <= i < |parts| && c in parts[i];
        var j :| 0 <= j < |parts[i]| && parts[i][j] == c;
        assert FloorChar(parts[i][j]);
      }
    }
  }

  /** Text of floor characters that starts and ends with a digit reaches the range/list/number branches as it is. */
  lemma {:induction false} FloorTextUnchanged(s: string)
    requires |s| > 0 && IsDigit(s[0]) && IsDigit(s[|s| - 1]) && FloorChars(s)
    ensures Strip(s) == s && FloorText(s) == s
  {
    assert IsStripped(s);
    FloorTextOfFloorChars(s);
  }

  /** Text the rewriting leaves as it is, with a comma, split into `parts` no longer than itself. */
  predicate ListReady(s: string, parts: seq<string>) {
    s != [] && Strip(s) == s && FloorText(s) == s && Contains(s, ",")
    && Split(s, ",") == parts && (forall i :: 0 <= i < |parts| ==> |parts[i]| < |s|)
  }

  /** The four branches split_floors takes on text the rewriting leaves as it is. */
  lemma {:induction false} SplitFloorsMixed(s: string, parts: seq<string>, floors: seq<int>)
    requires ListReady(s, parts) && Contains(s, "-")
    requires ExpandParts(parts, |s|) == Ok(floors)
    ensures SplitFloorsSpec(s) == Ok(Some(floors))
  {
  }

  lemma {:induction false} SplitFloorsRange(s: string)
    requires s != [] && Strip(s) == s && FloorText(s) == s
    requires Contains(s, "-") && !Contains(s, ",")
    ensures SplitFloorsSpec(s) == WrapSome(RangeFloors(s))
  {
  }

  lemma {:induction false} SplitFloorsList(s: string, parts: seq<string>, floors: seq<int>)
    requires ListReady(s, parts) && !Contains(s, "-")
    requires ParseNonEmpty(parts) == Ok(floors)
    ensures SplitFloorsSpec(s) == Ok(Some(floors))
  {
  }

  lemma {:induction false} SplitFloorsNumber(s: string)
    requires s != [] && Strip(s) == s && FloorText(s) == s
    requires !Contains(s, "-") && !Contains(s, ",")
    ensures SplitFloorsSpec(s) == WrapSome(SingleFloor(s))
  {
  }

  lemma {:induction false} SingleFloorOfNat(f: nat)
    ensures SingleFloor(NatToString(f)) == Ok([f])
  {
    ParseIntOfDigits(NatToString(f));
    NatToStringValue(f);
  }

  /** Two digit strings joined by a hyphen split back into the two. */
  lemma {:induction false} SplitSpanText(a: string, b: string)
    requires AllDigits(a) && AllDigits(b)
    ensures Split(a + "-" + b, "-") == [a, b]
  {
    assert '-' !in a && '-' !in b by {
      assert forall k :: 0 <= k < |a| ==> IsDigit(a[k]);
      assert forall k :: 0 <= k < |b| ==> IsDigit(b[k]);
    }
    assert Join("-", [a, b]) == a + "-" + b;
    SplitJoin([a, b], '-');
  }

  lemma {:induction false} RangeFloorsOfParts(a: string, b: string, lo: int, hi: int)
    requires ParseInt(a) == Some(lo) && ParseInt(b) == Some(hi)
    ensures RangeOfParts([a, b]) == Ok(Range(lo, hi + 1))
  {
    var parts := [a, b];
    assert parts[0] == a && parts[1] == b;
    assert RangeOfParts(parts) == RangeOfBounds(Some(lo), Some(hi));
  }

  lemma {:induction false} RangeFloorsOfDigits(a: string, b: string, lo: nat, hi: nat)
    requires |a| > 0 && AllDigits(a) && |b| > 0 && AllDigits(b)
    requires DigitsValue(a) == lo && DigitsValue(b) == hi
    ensures RangeFloors(a + "-" + b) == Ok(Range(lo, hi + 1))
  {
    SplitSpanText(a, b);
    ParseIntOfDigits(a);
    ParseIntOfDigits(b);
    RangeFloorsOfParts(a, b, lo, hi);
  }

  lemma {:induction false} RangeFloorsOfSpan(lo: nat, hi: nat)
    ensures RangeFloors(NatToString(lo) + "-" + NatToString(hi)) == Ok(Range(lo, hi + 1))
  {
    NatToStringValue(lo);
    NatToStringValue(hi);
    RangeFloorsOfDigits(NatToString(lo), NatToString(hi), lo, hi);
  }

  lemma {:induction false} SplitFloorsOfSingle(f: nat)
    ensures SplitFloorsSpec(NatToString(f)) == Ok(Some([f]))
  {
    var t := NatToString(f);
    ItemTextShape(Single(f));
    FloorTextUnchanged(t);
    ContainsChar(t, '-');
    ContainsChar(t, ',');
    SplitFloorsNumber(t);
    SingleFloorOfNat(f);
  }

  lemma {:induction false} SplitFloorsOfSpan(lo: nat, hi: nat)
    ensures SplitFloorsSpec(NatToString(lo) + "-" + NatToString(hi)) == Ok(Some(Range(lo, hi + 1)))
  {
    var t := NatToString(lo) + "-" + NatToString(hi);
    ItemTextShape(Span(lo, hi));
    FloorTextUnchanged(t);
    ContainsChar(t, '-');
    ContainsChar(t, ',');
    SplitFloorsRange(t);
    RangeFloorsOfSpan(lo, hi);
  }

  /** One item alone: a number is read as that floor, a range as its floors. */
  lemma {:induction false} SplitFloorsOfItem(it: FloorItem)
    ensures SplitFloorsSpec(ItemText(it)) == Ok(Some(ItemFloors(it)))
  {
    match it
    case Single(f) =>
      assert ItemText(it) == NatToString(f) && ItemFloors(it) == [f];
      SplitFloorsOfSingle(f);
    case Span(lo, hi) =>
      assert ItemText(it) == NatToString(lo) + "-" + NatToString(hi) && ItemFloors(it) == Range(lo, hi + 1);
      SplitFloorsOfSpan(lo, hi);
  }

  lemma {:induction false} ExpandItems(items: seq<FloorItem>, bound: nat)
    requires forall i :: 0 <= i < |items| ==> |ItemText(items[i])| < bound
    ensures ExpandParts(ItemTexts(items), bound) == Ok(ItemsFloors(items))
    decreases |items|
  {
    if items != [] {
      var parts := ItemTexts(items);
      assert parts[1..] == ItemTexts(items[1..]);
      SplitFloorsOfItem(items[0]);
      ExpandItems(items[1..], bound);
    }
  }

  lemma {:induction false} ParseSingles(items: seq<FloorItem>)
    requires forall i :: 0 <= i < |items| ==> items[i].Single?
    ensures ParseNonEmpty(ItemTexts(items)) == Ok(ItemsFloors(items))
    decreases |items|
  {
    if items != [] {
      var parts := ItemTexts(items);
      assert parts[1..] == ItemTexts(items[1..]);
      ParseIntOfDigits(parts[0]);
      NatToStringValue(items[0].floor);
      ParseSingles(items[1..]);
    }
  }

  /**
   * Reading the comma-joined text of floors and ranges gives every floor
   * they name, in order: what split_floors promises for the item lists a
   * listing writes (murinoclub.py:827-850).
   */
  lemma {:induction false} SplitFloorsOfItems(items: seq<FloorItem>)
    requires |items| >= 1
    ensures SplitFloorsSpec(FloorsText(items)) == Ok(Some(ItemsFloors(items)))
  {
    if |items| == 1 {
      assert ItemTexts(items) == [ItemText(items[0])];
      assert FloorsText(items) == ItemText(items[0]);
      assert items[1..] == [];
      assert ItemsFloors(items) == ItemFloors(items[0]) + [];
      assert ItemFloors(items[0]) + [] == ItemFloors(items[0]);
      SplitFloorsOfItem(items[0]);
    } else {
      SplitFloorsOfList(items);
    }
  }

  lemma {:induction false} ItemTextsShape(items: seq<FloorItem>)
    ensures forall i :: 0 <= i < |items| ==>
      |ItemTexts(items)[i]| > 0 && FloorChars(ItemTexts(items)[i]) && ',' !in ItemTexts(items)[i]
    ensures forall i :: 0 <= i < |items| ==> ('-' in ItemTexts(items)[i] <==> items[i].Span?)
  {
    forall i | 0 <= i < |items|
      ensures |ItemText(items[i])| > 0 && FloorChars(ItemText(items[i])) && ',' !in ItemText(items[i])
      ensures '-' in ItemText(items[i]) <==> items[i].Span?
    {
      ItemTextShape(items[i]);
    }
  }

  /** The text of two or more items reaches the list branches of split_floors as it is. */
  lemma {:induction false} FloorsTextPlain(items: seq<FloorItem>)
    requires |items| >= 2
    ensures FloorsText(items) != [] && Strip(FloorsText(items)) == FloorsText(items)
    ensures FloorText(FloorsText(items)) == FloorsText(items)
  {
    var parts := ItemTexts(items);
    var s := FloorsText(items);
    ItemTextsShape(items);
    JoinEnds(",", parts);
    ItemTextShape(items[0]);
    ItemTextShape(items[|items| - 1]);
    JoinFloorChars(parts);
    FloorTextUnchanged(s);
  }

  lemma {:induction false} FloorsTextSeparators(items: seq<FloorItem>)
    requires |items| >= 2
    ensures Contains(FloorsText(items), ",")
    ensures Contains(FloorsText(items), "-") <==> exists i :: 0 <= i < |items| && items[i].Span?
    ensures Split(FloorsText(items), ",") == ItemTexts(items)
  {
    var parts := ItemTexts(items);
    var s := FloorsText(items);
    ItemTextsShape(items);
    ContainsChar(s, ',');
    JoinChars(",", parts, ',');
    ContainsChar(s, '-');
    JoinChars(",", parts, '-');
    SplitJoin(parts, ',');
  }

  /** Every item's text is shorter than the text of two or more items. */
  lemma {:induction false} ItemsBound(items: seq<FloorItem>)
    requires |items| >= 2
    ensures forall i :: 0 <= i < |items| ==> |ItemText(items[i])| < |FloorsText(items)|
  {
    var parts := ItemTexts(items);
    JoinPartsShorter(",", parts);
    forall i | 0 <= i < |items| ensures |ItemText(items[i])| < |FloorsText(items)| {
      assert ItemText(items[i]) == parts[i];
    }
  }

  lemma {:induction false} ItemsListReady(items: seq<FloorItem>)
    requires |items| >= 2
    ensures ListReady(FloorsText(items), ItemTexts(items))
  {
    FloorsTextPlain(items);
    FloorsTextSeparators(items);
    JoinPartsShorter(",", ItemTexts(items));
  }

  /** Two or more items, one of them a span: the mixed branch expands each part. */
  lemma {:induction false} SplitFloorsOfMixedList(items: seq<FloorItem>)
    requires |items| >= 2
    requires exists i :: 0 <= i < |items| && items[i].Span?
    ensures SplitFloorsSpec(FloorsText(items)) == Ok(Some(ItemsFloors(items)))
  {
    ItemsListReady(items);
    FloorsTextSeparators(items);
    ItemsBound(items);
    ExpandItems(items, |FloorsText(items)|);
    SplitFloorsMixed(FloorsText(items), ItemTexts(items), ItemsFloors(items));
  }

  /** Two or more single floors: the list branch parses each part. */
  lemma {:induction false} SplitFloorsOfPlainList(items: seq<FloorItem>)
    requires |items| >= 2
    requires forall i :: 0 <= i < |items| ==> items[i].Single?
    ensures SplitFloorsSpec(FloorsText(items)) == Ok(Some(ItemsFloors(items)))
  {
    ItemsListReady(items);
    FloorsTextSeparators(items);
    ParseSingles(items);
    SplitFloorsList(FloorsText(items), ItemTexts(items), ItemsFloors(items));
  }

  lemma {:induction false} SplitFloorsOfList(items: seq<FloorItem>)
    requires |items| >= 2
    ensures SplitFloorsSpec(FloorsText(items)) == Ok(Some(ItemsFloors(items)))
  {
    if exists i :: 0 <= i < |items| && items[i].Span? {
      SplitFloorsOfMixedList(items);
    } else {
      SplitFloorsOfPlainList(items);
    }
  }

  // ---------------------------------------------------------------------
  // parse_post_data

  /** A line `key: value` as its key (text before the first colon) and its value (the rest), both stripped. */
  function PostLine(line: string): (string, string) {
    var x := Split(line, ":");
    (Strip(x[0]), Strip(Join(":", x[1..])))
  }

  /** The pair of a line, none for a blank one. */
  function LinePairs(line: string): seq<(string, string)> {
    if Strip(line) != [] then [PostLine(line)] else []
  }

  /** What `f` gives for each element in turn, concatenated. */
  function FlatMap<T, U>(f: T -> seq<U>, xs: seq<T>): seq<U> {
    if xs == [] then [] else FlatMap(f, xs[..|xs| - 1]) + f(xs[|xs| - 1])
  }

  lemma {:induction false} FlatMapStep<T, U>(f: T -> seq<U>, xs: seq<T>, i: nat)
    requires i < |xs|
    ensures FlatMap(f, xs[..i + 1]) == FlatMap(f, xs[..i]) + f(xs[i])
  {
    assert xs[..i + 1][..i] == xs[..i];
  }

  lemma {:induction false} FlatMapAppend<T, U>(f: T -> seq<U>, a: seq<T>, b: seq<T>)
    ensures FlatMap(f, a + b) == FlatMap(f, a) + FlatMap(f, b)
    decreases |b|
  {
    if b != [] {
      var b' := b[..|b| - 1];
      assert (a + b)[..|a + b| - 1] == a + b';
      assert (a + b)[|a + b| - 1] == b[|b| - 1];
      FlatMapAppend(f, a, b');
    } else {
      assert a + b == a;
    }
  }

  /** The pairs of the non-blank lines, in order. */
  function PostLines(lines: seq<string>): seq<(string, string)> {
    FlatMap(LinePairs, lines)
  }

  /** The lines of the content, a carriage return counting as a line break. */
  function PostDataLines(content: string): seq<string> {
    Split(Replace(content, "\r", "\n"), "\n")
  }

  function PostPairs(content: string): seq<(string, string)> {
    PostLines(PostDataLines(content))
  }

  function KeysOf(pairs: seq<(string, string)>): (ks: seq<string>)
    ensures |ks| == |pairs|
    ensures forall i :: 0 <= i < |pairs| ==> ks[i] == pairs[i].0
  {
    if pairs == [] then [] else KeysOf(pairs[..|pairs| - 1]) + [pairs[|pairs| - 1].0]
  }

  /** The pairs read into a dictionary: the first key met twice raises. */
  function AsDict(pairs: seq<(string, string)>): Result<seq<(string, string)>, Error> {
    if pairs == [] then Ok([])
    else
      var last := pairs[|pairs| - 1];
      match AsDict(pairs[..|pairs| - 1])
      case Err(e) => Err(e)
      case Ok(d) => if last.0 in KeysOf(d) then Err(DuplicateKey(last.0)) else Ok(d + [last])
  }

  predicate DistinctKeys(pairs: seq<(string, string)>) {
    forall i, j :: 0 <= i < j < |pairs| ==> pairs[i].0 != pairs[j].0
  }

  /**
   * `parse_post_data` (murinoclub.py:793-810): the pairs as a list, or as a
   * dictionary (in insertion order) that refuses a repeated key.
   */
  method ParsePostData(content: string, useTuple: bool) returns (r: Result<seq<(string, string)>, Error>)
    ensures useTuple ==> r == Ok(PostPairs(content))
    ensures !useTuple ==> r == AsDict(PostPairs(content))
  {
    var lines := PostDataLines(content);
    var acc: seq<(string, string)> := [];
    var i := 0;
    while i < |lines|
      invariant 0 <= i <= |lines|
      invariant acc == PostLines(lines[..i])
      invariant !useTuple ==> AsDict(acc) == Ok(acc)
    {
      FlatMapStep(LinePairs, lines, i);
      var line := lines[i];
      if Strip(line) != [] {
        var x := Split(line, ":");
        var k := Strip(x[0]);
        var v := Strip(Join(":", x[1..]));
        if !useTuple {
          if k in KeysOf(acc) {
            assert LinePairs(line) == [(k, v)];
            PostLinesRepeat(LinePairs, lines, i, acc, (k, v));
            return Err(DuplicateKey(k));
          }
          AsDictSnoc(acc, (k, v));
        }
        acc := acc + [(k, v)];
      }
      i := i + 1;
    }
    assert lines[..i] == lines;
    return Ok(acc);
  }

  lemma {:induction false} AsDictSnoc(acc: seq<(string, string)>, p: (string, string))
    requires AsDict(acc) == Ok(acc) && p.0 !in KeysOf(acc)
    ensures AsDict(acc + [p]) == Ok(acc + [p])
  {
    assert (acc + [p])[..|acc|] == acc;
  }

  lemma {:induction false} AsDictRepeat(acc: seq<(string, string)>, p: (string, string), rest: seq<(string, string)>)
    requires AsDict(acc) == Ok(acc) && p.0 in KeysOf(acc)
    ensures AsDict(acc + [p] + rest) == Err(DuplicateKey(p.0))
  {
    assert (acc + [p])[..|acc|] == acc;
    assert AsDict(acc + [p]) == Err(DuplicateKey(p.0));
    AsDictErrorStays(acc + [p], rest);
  }

  /** A line whose key the dictionary already holds makes the whole reading raise. */
  lemma {:induction false} PostLinesRepeat<T>(f: T -> seq<(string, string)>, lines: seq<T>, i: nat, acc: seq<(string, string)>, p: (string, string))
    requires i < |lines| && FlatMap(f, lines[..i + 1]) == acc + [p]
    requires AsDict(acc) == Ok(acc) && p.0 in KeysOf(acc)
    ensures AsDict(FlatMap(f, lines)) == Err(DuplicateKey(p.0))
  {
    var a, b := lines[..i + 1], lines[i + 1..];
    assert a + b == lines;
    FlatMapAppend(f, a, b);
    AsDictRepeat(acc, p, FlatMap(f, b));
  }

  /** Once a key repeats, later lines cannot undo the error. */
  lemma {:induction false} AsDictErrorStays(p: seq<(string, string)>, q: seq<(string, string)>)
    requires AsDict(p).Err?
    ensures AsDict(p + q) == AsDict(p)
    decreases |q|
  {
    if q == [] {
      assert p + q == p;
    } else {
      var q' := q[..|q| - 1];
      assert (p + q)[..|p + q| - 1] == p + q';
      AsDictErrorStays(p, q');
    }
  }

  lemma {:induction false} DistinctKeysInit(pairs: seq<(string, string)>)
    requires pairs != [] && DistinctKeys(pairs)
    ensures DistinctKeys(pairs[..|pairs| - 1])
    ensures pairs[|pairs| - 1].0 !in KeysOf(pairs[..|pairs| - 1])
  {
    var init := pairs[..|pairs| - 1];
    forall i, j | 0 <= i < j < |init| ensures init[i].0 != init[j].0 {
      assert init[i] == pairs[i] && init[j] == pairs[j];
    }
    forall i | 0 <= i < |init| ensures KeysOf(init)[i] != pairs[|pairs| - 1].0 {
      assert init[i] == pairs[i];
    }
  }

  lemma {:induction false} AsDictOfDistinct(pairs: seq<(string, string)>)
    requires DistinctKeys(pairs)
    ensures AsDict(pairs) == Ok(pairs)
    decreases |pairs|
  {
    if pairs != [] {
      var init := pairs[..|pairs| - 1];
      DistinctKeysInit(pairs);
      AsDictOfDistinct(init);
      assert init + [pairs[|pairs| - 1]] == pairs;
    }
  }

  lemma {:induction false} AsDictOfRepeat(pairs: seq<(string, string)>)
    requires !DistinctKeys(pairs)
    ensures AsDict(pairs).Err?
    decreases |pairs|
  {
    var init := pairs[..|pairs| - 1];
    var last := pairs[|pairs| - 1];
    var i, j :| 0 <= i < j < |pairs| && pairs[i].0 == pairs[j].0;
    if j < |pairs| - 1 {
      assert init[i].0 == init[j].0;
      AsDictOfRepeat(init);
    } else if DistinctKeys(init) {
      AsDictOfDistinct(init);
      assert KeysOf(init)[i] == last.0;
    } else {
      AsDictOfRepeat(init);
    }
  }

  /** Reading pairs into a dictionary succeeds exactly when no key repeats, and then keeps every pair in order. */
  lemma {:induction false} AsDictOk(pairs: seq<(string, string)>)
    ensures AsDict(pairs).Ok? <==> DistinctKeys(pairs)
    ensures AsDict(pairs).Ok? ==> AsDict(pairs).value == pairs
  {
    if DistinctKeys(pairs) {
      AsDictOfDistinct(pairs);
    } else {
      AsDictOfRepeat(pairs);
    }
  }
}
