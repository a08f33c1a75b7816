/**
 * The Python `str` primitives the normaliser is built from: `lower()`,
 * `strip()`, `in`, `replace`, `split`, `join`, `split()` on whitespace,
 * `int()` and `decimal.Decimal()` on text, and the three `re.findall`
 * number patterns it takes the first match of.
 */
module Text {
  import opened Results

  /** `str.isspace()`: the characters `strip()`, `split()` and the regex class `\s` treat as whitespace. */
  predicate IsSpace(c: char) {
    c == ' ' || c == '\t' || c == '\n' || c == '\r' || c == '\U{B}' || c == '\U{C}'
    || ('\U{1C}' <= c <= '\U{1F}') || c == '\U{85}' || c == '\U{A0}' || c == '\U{1680}'
    || ('\U{2000}' <= c <= '\U{200A}') || c == '\U{2028}' || c == '\U{2029}'
    || c == '\U{202F}' || c == '\U{205F}' || c == '\U{3000}'
  }

  /** The ASCII digits, the only ones the model's `\d`, `int()` and `Decimal()` accept. */
  predicate IsDigit(c: char) { '0' <= c <= '9' }

  predicate IsUpper(c: char) {
    'A' <= c <= 'Z' || 0x400 <= c as int <= 0x42F
  }

  /** `str.lower()` on one character, for ASCII and the basic Cyrillic block. */
  function LowerChar(c: char): (r: char)
    ensures !IsUpper(r)
    ensures !IsUpper(c) ==> r == c
  {
    if 'A' <= c <= 'Z' then (c as int + 32) as char
    else if 0x410 <= c as int <= 0x42F then (c as int + 32) as char
    else if 0x400 <= c as int <= 0x40F then (c as int + 80) as char
    else c
  }

  /** `str.lower()`. */
  function Lower(s: string): (r: string)
    ensures |r| == |s|
    ensures forall i :: 0 <= i < |s| ==> r[i] == LowerChar(s[i])
  {
    if s == [] then [] else [LowerChar(s[0])] + Lower(s[1..])
  }

  lemma {:induction false} LowerIdempotent(s: string)
    ensures Lower(Lower(s)) == Lower(s)
  {
    assert forall i :: 0 <= i < |s| ==> Lower(Lower(s))[i] == Lower(s)[i];
  }

  lemma {:induction false} LowerConcat(a: string, b: string)
    ensures Lower(a + b) == Lower(a) + Lower(b)
  {
    assert forall i :: 0 <= i < |a + b| ==> Lower(a + b)[i] == (Lower(a) + Lower(b))[i];
  }

  // ---------------------------------------------------------------------
  // strip()

  /** No whitespace at either end: what `strip()` returns. */
  predicate IsStripped(s: string) {
    s == [] || (!IsSpace(s[0]) && !IsSpace(s[|s| - 1]))
  }

  function LStrip(s: string): (r: string)
    ensures |r| <= |s| && r == s[|s| - |r|..]
    ensures r == [] || !IsSpace(r[0])
  {
    if s != [] && IsSpace(s[0]) then LStrip(s[1..]) else s
  }

  /** Everything `lstrip()` drops is whitespace. */
  lemma {:induction false} LStripDropsSpaces(s: string)
    ensures forall i :: 0 <= i < |s| - |LStrip(s)| ==> IsSpace(s[i])
    decreases |s|
  {
    if s != [] && IsSpace(s[0]) {
      LStripDropsSpaces(s[1..]);
      forall i | 1 <= i < |s| - |LStrip(s)| ensures IsSpace(s[i]) {
        assert s[i] == s[1..][i - 1];
      }
    }
  }

  function RStrip(s: string): (r: string)
    ensures |r| <= |s| && r == s[..|r|]
    ensures r == [] || !IsSpace(r[|r| - 1])
  {
    if s != [] && IsSpace(s[|s| - 1]) then RStrip(s[..|s| - 1]) else s
  }

  /** Everything `rstrip()` drops is whitespace. */
  lemma {:induction false} RStripDropsSpaces(s: string)
    ensures forall i :: |RStrip(s)| <= i < |s| ==> IsSpace(s[i])
    decreases |s|
  {
    if s != [] && IsSpace(s[|s| - 1]) {
      RStripDropsSpaces(s[..|s| - 1]);
      forall i | |RStrip(s)| <= i < |s| - 1 ensures IsSpace(s[i]) {
        assert s[i] == s[..|s| - 1][i];
      }
    }
  }

  /** `str.strip()`: drops the whitespace at both ends and nothing else. */
  function Strip(s: string): (r: string)
    ensures IsStripped(r) && |r| <= |s|
    ensures IsStripped(s) ==> r == s
  {
    RStrip(LStrip(s))
  }

  /** What `strip()` keeps is a slice of its input, and it keeps nothing exactly when the input is all whitespace. */
  lemma {:induction false} StripShape(s: string)
    ensures |Strip(s)| <= |LStrip(s)|
    ensures Strip(s) == s[|s| - |LStrip(s)|..|s| - |LStrip(s)| + |Strip(s)|]
    ensures Strip(s) == [] <==> forall i :: 0 <= i < |s| ==> IsSpace(s[i])
  {
    StripSlice(s);
    if Strip(s) == [] {
      StripEmptyAllSpace(s);
    }
    if forall i :: 0 <= i < |s| ==> IsSpace(s[i]) {
      AllSpaceStripEmpty(s);
    }
  }

  lemma {:induction false} StripSlice(s: string)
    ensures |Strip(s)| <= |LStrip(s)|
    ensures Strip(s) == s[|s| - |LStrip(s)|..|s| - |LStrip(s)| + |Strip(s)|]
  {
    var l := LStrip(s);
    SliceOfSuffix(s, |s| - |l|, l, RStrip(l));
  }

  lemma {:induction false} SliceOfSuffix(s: string, o: nat, l: string, r: string)
    requires o <= |s| && l == s[o..] && |r| <= |l| && r == l[..|r|]
    ensures r == s[o..o + |r|]
  {
  }

  lemma {:induction false} StripEmptyAllSpace(s: string)
    requires Strip(s) == []
    ensures forall i :: 0 <= i < |s| ==> IsSpace(s[i])
  {
    var l := LStrip(s);
    var o := |s| - |l|;
    LStripDropsSpaces(s);
    RStripDropsSpaces(l);
    assert l == s[o..];
    assert RStrip(l) == [];
    forall i | o <= i < |s| ensures IsSpace(s[i]) {
      assert s[i] == l[i - o];
    }
  }

  lemma {:induction false} AllSpaceStripEmpty(s: string)
    requires forall i :: 0 <= i < |s| ==> IsSpace(s[i])
    ensures Strip(s) == []
  {
    AllSpaceLStrip(s);
    assert RStrip([]) == [];
  }

  lemma {:induction false} StripIdempotent(s: string)
    ensures Strip(Strip(s)) == Strip(s)
  {
  }

  // ---------------------------------------------------------------------
  // `p in s`, first occurrence

  /** `p` occurs in `s` starting at index `i`. */
  predicate OccursAt(s: string, p: string, i: int) {
    0 <= i && i + |p| <= |s| && s[i..i + |p|] == p
  }

  /** The first index at or after `i` where `p` occurs in `s` (`str.find(p, i)`). */
  function IndexFrom(s: string, p: string, i: nat): (r: Option<nat>)
    requires i <= |s|
    ensures r.Some? ==> i <= r.value && OccursAt(s, p, r.value)
    ensures r.Some? ==> forall j :: i <= j < r.value ==> !OccursAt(s, p, j)
    ensures r.None? ==> forall j :: i <= j ==> !OccursAt(s, p, j)
    decreases |s| - i
  {
    if i + |p| > |s| then None
    else if s[i..i + |p|] == p then Some(i)
    else IndexFrom(s, p, i + 1)
  }

  function IndexOf(s: string, p: string): Option<nat> {
    IndexFrom(s, p, 0)
  }

  /** Python's `p in s` on strings. */
  predicate Contains(s: string, p: string) {
    IndexOf(s, p).Some?
  }

  lemma {:induction false} OccursAtChar(s: string, c: char, i: int)
    requires 0 <= i < |s|
    ensures OccursAt(s, [c], i) <==> s[i] == c
  {
    if s[i] == c { assert s[i..i + 1] == [c]; }
  }

  /** For a one-character pattern, `in` is membership. */
  lemma {:induction false} ContainsChar(s: string, c: char)
    ensures Contains(s, [c]) <==> c in s
  {
    if c in s {
      var k :| 0 <= k < |s| && s[k] == c;
      OccursAtChar(s, c, k);
    }
    if Contains(s, [c]) {
      OccursAtChar(s, c, IndexOf(s, [c]).value);
    }
  }

  /** The first occurrence of a character is where `IndexOf` finds it. */
  lemma {:induction false} IndexOfChar(s: string, c: char, k: nat)
    requires k < |s| && s[k] == c
    requires forall j :: 0 <= j < k ==> s[j] != c
    ensures IndexOf(s, [c]) == Some(k)
  {
    OccursAtChar(s, c, k);
    var r := IndexOf(s, [c]);
    if r.value < k { OccursAtChar(s, c, r.value); }
  }

  lemma {:induction false} IndexOfAbsentChar(s: string, c: char)
    requires c !in s
    ensures IndexOf(s, [c]) == None
  {
    ContainsChar(s, c);
  }

  // ---------------------------------------------------------------------
  // replace, split, join

  /** `s.replace(a, b)`: every occurrence of `a`, scanning left to right without overlap. */
  function Replace(s: string, a: string, b: string): (r: string)
    requires |a| > 0
    ensures |b| <= |a| ==> |r| <= |s|
    ensures |b| == |a| ==> |r| == |s|
    ensures |a| == 1 && a[0] !in s ==> r == s
    decreases |s|
  {
    if |s| < |a| then s
    else if s[..|a|] == a then b + Replace(s[|a|..], a, b)
    else [s[0]] + Replace(s[1..], a, b)
  }

  /** Replacing one character by another: the same string with `c` mapped to `d`. */
  lemma {:induction false} ReplaceChar(s: string, c: char, d: char)
    ensures |Replace(s, [c], [d])| == |s|
    ensures forall i :: 0 <= i < |s| ==> Replace(s, [c], [d])[i] == if s[i] == c then d else s[i]
  {
    if |s| > 0 {
      ReplaceChar(s[1..], c, d);
      if s[0] == c { assert s[..1] == [c]; } else { assert s[..1] != [c]; }
    }
  }

  /** `sep.join(parts)`. */
  function Join(sep: string, parts: seq<string>): string {
    if |parts| == 0 then []
    else if |parts| == 1 then parts[0]
    else parts[0] + sep + Join(sep, parts[1..])
  }

  /** `s.split(sep)` for a non-empty separator: always at least one part. */
  function Split(s: string, sep: string): (r: seq<string>)
    requires |sep| > 0
    ensures |r| >= 1
    decreases |s|
  {
    match IndexOf(s, sep)
    case None => [s]
    case Some(k) => [s[..k]] + Split(s[k + |sep|..], sep)
  }

  /** Joining the parts of a split gives the string back. */
  lemma {:induction false} JoinSplit(s: string, sep: string)
    requires |sep| > 0
    ensures Join(sep, Split(s, sep)) == s
    decreases |s|
  {
    match IndexOf(s, sep)
    case None =>
    case Some(k) =>
      var rest := s[k + |sep|..];
      var parts := Split(rest, sep);
      JoinSplit(rest, sep);
      assert Split(s, sep) == [s[..k]] + parts;
      assert ([s[..k]] + parts)[1..] == parts;
      assert Join(sep, [s[..k]] + parts) == s[..k] + sep + Join(sep, parts);
      assert s[k..k + |sep|] == sep;
      assert s == s[..k] + sep + rest;
  }

  /** With two or more parts and a non-empty separator, each part is shorter than the join. */
  lemma {:induction false} JoinPartsShorter(sep: string, parts: seq<string>)
    requires |sep| > 0 && |parts| >= 2
    ensures forall i :: 0 <= i < |parts| ==> |parts[i]| < |Join(sep, parts)|
    decreases |parts|
  {
    var rest := parts[1..];
    if |parts| > 2 {
      JoinPartsShorter(sep, rest);
    }
    forall i | 0 <= i < |parts| ensures |parts[i]| < |Join(sep, parts)| {
      if i > 0 { assert parts[i] == rest[i - 1]; }
    }
  }

  /** Splitting the join of separator-free parts gives the parts back. */
  lemma {:induction false} SplitJoin(parts: seq<string>, c: char)
    requires |parts| >= 1
    requires forall i :: 0 <= i < |parts| ==> c !in parts[i]
    ensures Split(Join([c], parts), [c]) == parts
    decreases |parts|
  {
    if |parts| == 1 {
      IndexOfAbsentChar(parts[0], c);
    } else {
      var s := Join([c], parts);
      SplitJoin(parts[1..], c);
      assert s == parts[0] + [c] + Join([c], parts[1..]);
      assert s[|parts[0]|] == c;
      IndexOfChar(s, c, |parts[0]|);
      assert s[|parts[0]| + 1..] == Join([c], parts[1..]);
      assert s[..|parts[0]|] == parts[0];
    }
  }

  /** A single character separator never survives in the parts of a split. */
  lemma {:induction false} SplitPartsFree(s: string, c: char)
    ensures forall i :: 0 <= i < |Split(s, [c])| ==> c !in Split(s, [c])[i]
    decreases |s|
  {
    match IndexOf(s, [c])
    case None => ContainsChar(s, c);
    case Some(k) =>
      SplitPartsFree(s[k + 1..], c);
      forall j | 0 <= j < k ensures s[..k][j] != c {
        OccursAtChar(s, c, j);
      }
  }

  /** No part of a split is longer than the text, and every part is shorter once the separator occurs. */
  lemma {:induction false} SplitPartsLength(s: string, sep: string)
    requires |sep| > 0
    ensures forall i :: 0 <= i < |Split(s, sep)| ==> |Split(s, sep)[i]| <= |s|
    ensures Contains(s, sep) ==> forall i :: 0 <= i < |Split(s, sep)| ==> |Split(s, sep)[i]| < |s|
    decreases |s|
  {
    match IndexOf(s, sep)
    case None =>
    case Some(k) =>
      var tail := Split(s[k + |sep|..], sep);
      SplitPartsLength(s[k + |sep|..], sep);
      var parts := Split(s, sep);
      assert parts == [s[..k]] + tail;
      forall i | 0 <= i < |parts| ensures |parts[i]| < |s| {
        if i > 0 { assert parts[i] == tail[i - 1]; }
      }
  }

  /** The part before the first `sep`: `s.split(sep)[0]`. */
  lemma {:induction false} SplitFirst(s: string, sep: string)
    requires |sep| > 0
    ensures Split(s, sep)[0] == match IndexOf(s, sep) case None => s case Some(k) => s[..k]
  {
  }

  // ---------------------------------------------------------------------
  // str.split() on whitespace and the words it yields

  /** A token of `str.split()`: non-empty and free of whitespace. */
  predicate IsWord(w: string) {
    |w| > 0 && forall k :: 0 <= k < |w| ==> !IsSpace(w[k])
  }

  /** The length of the leading run of non-whitespace characters. */
  function WordLen(s: string): (n: nat)
    ensures n <= |s|
    ensures n < |s| ==> IsSpace(s[n])
  {
    if s == [] || IsSpace(s[0]) then 0 else 1 + WordLen(s[1..])
  }

  /** The leading run holds no whitespace. */
  lemma {:induction false} WordLenNoSpace(s: string)
    ensures forall k :: 0 <= k < WordLen(s) ==> !IsSpace(s[k])
    decreases |s|
  {
    if s != [] && !IsSpace(s[0]) {
      WordLenNoSpace(s[1..]);
      forall k | 1 <= k < WordLen(s) ensures !IsSpace(s[k]) {
        assert s[k] == s[1..][k - 1];
      }
    }
  }

  /** `s.split()`: the maximal whitespace-free runs, in order. */
  function Words(s: string): seq<string>
    decreases |s|
  {
    var t := LStrip(s);
    if t == [] then []
    else
      var n := WordLen(t);
      [t[..n]] + Words(t[n..])
  }

  lemma {:induction false} FirstWordIsWord(t: string)
    requires t != [] && !IsSpace(t[0])
    ensures IsWord(t[..WordLen(t)])
  {
    var n := WordLen(t);
    var w := t[..n];
    WordLenNoSpace(t);
    forall k | 0 <= k < |w| ensures !IsSpace(w[k]) { assert w[k] == t[k]; }
  }

  lemma {:induction false} ConsWords(w: string, rest: seq<string>)
    requires IsWord(w)
    requires forall i :: 0 <= i < |rest| ==> IsWord(rest[i])
    ensures forall i :: 0 <= i < |[w] + rest| ==> IsWord(([w] + rest)[i])
  {
    var ws := [w] + rest;
    forall i | 0 <= i < |ws| ensures IsWord(ws[i]) {
      if i > 0 { assert ws[i] == rest[i - 1]; }
    }
  }

  /** Every part `split()` yields is a word. */
  lemma {:induction false} WordsAreWords(s: string)
    ensures forall i :: 0 <= i < |Words(s)| ==> IsWord(Words(s)[i])
    decreases |s|
  {
    var t := LStrip(s);
    WordsStep(s);
    if t != [] {
      var n := WordLen(t);
      FirstWordIsWord(t);
      WordsAreWords(t[n..]);
      ConsWords(t[..n], Words(t[n..]));
    }
  }

  /** One step of `split()`: skip the leading whitespace, then take a word. */
  lemma {:induction false} WordsStep(s: string)
    ensures LStrip(s) == [] ==> Words(s) == []
    ensures LStrip(s) != [] ==>
      Words(s) == [LStrip(s)[..WordLen(LStrip(s))]] + Words(LStrip(s)[WordLen(LStrip(s))..])
  {
  }

  /** Two strings with whitespace in the same places and the same other characters. */
  predicate SameShape(a: string, b: string) {
    |a| == |b| && forall i :: 0 <= i < |a| ==> (IsSpace(a[i]) <==> IsSpace(b[i])) && (!IsSpace(a[i]) ==> a[i] == b[i])
  }

  lemma {:induction false} LStripSameShape(a: string, b: string)
    requires SameShape(a, b)
    ensures |LStrip(a)| == |LStrip(b)|
    decreases |a|
  {
    if a != [] && IsSpace(a[0]) {
      LStripSameShape(a[1..], b[1..]);
    }
  }

  lemma {:induction false} WordLenSameShape(a: string, b: string)
    requires SameShape(a, b)
    ensures WordLen(a) == WordLen(b)
    decreases |a|
  {
    if a != [] && !IsSpace(a[0]) {
      WordLenSameShape(a[1..], b[1..]);
    }
  }

  /** `split()` only looks at where the whitespace is. */
  lemma {:induction false} SameShapeSuffix(a: string, b: string, k: nat)
    requires SameShape(a, b) && k <= |a|
    ensures SameShape(a[k..], b[k..])
  {
    var x, y := a[k..], b[k..];
    forall i | 0 <= i < |x| ensures (IsSpace(x[i]) <==> IsSpace(y[i])) && (!IsSpace(x[i]) ==> x[i] == y[i]) {
      assert x[i] == a[k + i] && y[i] == b[k + i];
    }
  }

  lemma {:induction false} SameShapeWord(a: string, b: string, n: nat)
    requires SameShape(a, b) && n <= |a|
    requires forall k :: 0 <= k < n ==> !IsSpace(a[k])
    ensures a[..n] == b[..n]
  {
  }

  /** `split()` only looks at where the whitespace is. */
  lemma {:induction false} WordsSameShape(a: string, b: string)
    requires SameShape(a, b)
    ensures Words(a) == Words(b)
    decreases |a|
  {
    var ta := LStrip(a);
    var tb := LStrip(b);
    LStripSameShape(a, b);
    SameShapeSuffix(a, b, |a| - |ta|);
    WordsStep(a);
    WordsStep(b);
    if ta != [] {
      var n := WordLen(ta);
      WordLenSameShape(ta, tb);
      WordLenNoSpace(ta);
      SameShapeWord(ta, tb, n);
      SameShapeSuffix(ta, tb, n);
      WordsSameShape(ta[n..], tb[n..]);
    }
  }

  lemma {:induction false} LStripIdempotent(s: string)
    ensures LStrip(LStrip(s)) == LStrip(s)
  {
  }

  lemma {:induction false} WordsLStrip(s: string)
    ensures Words(LStrip(s)) == Words(s)
  {
    LStripIdempotent(s);
  }

  /** `lstrip()` starts at the first character that is not whitespace. */
  lemma {:induction false} LStripAt(s: string, k: nat)
    requires k < |s| && !IsSpace(s[k])
    requires forall i :: 0 <= i < k ==> IsSpace(s[i])
    ensures LStrip(s) == s[k..]
  {
    var r := LStrip(s);
    var m := |s| - |r|;
    LStripDropsSpaces(s);
    assert m <= k;
    assert r[0] == s[m];
  }

  lemma {:induction false} LStripAppend(z: string, w: string)
    requires LStrip(z) != []
    ensures LStrip(z + w) == LStrip(z) + w
  {
    var t := LStrip(z);
    var k := |z| - |t|;
    LStripDropsSpaces(z);
    assert t[0] == z[k];
    var zw := z + w;
    forall i | 0 <= i <= k ensures zw[i] == z[i] { }
    LStripAt(zw, k);
    assert zw[k..] == z[k..] + w;
  }

  lemma {:induction false} WordLenAppend(t: string, w: string)
    requires w == [] || IsSpace(w[0])
    ensures WordLen(t + w) == WordLen(t)
    decreases |t|
  {
    if t != [] && !IsSpace(t[0]) {
      assert (t + w)[1..] == t[1..] + w;
      WordLenAppend(t[1..], w);
    } else if t == [] {
      assert t + w == w;
    }
  }

  lemma {:induction false} AllSpaceLStrip(x: string)
    requires forall k :: 0 <= k < |x| ==> IsSpace(x[k])
    ensures LStrip(x) == []
  {
  }

  lemma {:induction false} WordsOfAllSpace(z: string, w: string)
    requires LStrip(z) == []
    requires forall k :: 0 <= k < |w| ==> IsSpace(w[k])
    ensures Words(z + w) == Words(z) == []
  {
    WordsStep(z);
    WordsStep(z + w);
    LStripDropsSpaces(z);
    var zw := z + w;
    forall k | 0 <= k < |zw| ensures IsSpace(zw[k]) {
      if k < |z| { assert zw[k] == z[k]; } else { assert zw[k] == w[k - |z|]; }
    }
    AllSpaceLStrip(zw);
  }

  lemma {:induction false} WordsAppendStep(z: string, w: string)
    requires LStrip(z) != []
    requires w == [] || IsSpace(w[0])
    ensures Words(z) == [LStrip(z)[..WordLen(LStrip(z))]] + Words(LStrip(z)[WordLen(LStrip(z))..])
    ensures Words(z + w) == [LStrip(z)[..WordLen(LStrip(z))]] + Words(LStrip(z)[WordLen(LStrip(z))..] + w)
  {
    var t := LStrip(z);
    LStripAppend(z, w);
    var tw := LStrip(z + w);
    var n := WordLen(t);
    WordLenAppend(t, w);
    assert tw[..n] == t[..n];
    assert tw[n..] == t[n..] + w;
    WordsStep(z);
    WordsStep(z + w);
  }

  /** Trailing whitespace does not change the words. */
  lemma {:induction false} WordsAppendSpaces(z: string, w: string)
    requires forall k :: 0 <= k < |w| ==> IsSpace(w[k])
    ensures Words(z + w) == Words(z)
    decreases |z|
  {
    var t := LStrip(z);
    if t == [] {
      WordsOfAllSpace(z, w);
    } else {
      WordsAppendStep(z, w);
      var n := WordLen(t);
      WordsAppendSpaces(t[n..], w);
    }
  }

  lemma {:induction false} WordsRStrip(l: string)
    ensures Words(RStrip(l)) == Words(l)
  {
    var r := RStrip(l);
    var tail := l[|r|..];
    assert l == r + tail;
    RStripDropsSpaces(l);
    forall k | 0 <= k < |tail| ensures IsSpace(tail[k]) { assert tail[k] == l[|r| + k]; }
    WordsAppendSpaces(r, tail);
  }

  /** Whitespace at either end does not change the words. */
  lemma {:induction false} WordsStrip(s: string)
    ensures Words(Strip(s)) == Words(s)
  {
    WordsRStrip(LStrip(s));
    WordsLStrip(s);
  }

  /** A whitespace-free string is its own single word. */
  lemma {:induction false} WordsOfWord(w: string)
    requires IsWord(w)
    ensures Words(w) == [w]
  {
    assert LStrip(w) == w;
    assert WordLen(w) == |w|;
    assert w[..|w|] == w;
    assert Words(w[|w|..]) == [];
  }

  lemma {:induction false} WordLenOfWord(w: string)
    requires IsWord(w)
    ensures WordLen(w) == |w|
  {
  }

  lemma {:induction false} WordsAfterBlank(rest: string)
    ensures Words(" " + rest) == Words(rest)
  {
    assert LStrip(" " + rest) == LStrip(rest) by { assert (" " + rest)[1..] == rest; }
    WordsStep(" " + rest);
    WordsStep(rest);
  }

  /** The blank-joined words split back into the same words. */
  lemma {:induction false} WordsOfJoin(ws: seq<string>)
    requires forall i :: 0 <= i < |ws| ==> IsWord(ws[i])
    ensures Words(Join(" ", ws)) == ws
    decreases |ws|
  {
    if |ws| == 0 {
    } else if |ws| == 1 {
      WordsOfWord(ws[0]);
    } else {
      WordsOfJoin(ws[1..]);
      WordsOfJoinStep(ws);
    }
  }

  /** The step of `WordsOfJoin`: the first word, a blank, and the join of the rest. */
  lemma {:induction false} WordsOfJoinStep(ws: seq<string>)
    requires |ws| >= 2 && IsWord(ws[0])
    requires Words(Join(" ", ws[1..])) == ws[1..]
    ensures Words(Join(" ", ws)) == ws
  {
    var w := ws[0];
    var rest := Join(" ", ws[1..]);
    assert Join(" ", ws) == w + (" " + rest);
    WordsOfWordThenBlank(w, rest);
    WordsAfterBlank(rest);
    HeadTail(ws);
  }

  /** A non-empty sequence is its head followed by its tail. */
  lemma {:induction false} HeadTail<T>(s: seq<T>)
    requires |s| > 0
    ensures [s[0]] + s[1..] == s
  {
  }

  /** A word, a blank and more text: the word, then the words of the rest. */
  lemma {:induction false} WordsOfWordThenBlank(w: string, rest: string)
    requires IsWord(w)
    ensures Words(w + (" " + rest)) == [w] + Words(" " + rest)
  {
    var s := w + (" " + rest);
    assert LStrip(s) == s;
    WordLenAppend(w, " " + rest);
    WordLenOfWord(w);
    WordsStep(s);
    assert s[..|w|] == w;
    assert s[|w|..] == " " + rest;
  }

  /** The first and last characters of a join of non-empty parts. */
  lemma {:induction false} JoinEnds(sep: string, parts: seq<string>)
    requires |parts| >= 1
    requires forall i :: 0 <= i < |parts| ==> |parts[i]| > 0
    ensures |Join(sep, parts)| > 0
    ensures Join(sep, parts)[0] == parts[0][0]
    ensures Join(sep, parts)[|Join(sep, parts)| - 1] == parts[|parts| - 1][|parts[|parts| - 1]| - 1]
    decreases |parts|
  {
    if |parts| > 1 {
      JoinEnds(sep, parts[1..]);
    }
  }

  /** A character of a join comes from a part or from the separator. */
  lemma {:induction false} JoinChars(sep: string, parts: seq<string>, c: char)
    ensures c in Join(sep, parts) <==> (exists i :: 0 <= i < |parts| && c in parts[i]) || (|parts| >= 2 && c in sep)
    decreases |parts|
  {
    if |parts| >= 2 {
      JoinChars(sep, parts[1..], c);
      var rest := Join(sep, parts[1..]);
      assert Join(sep, parts) == parts[0] + sep + rest;
      if c in rest && !(|parts[1..]| >= 2 && c in sep) {
        var i :| 0 <= i < |parts[1..]| && c in parts[1..][i];
        assert c in parts[i + 1];
      }
      if exists i :: 0 <= i < |parts| && c in parts[i] {
        var i :| 0 <= i < |parts| && c in parts[i];
        if i > 0 { assert c in parts[1..][i - 1]; }
      }
    }
  }

  // ---------------------------------------------------------------------
  // Digits and numbers

  predicate AllDigits(s: string) {
    forall i :: 0 <= i < |s| ==> IsDigit(s[i])
  }

  function DigitValue(c: char): nat
    requires IsDigit(c)
  {
    c as int - '0' as int
  }

  function DigitChar(d: nat): (c: char)
    requires d < 10
    ensures IsDigit(c) && DigitValue(c) == d
  {
    ('0' as int + d) as char
  }

  /** The value of a string of decimal digits, most significant first. */
  function DigitsValue(s: string): nat
    requires AllDigits(s)
    decreases |s|
  {
    if |s| == 0 then 0 else DigitsValue(s[..|s| - 1]) * 10 + DigitValue(s[|s| - 1])
  }

  /** The value of the digits after a decimal point: `0.d1d2...dn`. */
  function FractionValue(frac: string): real
    requires AllDigits(frac)
    decreases |frac|
  {
    if frac == [] then 0.0 else (DigitValue(frac[0]) as real + FractionValue(frac[1..])) / 10.0
  }

  /** `str(n)` for a natural number. */
  function NatToString(n: nat): (r: string)
    ensures |r| > 0 && AllDigits(r)
    decreases n
  {
    if n < 10 then [DigitChar(n)] else NatToString(n / 10) + [DigitChar(n % 10)]
  }

  /** `str(i)` for an integer. */
  function IntToString(i: int): string {
    if i < 0 then "-" + NatToString(-i) else NatToString(i)
  }

  lemma {:induction false} NatToStringValue(n: nat)
    ensures DigitsValue(NatToString(n)) == n
    decreases n
  {
    if n >= 10 {
      NatToStringValue(n / 10);
      var s := NatToString(n);
      assert s[..|s| - 1] == NatToString(n / 10);
    }
  }

  /** `int(s)` on text: optional surrounding whitespace, an optional sign, ASCII digits. */
  function ParseInt(s: string): Option<int> {
    var t := Strip(s);
    if |t| > 0 && (t[0] == '-' || t[0] == '+') then
      var d := t[1..];
      if |d| > 0 && AllDigits(d) then Some(if t[0] == '-' then -(DigitsValue(d) as int) else DigitsValue(d))
      else None
    else if |t| > 0 && AllDigits(t) then Some(DigitsValue(t))
    else None
  }

  /** `int()` reads back what `str()` writes. */
  lemma {:induction false} ParseIntOfDigits(s: string)
    requires |s| > 0 && AllDigits(s)
    ensures ParseInt(s) == Some(DigitsValue(s) as int)
  {
    assert IsStripped(s);
    var t := Strip(s);
    assert t == s;
    assert IsDigit(t[0]);
    assert !(t[0] == '-' || t[0] == '+');
  }

  lemma {:induction false} ParseIntOfNegativeDigits(d: string)
    requires |d| > 0 && AllDigits(d)
    ensures ParseInt("-" + d) == Some(-(DigitsValue(d) as int))
  {
    var s := "-" + d;
    assert IsStripped(s);
    var t := Strip(s);
    assert t == s;
    assert t[0] == '-' && t[1..] == d;
  }

  lemma {:induction false} ParseIntOfNatToString(n: nat)
    ensures ParseInt(NatToString(n)) == Some(n)
  {
    NatToStringValue(n);
    ParseIntOfDigits(NatToString(n));
  }

  lemma {:induction false} ParseIntOfNegatedNat(n: nat)
    ensures ParseInt("-" + NatToString(n)) == Some(-(n as int))
  {
    NatToStringValue(n);
    ParseIntOfNegativeValue(NatToString(n), n);
  }

  lemma {:induction false} ParseIntOfNegativeValue(d: string, n: nat)
    requires |d| > 0 && AllDigits(d) && DigitsValue(d) == n
    ensures ParseInt("-" + d) == Some(-(n as int))
  {
    ParseIntOfNegativeDigits(d);
  }

  /** `int()` reads back what `str()` writes. */
  lemma {:induction false} ParseIntOfIntToString(i: int)
    ensures ParseInt(IntToString(i)) == Some(i)
  {
    if i < 0 {
      var n: nat := -i;
      assert IntToString(i) == "-" + NatToString(n);
      ParseIntOfNegatedNat(n);
    } else {
      assert IntToString(i) == NatToString(i);
      ParseIntOfNatToString(i);
    }
  }

  /** The unsigned part of a `Decimal` literal: digits with at most one point, and at least one digit. */
  function UnsignedDecimal(body: string): Option<real> {
    match IndexOf(body, ".")
    case None =>
      if |body| > 0 && AllDigits(body) then Some(DigitsValue(body) as real) else None
    case Some(k) =>
      var whole := body[..k];
      var frac := body[k + 1..];
      if AllDigits(whole) && AllDigits(frac) && |whole| + |frac| > 0 then
        Some(DigitsValue(whole) as real + FractionValue(frac))
      else None
  }

  /** `decimal.Decimal(s)` on text: optional whitespace and sign, then digits with at most one point and at least one digit. */
  function ParseDecimal(s: string): Option<real> {
    var t := Strip(s);
    var negative := |t| > 0 && t[0] == '-';
    var body := if |t| > 0 && (t[0] == '-' || t[0] == '+') then t[1..] else t;
    match UnsignedDecimal(body)
    case None => None
    case Some(m) => Some(if negative then -m else m)
  }

  /** Text without whitespace at either end and without a sign is read as its unsigned part. */
  lemma {:induction false} ParseDecimalUnsigned(s: string)
    requires |s| > 0 && !IsSpace(s[0]) && !IsSpace(s[|s| - 1])
    requires s[0] != '+' && s[0] != '-'
    ensures ParseDecimal(s) == UnsignedDecimal(s)
  {
    assert IsStripped(s);
    assert Strip(s) == s;
    assert !(|s| > 0 && s[0] == '-');
  }

  lemma {:induction false} UnsignedDecimalOfDigits(s: string)
    requires |s| > 0 && AllDigits(s)
    ensures UnsignedDecimal(s) == Some(DigitsValue(s) as real)
  {
    assert '.' !in s;
    IndexOfAbsentChar(s, '.');
  }

  lemma {:induction false} ParseDecimalOfDigits(s: string)
    requires |s| > 0 && AllDigits(s)
    ensures ParseDecimal(s) == Some(DigitsValue(s) as real)
  {
    assert IsDigit(s[0]) && IsDigit(s[|s| - 1]);
    UnsignedDecimalOfDigits(s);
    ParseDecimalUnsigned(s);
  }

  lemma {:induction false} ParseDecimalOfNat(n: nat)
    ensures ParseDecimal(NatToString(n)) == Some(n as real)
  {
    NatToStringValue(n);
    ParseDecimalOfDigits(NatToString(n));
  }

  // ---------------------------------------------------------------------
  // First matches of the number patterns

  /** The length of the run of digits starting at `i`. */
  function DigitRun(s: string, i: nat): (n: nat)
    requires i <= |s|
    ensures i + n <= |s|
    ensures forall k :: i <= k < i + n ==> IsDigit(s[k])
    ensures i + n == |s| || !IsDigit(s[i + n])
    decreases |s| - i
  {
    if i < |s| && IsDigit(s[i]) then 1 + DigitRun(s, i + 1) else 0
  }

  /** The first index at or after `i` holding a digit. */
  function FirstDigitFrom(s: string, i: nat): (r: Option<nat>)
    requires i <= |s|
    ensures r.Some? ==> i <= r.value < |s| && IsDigit(s[r.value])
    ensures r.Some? ==> forall j :: i <= j < r.value ==> !IsDigit(s[j])
    ensures r.None? ==> forall j :: i <= j < |s| ==> !IsDigit(s[j])
    decreases |s| - i
  {
    if i == |s| then None else if IsDigit(s[i]) then Some(i) else FirstDigitFrom(s, i + 1)
  }

  predicate HasDigit(s: string) {
    exists k :: 0 <= k < |s| && IsDigit(s[k])
  }

  /** `re.findall(r'\d+', s)[0]`, or None where the list would be empty. */
  function FirstDigitRun(s: string): (r: Option<string>)
    ensures r.Some? <==> HasDigit(s)
    ensures r.Some? ==> |r.value| > 0 && AllDigits(r.value)
  {
    match FirstDigitFrom(s, 0)
    case None => None
    case Some(k) => Some(s[k..k + DigitRun(s, k)])
  }

  /** The regex `-?\d+` can start matching at `i`. */
  predicate SignedIntAt(s: string, i: nat) {
    i < |s| && (IsDigit(s[i]) || (s[i] == '-' && i + 1 < |s| && IsDigit(s[i + 1])))
  }

  function FirstSignedIntFrom(s: string, i: nat): (r: Option<nat>)
    requires i <= |s|
    ensures r.Some? ==> i <= r.value && SignedIntAt(s, r.value)
    ensures r.Some? ==> forall j :: i <= j < r.value ==> !SignedIntAt(s, j)
    ensures r.None? ==> forall j :: i <= j ==> !SignedIntAt(s, j)
    decreases |s| - i
  {
    if i == |s| then None else if SignedIntAt(s, i) then Some(i) else FirstSignedIntFrom(s, i + 1)
  }

  /** The greedy match of `-?\d+` starting at `k`. */
  function SignedIntToken(s: string, k: nat): string
    requires SignedIntAt(s, k)
  {
    if s[k] == '-' then s[k..k + 1 + DigitRun(s, k + 1)] else s[k..k + DigitRun(s, k)]
  }

  lemma {:induction false} DigitRunSlice(s: string, i: nat)
    requires i <= |s|
    ensures AllDigits(s[i..i + DigitRun(s, i)])
  {
    var n := DigitRun(s, i);
    var t := s[i..i + n];
    forall j | 0 <= j < n ensures IsDigit(t[j]) { assert t[j] == s[i + j]; }
  }

  lemma {:induction false} SignedIntTokenParses(s: string, k: nat)
    requires SignedIntAt(s, k)
    ensures ParseInt(SignedIntToken(s, k)).Some?
  {
    if s[k] == '-' {
      var d := s[k + 1..k + 1 + DigitRun(s, k + 1)];
      DigitRunSlice(s, k + 1);
      assert SignedIntToken(s, k) == "-" + d;
      ParseIntOfNegativeDigits(d);
    } else {
      DigitRunSlice(s, k);
      ParseIntOfDigits(SignedIntToken(s, k));
    }
  }

  /** `re.findall(r'-?\d+', s)[0]`: the token always reads back with `int()`. */
  function FirstSignedInt(s: string): (r: Option<string>)
    ensures r.Some? <==> HasDigit(s)
    ensures r.Some? ==> ParseInt(r.value).Some?
  {
    match FirstSignedIntFrom(s, 0)
    case None =>
      assert !HasDigit(s) by {
        if HasDigit(s) {
          var k :| 0 <= k < |s| && IsDigit(s[k]);
          assert SignedIntAt(s, k);
        }
      }
      None
    case Some(k) =>
      assert IsDigit(s[k]) || IsDigit(s[k + 1]);
      SignedIntTokenParses(s, k);
      Some(SignedIntToken(s, k))
  }

  /** Where the regex `[+-]?[0-9]*[.]?[0-9]+` starting at `i` begins its digits. */
  function AfterSign(s: string, i: nat): nat
    requires i < |s|
  {
    if s[i] == '+' || s[i] == '-' then i + 1 else i
  }

  /** The match of `[+-]?[0-9]*[.]?[0-9]+` at `i` has a fractional part. */
  predicate FractionAt(s: string, i: nat)
    requires i < |s|
  {
    var q := AfterSign(s, i);
    var r := q + DigitRun(s, q);
    r + 1 < |s| && s[r] == '.' && IsDigit(s[r + 1])
  }

  /** The regex `[+-]?[0-9]*[.]?[0-9]+` can start matching at `i`. */
  predicate DecimalAt(s: string, i: nat) {
    i < |s| && (DigitRun(s, AfterSign(s, i)) > 0 || FractionAt(s, i))
  }

  /** The end of the greedy match of `[+-]?[0-9]*[.]?[0-9]+` at `i`. */
  function DecimalEnd(s: string, i: nat): (e: nat)
    requires DecimalAt(s, i)
    ensures i < e <= |s|
  {
    var q := AfterSign(s, i);
    var r := q + DigitRun(s, q);
    if FractionAt(s, i) then r + 1 + DigitRun(s, r + 1) else r
  }

  /** The leftmost match of `[+-]?[0-9]*[.]?[0-9]+` from `i`, if any. */
  function FirstDecimalFrom(s: string, i: nat): (r: Option<nat>)
    requires i <= |s|
    ensures r.Some? ==> i <= r.value && DecimalAt(s, r.value)
    ensures r.Some? ==> forall j :: i <= j < r.value ==> !DecimalAt(s, j)
    ensures r.None? ==> forall j :: i <= j ==> !DecimalAt(s, j)
    decreases |s| - i
  {
    if i == |s| then None else if DecimalAt(s, i) then Some(i) else FirstDecimalFrom(s, i + 1)
  }

  /** `re.findall(r'[+-]?[0-9]*[.]?[0-9]+', s)[0]`: present exactly when `s` has a digit, and always a valid `Decimal`. */
  function FirstDecimal(s: string): (r: Option<string>)
    ensures r.Some? <==> HasDigit(s)
    ensures r.Some? ==> ParseDecimal(r.value).Some?
  {
    match FirstDecimalFrom(s, 0)
    case None =>
      assert !HasDigit(s) by {
        if HasDigit(s) {
          var k :| 0 <= k < |s| && IsDigit(s[k]);
          assert DigitRun(s, k) > 0;
          if s[k] == '+' || s[k] == '-' { } else { assert AfterSign(s, k) == k; }
          assert DecimalAt(s, k);
        }
      }
      None
    case Some(k) =>
      var tok := s[k..DecimalEnd(s, k)];
      DecimalTokenParses(s, k);
      Some(tok)
  }

  lemma {:induction false} UnsignedDecimalOfFraction(whole: string, frac: string)
    requires AllDigits(whole) && AllDigits(frac) && |frac| > 0
    ensures UnsignedDecimal(whole + "." + frac).Some?
  {
    var body := whole + "." + frac;
    assert body[|whole|] == '.';
    IndexOfChar(body, '.', |whole|);
    assert body[..|whole|] == whole;
    assert body[|whole| + 1..] == frac;
  }

  /** `Decimal()` accepts an optional sign in front of an unsigned literal that starts and ends without whitespace. */
  lemma {:induction false} ParseDecimalSigned(sign: string, body: string)
    requires sign == "" || sign == "+" || sign == "-"
    requires |body| > 0 && !IsSpace(body[0]) && !IsSpace(body[|body| - 1])
    requires body[0] != '+' && body[0] != '-'
    requires UnsignedDecimal(body).Some?
    ensures ParseDecimal(sign + body).Some?
  {
    var t := sign + body;
    assert IsStripped(t);
    assert (if |t| > 0 && (t[0] == '-' || t[0] == '+') then t[1..] else t) == body;
  }

  lemma {:induction false} DecimalTokenParses(s: string, k: nat)
    requires DecimalAt(s, k)
    ensures ParseDecimal(s[k..DecimalEnd(s, k)]).Some?
  {
    var e := DecimalEnd(s, k);
    var q := AfterSign(s, k);
    var r := q + DigitRun(s, q);
    var sign := s[k..q];
    var whole := s[q..r];
    if q == k + 1 { assert sign == [s[k]]; } else { assert sign == []; }
    DigitRunSlice(s, q);
    if FractionAt(s, k) {
      var frac := s[r + 1..e];
      DigitRunSlice(s, r + 1);
      SliceThree(s, k, q, r, e);
      assert [s[r]] == ".";
      FractionTokenParses(sign, whole, frac);
    } else {
      assert e == r;
      SliceTwo(s, k, q, r);
      WholeTokenParses(sign, whole);
    }
  }

  lemma {:induction false} SliceTwo(s: string, k: nat, q: nat, e: nat)
    requires k <= q <= e <= |s|
    ensures s[k..e] == s[k..q] + s[q..e]
  {
  }

  lemma {:induction false} SliceThree(s: string, k: nat, q: nat, r: nat, e: nat)
    requires k <= q <= r < e <= |s|
    ensures s[k..e] == s[k..q] + (s[q..r] + [s[r]] + s[r + 1..e])
  {
  }

  lemma {:induction false} FractionTokenParses(sign: string, whole: string, frac: string)
    requires sign == "" || sign == "+" || sign == "-"
    requires AllDigits(whole) && AllDigits(frac) && |frac| > 0
    ensures ParseDecimal(sign + (whole + "." + frac)).Some?
  {
    var body := whole + "." + frac;
    UnsignedDecimalOfFraction(whole, frac);
    assert body[|body| - 1] == frac[|frac| - 1];
    assert body[0] == if |whole| > 0 then whole[0] else '.';
    ParseDecimalSigned(sign, body);
  }

  lemma {:induction false} WholeTokenParses(sign: string, whole: string)
    requires sign == "" || sign == "+" || sign == "-"
    requires AllDigits(whole) && |whole| > 0
    ensures ParseDecimal(sign + whole).Some?
  {
    UnsignedDecimalOfDigits(whole);
    ParseDecimalSigned(sign, whole);
  }
}
