/**
 * The two synonym tables of the normaliser — the record's type names
 * (`EstateObject._resort_obj_types`) and the field resolver's labels
 * (`TableMapper._restructure_map`) — are built the same way: a table of
 * rows, each a target and its labels, is flattened into (label, target)
 * entries and sorted by descending label length; a lookup then takes the
 * first entry whose label matches.
 */
module Synonyms {
  import opened Results

  /** One label of a synonym table and what it resolves to. */
  datatype Entry<T> = Entry(name: string, target: T)

  /** A row of a table as written: a target and its labels in order. */
  datatype Group<T> = Group(target: T, labels: seq<string>)

  // ---------------------------------------------------------------------
  // Flattening

  /** The entries of one row. */
  function Entries<T>(target: T, labels: seq<string>): (r: seq<Entry<T>>)
    ensures |r| == |labels|
  {
    if labels == [] then [] else [Entry(labels[0], target)] + Entries(target, labels[1..])
  }

  lemma {:induction false} EntriesAt<T>(target: T, labels: seq<string>)
    ensures forall i :: 0 <= i < |labels| ==> Entries(target, labels)[i] == Entry(labels[i], target)
  {
    if labels != [] {
      EntriesAt(target, labels[1..]);
      var r := Entries(target, labels);
      assert r == [Entry(labels[0], target)] + Entries(target, labels[1..]);
      assert forall i :: 1 <= i < |labels| ==> r[i] == Entries(target, labels[1..])[i - 1];
    }
  }

  /** The table flattened row by row, each row's labels in their order. */
  function Flatten<T>(groups: seq<Group<T>>): seq<Entry<T>> {
    if groups == [] then [] else Entries(groups[0].target, groups[0].labels) + Flatten(groups[1..])
  }

  /** An entry is in the flattened table exactly when some row pairs its label with its target. */
  lemma {:induction false} FlattenMembers<T>(groups: seq<Group<T>>, e: Entry<T>)
    ensures e in Flatten(groups) <==>
      exists i, j :: 0 <= i < |groups| && 0 <= j < |groups[i].labels| && e == Entry(groups[i].labels[j], groups[i].target)
  {
    if groups != [] {
      var g := groups[0];
      var es := Entries(g.target, g.labels);
      EntriesAt(g.target, g.labels);
      FlattenMembers(groups[1..], e);
      if e in es {
        var j :| 0 <= j < |es| && es[j] == e;
        assert 0 < |groups| && 0 <= j < |groups[0].labels| && e == Entry(groups[0].labels[j], groups[0].target);
      }
      if e in Flatten(groups[1..]) {
        var i, j :| 0 <= i < |groups[1..]| && 0 <= j < |groups[1..][i].labels| && e == Entry(groups[1..][i].labels[j], groups[1..][i].target);
        assert 0 <= i + 1 < |groups| && 0 <= j < |groups[i + 1].labels| && e == Entry(groups[i + 1].labels[j], groups[i + 1].target);
      }
      if exists i, j :: 0 <= i < |groups| && 0 <= j < |groups[i].labels| && e == Entry(groups[i].labels[j], groups[i].target) {
        var i, j :| 0 <= i < |groups| && 0 <= j < |groups[i].labels| && e == Entry(groups[i].labels[j], groups[i].target);
        if i == 0 {
          assert es[j] == e;
        } else {
          assert groups[1..][i - 1] == groups[i];
        }
      }
    }
  }

  lemma {:induction false} EntriesStep<T>(target: T, labels: seq<string>, j: nat)
    requires j < |labels|
    ensures Entries(target, labels[j..]) == [Entry(labels[j], target)] + Entries(target, labels[j + 1..])
  {
    assert labels[j..][1..] == labels[j + 1..];
  }

  lemma {:induction false} FlattenStep<T>(groups: seq<Group<T>>, i: nat)
    requires i < |groups|
    ensures Flatten(groups[i..]) == Entries(groups[i].target, groups[i].labels) + Flatten(groups[i + 1..])
  {
    assert groups[i..][1..] == groups[i + 1..];
  }

  /** The nested loops that build the list of pairs, row by row and label by label. */
  method FlattenTable<T>(groups: seq<Group<T>>) returns (pairs: seq<Entry<T>>)
    ensures pairs == Flatten(groups)
  {
    pairs := [];
    var i := 0;
    assert groups[0..] == groups;
    while i < |groups|
      invariant 0 <= i <= |groups|
      invariant pairs + Flatten(groups[i..]) == Flatten(groups)
    {
      var g := groups[i];
      ghost var rest := Flatten(groups[i + 1..]);
      FlattenStep(groups, i);
      var j := 0;
      assert g.labels[0..] == g.labels;
      while j < |g.labels|
        invariant 0 <= j <= |g.labels|
        invariant pairs + Entries(g.target, g.labels[j..]) + rest == Flatten(groups)
      {
        var e := Entry(g.labels[j], g.target);
        ghost var tail := Entries(g.target, g.labels[j + 1..]);
        EntriesStep(g.target, g.labels, j);
        AppendShift(pairs, e, tail, rest);
        pairs := pairs + [e];
        j := j + 1;
      }
      assert g.labels[j..] == [];
      assert pairs + rest == Flatten(groups);
      i := i + 1;
    }
    assert groups[i..] == [];
  }

  lemma {:induction false} AppendShift<X>(a: seq<X>, x: X, b: seq<X>, c: seq<X>)
    ensures a + ([x] + b) + c == (a + [x]) + b + c
  {
  }

  // ---------------------------------------------------------------------
  // Sorting by descending label length

  /** The entries whose label has length `n`, in their order. */
  function WithLength<T>(es: seq<Entry<T>>, n: nat): seq<Entry<T>> {
    if es == [] then [] else (if |es[0].name| == n then [es[0]] else []) + WithLength(es[1..], n)
  }

  lemma {:induction false} WithLengthLengths<T>(es: seq<Entry<T>>, n: nat)
    ensures forall i :: 0 <= i < |WithLength(es, n)| ==> |WithLength(es, n)[i].name| == n
  {
    if es != [] {
      WithLengthLengths(es[1..], n);
      var head := if |es[0].name| == n then [es[0]] else [];
      var w := WithLength(es[1..], n);
      assert forall i :: |head| <= i < |head + w| ==> (head + w)[i] == w[i - |head|];
    }
  }

  /** The entries whose label is shorter than `n`, in their order. */
  function Shorter<T>(es: seq<Entry<T>>, n: nat): seq<Entry<T>> {
    if es == [] then [] else (if |es[0].name| < n then [es[0]] else []) + Shorter(es[1..], n)
  }

  /** The entries of length `n - 1`, then those of length `n - 2`, and so on down to 0. */
  function Buckets<T>(es: seq<Entry<T>>, n: nat): seq<Entry<T>> {
    if n == 0 then [] else WithLength(es, n - 1) + Buckets(es, n - 1)
  }

  /** Every label is at most `n` long. */
  predicate Bounded<T>(es: seq<Entry<T>>, n: nat) {
    forall i :: 0 <= i < |es| ==> |es[i].name| <= n
  }

  /** The length of the longest label. */
  function MaxLabel<T>(es: seq<Entry<T>>): nat {
    if es == [] then 0
    else
      var rest := MaxLabel(es[1..]);
      if |es[0].name| > rest then |es[0].name| else rest
  }

  lemma {:induction false} MaxLabelBounds<T>(es: seq<Entry<T>>)
    ensures Bounded(es, MaxLabel(es))
  {
    if es != [] {
      MaxLabelBounds(es[1..]);
      assert forall i :: 1 <= i < |es| ==> es[i] == es[1..][i - 1];
    }
  }

  /**
   * `pairs.sort(key=lambda x: len(label), reverse=True)`. Python's sort is
   * stable, also when reversed, so the result holds the longest labels
   * first and, among labels of one length, keeps the table's order.
   */
  function SortByLength<T>(es: seq<Entry<T>>): seq<Entry<T>> {
    Buckets(es, MaxLabel(es) + 1)
  }

  predicate SortedByLength<T>(es: seq<Entry<T>>) {
    forall i, j :: 0 <= i < j < |es| ==> |es[i].name| >= |es[j].name|
  }

  lemma {:induction false} BucketsBound<T>(es: seq<Entry<T>>, n: nat)
    requires n > 0
    ensures Bounded(Buckets(es, n), n - 1)
  {
    var a := WithLength(es, n - 1);
    var b := Buckets(es, n - 1);
    WithLengthLengths(es, n - 1);
    if n > 1 {
      BucketsBound(es, n - 1);
    }
    var r := a + b;
    forall i | 0 <= i < |r| ensures |r[i].name| <= n - 1 {
      if i < |a| { assert r[i] == a[i]; } else { assert r[i] == b[i - |a|]; }
    }
  }

  lemma {:induction false} SortedConcat<T>(a: seq<Entry<T>>, b: seq<Entry<T>>, n: nat)
    requires forall i :: 0 <= i < |a| ==> |a[i].name| == n
    requires b == [] || (n > 0 && Bounded(b, n - 1))
    requires SortedByLength(b)
    ensures SortedByLength(a + b)
  {
    var r := a + b;
    forall i, j | 0 <= i < j < |r| ensures |r[i].name| >= |r[j].name| {
      if j < |a| {
        assert r[i] == a[i] && r[j] == a[j];
      } else if i < |a| {
        assert r[i] == a[i] && r[j] == b[j - |a|];
      } else {
        assert r[i] == b[i - |a|] && r[j] == b[j - |a|];
      }
    }
  }

  lemma {:induction false} BucketsSorted<T>(es: seq<Entry<T>>, n: nat)
    ensures SortedByLength(Buckets(es, n))
  {
    if n > 0 {
      BucketsSorted(es, n - 1);
      if n > 1 { BucketsBound(es, n - 1); }
      WithLengthLengths(es, n - 1);
      SortedConcat(WithLength(es, n - 1), Buckets(es, n - 1), n - 1);
    }
  }

  /** The sorted table lists longer labels before shorter ones. */
  lemma {:induction false} SortByLengthSorted<T>(es: seq<Entry<T>>)
    ensures SortedByLength(SortByLength(es))
  {
    BucketsSorted(es, MaxLabel(es) + 1);
  }

  lemma {:induction false} ShorterSplit<T>(es: seq<Entry<T>>, n: nat)
    ensures multiset(Shorter(es, n + 1)) == multiset(WithLength(es, n)) + multiset(Shorter(es, n))
  {
    if es != [] {
      ShorterSplit(es[1..], n);
    }
  }

  lemma {:induction false} BucketsPermutation<T>(es: seq<Entry<T>>, n: nat)
    ensures multiset(Buckets(es, n)) == multiset(Shorter(es, n))
  {
    if n > 0 {
      var k := n - 1;
      assert Buckets(es, n) == WithLength(es, k) + Buckets(es, k);
      ShorterSplit(es, k);
      BucketsPermutation(es, k);
    } else {
      ShorterNothing(es);
    }
  }

  lemma {:induction false} ShorterNothing<T>(es: seq<Entry<T>>)
    ensures Shorter(es, 0) == []
  {
    if es != [] { ShorterNothing(es[1..]); }
  }

  lemma {:induction false} ShorterAll<T>(es: seq<Entry<T>>, n: nat)
    requires Bounded(es, n)
    ensures Shorter(es, n + 1) == es
  {
    if es != [] {
      assert forall i :: 0 <= i < |es[1..]| ==> es[1..][i] == es[i + 1];
      ShorterAll(es[1..], n);
    }
  }

  lemma {:induction false} BucketsPermutationMax<T>(es: seq<Entry<T>>)
    ensures multiset(Buckets(es, MaxLabel(es) + 1)) == multiset(es)
  {
    var n := MaxLabel(es) + 1;
    BucketsPermutationAt(es, n);
  }

  lemma {:induction false} BucketsPermutationAt<T>(es: seq<Entry<T>>, n: nat)
    requires n == MaxLabel(es) + 1
    ensures multiset(Buckets(es, n)) == multiset(es)
  {
    ShorterMax(es);
    BucketsPermutation(es, n);
  }

  lemma {:induction false} ShorterMax<T>(es: seq<Entry<T>>)
    ensures Shorter(es, MaxLabel(es) + 1) == es
  {
    MaxLabelBounds(es);
    ShorterAll(es, MaxLabel(es));
  }

  /** Sorting keeps every entry, each as often as before. */
  lemma {:induction false} SortByLengthPermutation<T>(es: seq<Entry<T>>)
    ensures multiset(SortByLength(es)) == multiset(es)
  {
    BucketsPermutationMax(es);
  }

  lemma {:induction false} WithLengthConcat<T>(a: seq<Entry<T>>, b: seq<Entry<T>>, n: nat)
    ensures WithLength(a + b, n) == WithLength(a, n) + WithLength(b, n)
  {
    if a == [] {
      assert a + b == b;
    } else {
      assert (a + b)[1..] == a[1..] + b;
      WithLengthConcat(a[1..], b, n);
    }
  }

  lemma {:induction false} WithLengthOfWithLength<T>(es: seq<Entry<T>>, m: nat, n: nat)
    ensures WithLength(WithLength(es, m), n) == if m == n then WithLength(es, n) else []
  {
    if es != [] {
      WithLengthOfWithLength(es[1..], m, n);
      var head := if |es[0].name| == m then [es[0]] else [];
      WithLengthConcat(head, WithLength(es[1..], m), n);
    }
  }

  lemma {:induction false} WithLengthOfBuckets<T>(es: seq<Entry<T>>, m: nat, n: nat)
    ensures WithLength(Buckets(es, m), n) == if n < m then WithLength(es, n) else []
  {
    if m > 0 {
      WithLengthConcat(WithLength(es, m - 1), Buckets(es, m - 1), n);
      WithLengthOfWithLength(es, m - 1, n);
      WithLengthOfBuckets(es, m - 1, n);
    }
  }

  lemma {:induction false} WithLengthTooLong<T>(es: seq<Entry<T>>, n: nat)
    requires forall i :: 0 <= i < |es| ==> |es[i].name| < n
    ensures WithLength(es, n) == []
  {
    if es != [] {
      assert forall i :: 0 <= i < |es[1..]| ==> es[1..][i] == es[i + 1];
      WithLengthTooLong(es[1..], n);
    }
  }

  /** The sort is stable: the entries of any one label length keep their relative order. */
  lemma {:induction false} SortByLengthStable<T>(es: seq<Entry<T>>, n: nat)
    ensures WithLength(SortByLength(es), n) == WithLength(es, n)
  {
    WithLengthOfBuckets(es, MaxLabel(es) + 1, n);
    if n > MaxLabel(es) {
      MaxLabelBounds(es);
      WithLengthTooLong(es, n);
    }
  }

  lemma {:induction false} WithLengthMember<T>(es: seq<Entry<T>>, n: nat, k: nat)
    requires k < |es| && |es[k].name| == n
    ensures es[k] in WithLength(es, n)
  {
    if k > 0 {
      WithLengthMember(es[1..], n, k - 1);
    }
  }

  lemma {:induction false} WithLengthMembers<T>(es: seq<Entry<T>>, n: nat)
    ensures forall i :: 0 <= i < |WithLength(es, n)| ==> WithLength(es, n)[i] in es
  {
    if es != [] {
      WithLengthMembers(es[1..], n);
      var head := if |es[0].name| == n then [es[0]] else [];
      var w := WithLength(es[1..], n);
      forall i | 0 <= i < |head + w| ensures (head + w)[i] in es {
        if i < |head| { assert (head + w)[i] == es[0]; }
        else { assert (head + w)[i] == w[i - |head|]; assert w[i - |head|] in es[1..]; }
      }
    }
  }

  // ---------------------------------------------------------------------
  // First match

  /** The index of the first entry at or after `i` whose label satisfies `matches`. */
  function FirstMatchFrom<T>(es: seq<Entry<T>>, matches: string -> bool, i: nat): (r: Option<nat>)
    requires i <= |es|
    ensures r.Some? ==> i <= r.value < |es| && matches(es[r.value].name)
    ensures r.Some? ==> forall j :: i <= j < r.value ==> !matches(es[j].name)
    ensures r.None? ==> forall j :: i <= j < |es| ==> !matches(es[j].name)
    decreases |es| - i
  {
    if i == |es| then None
    else if matches(es[i].name) then Some(i)
    else FirstMatchFrom(es, matches, i + 1)
  }

  /** The target of the first entry whose label matches: the `for ... return` scan both tables use. */
  function Lookup<T>(es: seq<Entry<T>>, matches: string -> bool): (r: Option<T>)
    ensures r.None? <==> forall j :: 0 <= j < |es| ==> !matches(es[j].name)
  {
    match FirstMatchFrom(es, matches, 0)
    case None => None
    case Some(k) => Some(es[k].target)
  }

  /** On a table sorted by length, the label that wins is at least as long as every matching label. */
  lemma {:induction false} LongestMatch<T>(es: seq<Entry<T>>, matches: string -> bool)
    requires SortedByLength(es)
    requires FirstMatchFrom(es, matches, 0).Some?
    ensures forall j :: 0 <= j < |es| && matches(es[j].name) ==>
      |es[j].name| <= |es[FirstMatchFrom(es, matches, 0).value].name|
  {
  }

  lemma {:induction false} LookupConcat<T>(a: seq<Entry<T>>, b: seq<Entry<T>>, matches: string -> bool)
    ensures Lookup(a + b, matches) == if Lookup(a, matches).Some? then Lookup(a, matches) else Lookup(b, matches)
  {
    var ab := a + b;
    assert forall j :: 0 <= j < |a| ==> ab[j] == a[j];
    assert forall j :: 0 <= j < |b| ==> ab[|a| + j] == b[j];
    var ra := FirstMatchFrom(a, matches, 0);
    var rb := FirstMatchFrom(b, matches, 0);
    var rab := FirstMatchFrom(ab, matches, 0);
    if ra.Some? {
      assert matches(ab[ra.value].name);
      assert rab == ra;
    } else if rb.Some? {
      assert matches(ab[|a| + rb.value].name);
      assert forall j :: 0 <= j < |a| + rb.value ==> !matches(ab[j].name);
      assert rab == Some(|a| + rb.value);
    } else {
      assert forall j :: 0 <= j < |ab| ==> !matches(ab[j].name);
    }
  }

  /** Once no entry longer than `m` matches, a lookup on the buckets below `n` is one on the buckets from `m` down. */
  lemma {:induction false} LookupBuckets<T>(es: seq<Entry<T>>, n: nat, m: nat, matches: string -> bool)
    requires m < n
    requires forall e :: e in es && |e.name| > m ==> !matches(e.name)
    ensures Lookup(Buckets(es, n), matches) == Lookup(Buckets(es, m + 1), matches)
  {
    if n > m + 1 {
      var k := n - 1;
      var w := WithLength(es, k);
      assert Buckets(es, n) == w + Buckets(es, k);
      LookupConcat(w, Buckets(es, k), matches);
      WithLengthMembers(es, k);
      WithLengthLengths(es, k);
      assert forall j :: 0 <= j < |w| ==> !matches(w[j].name);
      LookupBuckets(es, k, m, matches);
    }
  }

  /**
   * The tie-break: on the sorted table, the winner is what a scan of the
   * table's own order finds among the labels of the winning length — the
   * first of the longest matching labels as the table lists them.
   */
  lemma {:induction false} LookupSortedTieBreak<T>(es: seq<Entry<T>>, matches: string -> bool)
    requires FirstMatchFrom(SortByLength(es), matches, 0).Some?
    ensures var s := SortByLength(es);
      Lookup(s, matches) == Lookup(WithLength(es, |s[FirstMatchFrom(s, matches, 0).value].name|), matches)
  {
    var s := SortByLength(es);
    var k := FirstMatchFrom(s, matches, 0).value;
    var m := |s[k].name|;
    NoLongerMatch(es, matches);
    BucketsBound(es, MaxLabel(es) + 1);
    LookupBuckets(es, MaxLabel(es) + 1, m, matches);
    var w := WithLength(es, m);
    LookupConcat(w, Buckets(es, m), matches);
    SortByLengthStable(es, m);
    WithLengthMember(s, m, k);
    var i :| 0 <= i < |w| && w[i] == s[k];
    assert matches(w[i].name);
  }

  /** No label of `es` longer than the first match in the sorted table matches. */
  lemma {:induction false} NoLongerMatch<T>(es: seq<Entry<T>>, matches: string -> bool)
    requires FirstMatchFrom(SortByLength(es), matches, 0).Some?
    ensures var s := SortByLength(es);
      var m := |s[FirstMatchFrom(s, matches, 0).value].name|;
      forall e :: e in es && |e.name| > m ==> !matches(e.name)
  {
    var s := SortByLength(es);
    var m := |s[FirstMatchFrom(s, matches, 0).value].name|;
    SortByLengthSorted(es);
    SortByLengthPermutation(es);
    LongestMatch(s, matches);
    forall e | e in es && |e.name| > m ensures !matches(e.name) {
      assert e in multiset(s);
      var j :| 0 <= j < |s| && s[j] == e;
    }
  }
}
