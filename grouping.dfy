/**
 * The grouping arithmetic every summary table shares: the sorted list of
 * divisions, a group-by-and-sum, column totals, and the fact that adding up
 * a column over the division rows adds up every kept raw row exactly once.
 */
module Grouping {
  import opened Wrappers
  import opened Text

  /** The label of the synthetic last row of every summary table. */
  const GRAND_TOTAL := "Grand Total"

  /**
   * One raw row reduced to what a group-by-and-sum needs: its group key
   * (`None` for a missing key, which pandas leaves out of every group) and
   * the value it contributes.
   */
  type Entry = (Option<string>, int)

  function Sum(s: seq<int>): int {
    if s == [] then 0 else Sum(s[..|s| - 1]) + s[|s| - 1]
  }

  /** A column total: the sum of `f` over the rows of a table, in order. */
  function SumOf<R>(xs: seq<R>, f: R -> int): int {
    if xs == [] then 0 else SumOf(xs[..|xs| - 1], f) + f(xs[|xs| - 1])
  }

  lemma SumOfTwo<R>(xs: seq<R>, f: R -> int)
    requires |xs| == 2
    ensures SumOf(xs, f) == f(xs[0]) + f(xs[1])
  {
    assert xs[..1][..0] == [];
    assert SumOf(xs[..1], f) == f(xs[0]);
  }

  lemma SameThree<T>(a: seq<T>, b: seq<T>)
    requires |a| == 3 && |b| == 3
    requires a[0] == b[0] && a[1] == b[1] && a[2] == b[2]
    ensures a == b
  {
    assert a == [a[0], a[1], a[2]];
  }

  /** The sum of the values of the entries whose key is `d`; 0 when there are none. */
  function KeyedSum(entries: seq<Entry>, d: string): int {
    if entries == [] then 0
    else
      var last := entries[|entries| - 1];
      KeyedSum(entries[..|entries| - 1], d) + (if last.0 == Some(d) then last.1 else 0)
  }

  /** A key that names a real division: present and not blank. */
  predicate Kept(key: Option<string>) {
    key.Some? && !IsBlank(key.value)
  }

  /** The sum of the values of all entries whose key names a real division. */
  function KeptSum(entries: seq<Entry>): int {
    if entries == [] then 0
    else
      var last := entries[|entries| - 1];
      KeptSum(entries[..|entries| - 1]) + (if Kept(last.0) then last.1 else 0)
  }

  /** The group sums of `ds`, added up. */
  function SumOverDivisions(entries: seq<Entry>, ds: seq<string>): int {
    if ds == [] then 0 else SumOverDivisions(entries, ds[..|ds| - 1]) + KeyedSum(entries, ds[|ds| - 1])
  }

  function Keys(entries: seq<Entry>): (keys: seq<Option<string>>)
    ensures |keys| == |entries|
    ensures forall k :: 0 <= k < |entries| ==> keys[k] == entries[k].0
  {
    seq(|entries|, k requires 0 <= k < |entries| => entries[k].0)
  }

  predicate Distinct(ds: seq<string>) {
    forall i, j :: 0 <= i < j < |ds| ==> ds[i] != ds[j]
  }

  predicate StrictlySorted(ds: seq<string>) {
    forall i, j :: 0 <= i < j < |ds| ==> Less(ds[i], ds[j])
  }

  /**
   * The division list of a table: ascending, without duplicates, and made of
   * exactly the present, non-blank keys.
   */
  ghost predicate IsDivisionList(ds: seq<string>, keys: seq<Option<string>>) {
    && StrictlySorted(ds)
    && forall d :: d in ds <==> Some(d) in keys && !IsBlank(d)
  }

  lemma SortedIsDistinct(ds: seq<string>)
    requires StrictlySorted(ds)
    ensures Distinct(ds)
  {
    forall i, j | 0 <= i < j < |ds| ensures ds[i] != ds[j] {
      LessIrreflexive(ds[i]);
    }
  }

  /** Adds `x` to a sorted list of distinct strings, keeping it sorted and distinct. */
  function Insert(ds: seq<string>, x: string): (r: seq<string>)
    requires StrictlySorted(ds)
    ensures StrictlySorted(r)
    ensures forall y :: y in r <==> y in ds || y == x
  {
    if ds == [] then [x]
    else if x == ds[0] then ds
    else if Less(x, ds[0]) then
      assert forall j :: 0 <= j < |ds| ==> Less(x, ds[j]) by {
        forall j | 0 < j < |ds| ensures Less(x, ds[j]) { LessTransitive(x, ds[0], ds[j]); }
      }
      [x] + ds
    else
      LessTotal(x, ds[0]);
      var rest := Insert(ds[1..], x);
      assert forall y :: y in rest ==> Less(ds[0], y);
      [ds[0]] + rest
  }

  /**
   * `sorted(unique(...))` over the keys, dropping missing and blank ones:
   * the division list of the source, built one row at a time.
   */
  method SortedDivisions(keys: seq<Option<string>>) returns (ds: seq<string>)
    ensures IsDivisionList(ds, keys)
  {
    ds := [];
    for i := 0 to |keys|
      invariant StrictlySorted(ds)
      invariant forall d :: d in ds <==> Some(d) in keys[..i] && !IsBlank(d)
    {
      assert keys[..i + 1] == keys[..i] + [keys[i]];
      if keys[i].Some? && !IsBlank(keys[i].value) {
        ds := Insert(ds, keys[i].value);
      }
    }
    assert keys[..|keys|] == keys;
  }

  /** Every listed division is the key of some entry. */
  lemma ListedKeyIndex(ds: seq<string>, keys: seq<Option<string>>, i: nat) returns (k: nat)
    requires IsDivisionList(ds, keys) && i < |ds|
    ensures k < |keys| && keys[k] == Some(ds[i])
  {
    assert ds[i] in ds;
    k :| 0 <= k < |keys| && keys[k] == Some(ds[i]);
  }

  /**
   * The division list is determined by the keys alone: building the tables
   * twice from the same rows gives the same rows in the same order.
   */
  lemma {:induction false} DivisionListUnique(a: seq<string>, b: seq<string>, keys: seq<Option<string>>)
    requires IsDivisionList(a, keys) && IsDivisionList(b, keys)
    ensures a == b
  {
    SortedSameElements(a, b);
  }

  lemma {:induction false} SortedSameElements(a: seq<string>, b: seq<string>)
    requires StrictlySorted(a) && StrictlySorted(b)
    requires forall y :: y in a <==> y in b
    ensures a == b
  {
    assert b != [] ==> b[0] in a;
    if a != [] {
      assert b != [] by { assert a[0] in b; }
      if a[0] != b[0] {
        assert a[0] in b && b[0] in a;
        var k :| 0 <= k < |b| && b[k] == a[0];
        var l :| 0 <= l < |a| && a[l] == b[0];
        assert Less(b[0], a[0]) && Less(a[0], b[0]);
        LessAsymmetric(a[0], b[0]);
      }
      forall y ensures y in a[1..] <==> y in b[1..] {
        if y in a[1..] {
          var k :| 1 <= k < |a| && a[k] == y;
          LessIrreflexive(y);
          assert y != a[0];
          assert y in b;
        }
        if y in b[1..] {
          var k :| 1 <= k < |b| && b[k] == y;
          LessIrreflexive(y);
          assert y != b[0];
          assert y in a;
        }
      }
      SortedSameElements(a[1..], b[1..]);
      assert a == [a[0]] + a[1..] && b == [b[0]] + b[1..];
    }
  }

  /**
   * `groupby(key)[value].sum()`: one sum per key that occurs, the keys being
   * exactly those present on some entry. Reading a missing key as 0 (the
   * left merge followed by `fillna(0)`) gives the keyed sum of every string.
   */
  method GroupSum(entries: seq<Entry>) returns (sums: map<string, int>)
    ensures forall d :: d in sums <==> exists k :: 0 <= k < |entries| && entries[k].0 == Some(d)
    ensures forall d :: KeyedSum(entries, d) == if d in sums then sums[d] else 0
  {
    sums := map[];
    for i := 0 to |entries|
      invariant forall d :: d in sums <==> exists k :: 0 <= k < i && entries[k].0 == Some(d)
      invariant forall d :: KeyedSum(entries[..i], d) == if d in sums then sums[d] else 0
    {
      assert entries[..i + 1][..i] == entries[..i];
      match entries[i].0
      case Some(d) =>
        sums := sums[d := (if d in sums then sums[d] else 0) + entries[i].1];
      case None =>
    }
    assert entries[..|entries|] == entries;
  }

  /** `table[column].sum()`, one row at a time. */
  method ColumnTotal<R>(xs: seq<R>, f: R -> int) returns (total: int)
    ensures total == SumOf(xs, f)
  {
    total := 0;
    for i := 0 to |xs|
      invariant total == SumOf(xs[..i], f)
    {
      assert xs[..i + 1][..i] == xs[..i];
      total := total + f(xs[i]);
    }
    assert xs[..|xs|] == xs;
  }

  /** What one more entry adds to a group. */
  lemma KeyedSumSnoc(entries: seq<Entry>, e: Entry, d: string)
    ensures KeyedSum(entries + [e], d) == KeyedSum(entries, d) + (if e.0 == Some(d) then e.1 else 0)
  {
    assert (entries + [e])[..|entries|] == entries;
  }

  /** A group that no entry belongs to sums to 0. */
  lemma {:induction false} KeyedSumAbsent(entries: seq<Entry>, d: string)
    requires forall k :: 0 <= k < |entries| ==> entries[k].0 != Some(d)
    ensures KeyedSum(entries, d) == 0
  {
    if entries != [] {
      KeyedSumAbsent(entries[..|entries| - 1], d);
    }
  }

  /** With non-negative values, a group is at least as large as any one of its entries. */
  lemma {:induction false} KeyedSumAtLeast(entries: seq<Entry>, d: string, k: nat)
    requires forall i :: 0 <= i < |entries| ==> entries[i].1 >= 0
    requires k < |entries| && entries[k].0 == Some(d)
    ensures KeyedSum(entries, d) >= entries[k].1
  {
    var init := entries[..|entries| - 1];
    if k < |entries| - 1 {
      KeyedSumAtLeast(init, d, k);
    } else {
      KeyedSumNonNegative(init, d);
    }
  }

  lemma {:induction false} KeyedSumNonNegative(entries: seq<Entry>, d: string)
    requires forall i :: 0 <= i < |entries| ==> entries[i].1 >= 0
    ensures KeyedSum(entries, d) >= 0
  {
    if entries != [] {
      KeyedSumNonNegative(entries[..|entries| - 1], d);
    }
  }

  lemma {:induction false} SumOverNoEntries(ds: seq<string>)
    ensures SumOverDivisions([], ds) == 0
  {
    if ds != [] {
      SumOverNoEntries(ds[..|ds| - 1]);
    }
  }

  /** What one more entry adds to the group sums of a list of distinct divisions. */
  lemma {:induction false} SumOverDivisionsSnoc(entries: seq<Entry>, e: Entry, ds: seq<string>)
    requires Distinct(ds)
    ensures SumOverDivisions(entries + [e], ds)
         == SumOverDivisions(entries, ds) + (if e.0.Some? && e.0.value in ds then e.1 else 0)
  {
    if ds != [] {
      var init, last := ds[..|ds| - 1], ds[|ds| - 1];
      assert Distinct(init);
      SumOverDivisionsSnoc(entries, e, init);
      assert (entries + [e])[..|entries|] == entries;
      assert KeyedSum(entries + [e], last) == KeyedSum(entries, last) + (if e.0 == Some(last) then e.1 else 0);
      assert ds == init + [last];
      if e.0.Some? && e.0.value == last {
        assert last !in init;
      }
    }
  }

  /**
   * Adding up the group sums of the division list counts every entry whose
   * key is a real division exactly once: nothing is lost and nothing counted twice.
   */
  lemma {:induction false} SumOverDivisionsIsKeptSum(entries: seq<Entry>, ds: seq<string>)
    requires Distinct(ds)
    requires forall d :: d in ds ==> !IsBlank(d)
    requires forall k :: 0 <= k < |entries| && Kept(entries[k].0) ==> entries[k].0.value in ds
    ensures SumOverDivisions(entries, ds) == KeptSum(entries)
  {
    if entries == [] {
      SumOverNoEntries(ds);
    } else {
      var init, last := entries[..|entries| - 1], entries[|entries| - 1];
      SumOverDivisionsIsKeptSum(init, ds);
      SumOverDivisionsSnoc(init, last, ds);
      assert init + [last] == entries;
    }
  }

  /** A table column whose i-th cell is the group sum of `ds[i]` totals to the group sums added up. */
  lemma {:induction false} SumOfPerDivision<R>(body: seq<R>, f: R -> int, entries: seq<Entry>, ds: seq<string>)
    requires |body| == |ds|
    requires forall i :: 0 <= i < |ds| ==> f(body[i]) == KeyedSum(entries, ds[i])
    ensures SumOf(body, f) == SumOverDivisions(entries, ds)
  {
    if ds != [] {
      SumOfPerDivision(body[..|body| - 1], f, entries, ds[..|ds| - 1]);
    }
  }

  /**
   * The column total over a division list of the entries' own keys equals
   * the sum over all entries with a real division.
   */
  lemma ColumnTotalIsKeptSum<R>(body: seq<R>, f: R -> int, entries: seq<Entry>, ds: seq<string>)
    requires IsDivisionList(ds, Keys(entries))
    requires |body| == |ds|
    requires forall i :: 0 <= i < |ds| ==> f(body[i]) == KeyedSum(entries, ds[i])
    ensures SumOf(body, f) == KeptSum(entries)
  {
    SortedIsDistinct(ds);
    SumOfPerDivision(body, f, entries, ds);
    forall k | 0 <= k < |entries| && Kept(entries[k].0) ensures entries[k].0.value in ds {
      assert Keys(entries)[k] == entries[k].0;
    }
    SumOverDivisionsIsKeptSum(entries, ds);
  }

  /** Column totals add: a column that is the sum of two columns totals to the sum of their totals. */
  lemma {:induction false} SumOfAdd<R>(xs: seq<R>, f: R -> int, g: R -> int, h: R -> int)
    requires forall i :: 0 <= i < |xs| ==> h(xs[i]) == f(xs[i]) + g(xs[i])
    ensures SumOf(xs, h) == SumOf(xs, f) + SumOf(xs, g)
  {
    if xs != [] {
      SumOfAdd(xs[..|xs| - 1], f, g, h);
    }
  }

  /** Sums add pointwise. */
  lemma {:induction false} SumAdd(a: seq<int>, b: seq<int>, c: seq<int>)
    requires |a| == |b| == |c|
    requires forall k :: 0 <= k < |c| ==> c[k] == a[k] + b[k]
    ensures Sum(c) == Sum(a) + Sum(b)
  {
    if c != [] {
      SumAdd(a[..|a| - 1], b[..|b| - 1], c[..|c| - 1]);
    }
  }

  /** Sums are monotone pointwise. */
  lemma {:induction false} SumLe(a: seq<int>, b: seq<int>)
    requires |a| == |b|
    requires forall k :: 0 <= k < |a| ==> a[k] <= b[k]
    ensures Sum(a) <= Sum(b)
  {
    if a != [] {
      SumLe(a[..|a| - 1], b[..|b| - 1]);
    }
  }

  lemma {:induction false} SumZeros(a: seq<int>)
    requires forall k :: 0 <= k < |a| ==> a[k] == 0
    ensures Sum(a) == 0
  {
    if a != [] {
      SumZeros(a[..|a| - 1]);
    }
  }

  /** Two columns that agree line by line have the same total. */
  lemma {:induction false} SumOfPaired<R, S>(xs: seq<R>, f: R -> int, ys: seq<S>, g: S -> int)
    requires |xs| == |ys|
    requires forall i :: 0 <= i < |xs| ==> f(xs[i]) == g(ys[i])
    ensures SumOf(xs, f) == SumOf(ys, g)
  {
    if xs != [] {
      SumOfPaired(xs[..|xs| - 1], f, ys[..|ys| - 1], g);
    }
  }

  /** A sequence with a single non-zero element sums to that element. */
  lemma {:induction false} SumOfOne(s: seq<int>, k: nat)
    requires k < |s|
    requires forall j :: 0 <= j < |s| && j != k ==> s[j] == 0
    ensures Sum(s) == s[k]
  {
    var init := s[..|s| - 1];
    if k == |s| - 1 {
      SumZeros(init);
    } else {
      SumOfOne(init, k);
    }
  }
}
