/**
 * Column-wise helpers shared by the labelling and feature pipelines: a pandas
 * column is a `seq`, and a frame sorted by location is a key column beside the
 * value columns.
 *
 * `History(keys, vals, i)` is what `groupby(key)[col]` shows a per-group
 * transform at row `i`: the values of the rows up to and including `i` that
 * share row `i`'s key, in row order.  Rolling windows, shifts and differences
 * are taken at the end of that history.
 */
module Series {
  import opened Wrappers
  import Text
  import Sorting

  // ---------------------------------------------------------------------------
  // Aggregates
  // ---------------------------------------------------------------------------

  function Sum(s: seq<real>): real
  {
    if s == [] then 0.0 else s[0] + Sum(s[1..])
  }

  lemma SumSingleton(x: real)
    ensures Sum([x]) == x
  {
    assert [x][1..] == [];
  }

  lemma {:induction false} SumConcat(a: seq<real>, b: seq<real>)
    ensures Sum(a + b) == Sum(a) + Sum(b)
  {
    if a == [] {
      assert a + b == b;
    } else {
      assert (a + b)[1..] == a[1..] + b;
      SumConcat(a[1..], b);
    }
  }

  /** A sum is at most the count times any upper bound of its terms. */
  lemma {:induction false} SumAtMost(s: seq<real>, bound: real)
    requires forall i :: 0 <= i < |s| ==> s[i] <= bound
    ensures Sum(s) <= |s| as real * bound
  {
    if s != [] {
      SumAtMost(s[1..], bound);
      assert |s| as real * bound == bound + (|s| - 1) as real * bound;
    }
  }

  lemma {:induction false} SumNonNegative(s: seq<real>)
    ensures (forall i :: 0 <= i < |s| ==> s[i] >= 0.0) ==> Sum(s) >= 0.0
  {
    if s != [] { SumNonNegative(s[1..]); }
  }

  lemma DivideBound(a: real, n: real, b: real)
    requires n > 0.0 && a <= n * b
    ensures a / n <= b
  {
    assert a / n <= (n * b) / n;
  }

  /** Python/pandas `max` of a non-empty list. */
  function Max(s: seq<real>): (m: real)
    requires s != []
    ensures forall i :: 0 <= i < |s| ==> s[i] <= m
    ensures m in s
  {
    if |s| == 1 then s[0]
    else
      var m := Max(s[1..]);
      if s[0] >= m then s[0] else m
  }

  /** Arithmetic mean of a non-empty list; it never exceeds the maximum. */
  function Mean(s: seq<real>): (m: real)
    requires s != []
    ensures m * (|s| as real) == Sum(s)
    ensures m <= Max(s)
    ensures (forall i :: 0 <= i < |s| ==> s[i] >= 0.0) ==> m >= 0.0
  {
    SumAtMost(s, Max(s));
    DivideBound(Sum(s), |s| as real, Max(s));
    SumNonNegative(s);
    Sum(s) / (|s| as real)
  }

  /** The last `k` elements, or all of them when there are fewer. */
  function Trailing<T>(s: seq<T>, k: nat): (r: seq<T>)
    ensures |r| == if |s| <= k then |s| else k
    ensures r == s[|s| - |r|..]
  {
    if |s| <= k then s else s[|s| - k..]
  }

  /** With non-negative values, a shorter trailing window never sums to more. */
  lemma TrailingSumMonotone(s: seq<real>, j: nat, k: nat)
    requires j <= k
    requires forall i :: 0 <= i < |s| ==> s[i] >= 0.0
    ensures Sum(Trailing(s, j)) <= Sum(Trailing(s, k))
  {
    var long, short := Trailing(s, k), Trailing(s, j);
    var extra := long[..|long| - |short|];
    assert long == extra + short;
    SumConcat(extra, short);
    SumNonNegative(extra);
  }

  // ---------------------------------------------------------------------------
  // Per-group history
  // ---------------------------------------------------------------------------

  /** The values whose key is `k`, in order. */
  function Select<T>(keys: seq<string>, vals: seq<T>, k: string): (r: seq<T>)
    requires |keys| == |vals|
    ensures |r| <= |vals|
    ensures forall x :: x in r ==> x in vals
  {
    if keys == [] then []
    else
      var n := |keys| - 1;
      Select(keys[..n], vals[..n], k) + (if keys[n] == k then [vals[n]] else [])
  }

  lemma {:induction false} SelectAppend<T>(k1: seq<string>, v1: seq<T>, k2: seq<string>, v2: seq<T>, k: string)
    requires |k1| == |v1| && |k2| == |v2|
    ensures Select(k1 + k2, v1 + v2, k) == Select(k1, v1, k) + Select(k2, v2, k)
    decreases |k2|
  {
    if k2 == [] {
      assert k1 + k2 == k1 && v1 + v2 == v1;
    } else {
      var n := |k2| - 1;
      assert (k1 + k2)[..|k1| + n] == k1 + k2[..n];
      assert (v1 + v2)[..|v1| + n] == v1 + v2[..n];
      SelectAppend(k1, v1, k2[..n], v2[..n], k);
    }
  }

  /** Selecting a key that every row has keeps every value. */
  lemma {:induction false} SelectAll<T>(keys: seq<string>, vals: seq<T>, k: string)
    requires |keys| == |vals|
    requires forall i :: 0 <= i < |keys| ==> keys[i] == k
    ensures Select(keys, vals, k) == vals
  {
    if keys != [] {
      var n := |keys| - 1;
      SelectAll(keys[..n], vals[..n], k);
      assert vals == vals[..n] + [vals[n]];
    }
  }

  /** Selecting a key that no row has keeps nothing. */
  lemma {:induction false} SelectNone<T>(keys: seq<string>, vals: seq<T>, k: string)
    requires |keys| == |vals|
    requires forall i :: 0 <= i < |keys| ==> keys[i] != k
    ensures Select(keys, vals, k) == []
  {
    if keys != [] {
      SelectNone(keys[..|keys| - 1], vals[..|keys| - 1], k);
    }
  }

  /** What a per-group transform sees at row `i`: its group's values up to row `i`. */
  function History<T>(keys: seq<string>, vals: seq<T>, i: nat): (r: seq<T>)
    requires |keys| == |vals| && i < |keys|
    ensures r != [] && r[|r| - 1] == vals[i]
    ensures |r| <= i + 1
    ensures forall x :: x in r ==> x in vals
  {
    assert keys[..i + 1][..i] == keys[..i];
    Select(keys[..i + 1], vals[..i + 1], keys[i])
  }

  /** Rows `a` and `c` having the same key forces row `b` between them to have it too. */
  predicate KeyBetween(keys: seq<string>, a: nat, b: nat, c: nat)
    requires a <= b <= c < |keys|
  {
    keys[a] == keys[c] ==> keys[b] == keys[a]
  }

  /**
   * Rows with equal keys are adjacent, as after sorting by the key.  The
   * quantifier is only instantiated where a proof names a `KeyBetween` triple.
   */
  ghost predicate Grouped(keys: seq<string>)
  {
    forall a: nat, b: nat, c: nat {:trigger KeyBetween(keys, a, b, c)} :: a <= b <= c < |keys| ==> KeyBetween(keys, a, b, c)
  }

  /** The first row of the run of row `i`'s key that ends at `i`. */
  function GroupStart(keys: seq<string>, i: nat): (s: nat)
    requires i < |keys|
    ensures s <= i
    ensures forall j :: s <= j <= i ==> keys[j] == keys[i]
    ensures s == 0 || keys[s - 1] != keys[i]
  {
    if i == 0 || keys[i - 1] != keys[i] then i else GroupStart(keys, i - 1)
  }

  /**
   * Windows never cross a location boundary: in a grouped frame the history of
   * row `i` is exactly the slice from its group's first row to `i`.
   */
  lemma HistoryIsGroupSlice<T>(keys: seq<string>, vals: seq<T>, i: nat)
    requires |keys| == |vals| && i < |keys|
    requires Grouped(keys)
    ensures History(keys, vals, i) == vals[GroupStart(keys, i)..i + 1]
  {
    var s := GroupStart(keys, i);
    var k := keys[i];
    forall j | 0 <= j < s
      ensures keys[j] != k
    {
      assert KeyBetween(keys, j, s - 1, i);
    }
    assert keys[..i + 1] == keys[..s] + keys[s..i + 1];
    assert vals[..i + 1] == vals[..s] + vals[s..i + 1];
    SelectAppend(keys[..s], vals[..s], keys[s..i + 1], vals[s..i + 1], k);
    SelectNone(keys[..s], vals[..s], k);
    SelectAll(keys[s..i + 1], vals[s..i + 1], k);
  }

  /** When the previous row has the same key, its history is this row's without the last value. */
  lemma HistoryStep<T>(keys: seq<string>, vals: seq<T>, i: nat)
    requires |keys| == |vals| && 0 < i < |keys|
    requires keys[i - 1] == keys[i]
    ensures var h := History(keys, vals, i); History(keys, vals, i - 1) == h[..|h| - 1]
  {
    assert keys[..i + 1][..i] == keys[..i];
    assert vals[..i + 1][..i] == vals[..i];
  }

  /**
   * `groupby(key)[col].shift(n)` at row `i`: the value `n` rows earlier in the same
   * group, or null within the group's first `n` rows.
   */
  function Lag<T>(keys: seq<string>, vals: seq<T>, i: nat, n: nat): (r: Option<T>)
    requires |keys| == |vals| && i < |keys|
    ensures r.Some? <==> |History(keys, vals, i)| > n
  {
    var h := History(keys, vals, i);
    if |h| > n then Some(h[|h| - 1 - n]) else None
  }

  /** In a grouped frame the lag is the row `n` above, if that row is still in the group. */
  lemma LagInGroup<T>(keys: seq<string>, vals: seq<T>, i: nat, n: nat)
    requires |keys| == |vals| && i < |keys|
    requires Grouped(keys)
    ensures Lag(keys, vals, i, n) == if i - n >= GroupStart(keys, i) then Some(vals[i - n]) else None
  {
    HistoryIsGroupSlice(keys, vals, i);
  }

  // ---------------------------------------------------------------------------
  // Sorting by location groups the locations
  // ---------------------------------------------------------------------------

  /** One column of a table: `key` of every row, in row order. */
  function Column<T, U>(rows: seq<T>, key: T -> U): (c: seq<U>)
    ensures |c| == |rows|
    ensures forall i :: 0 <= i < |rows| ==> c[i] == key(rows[i])
  {
    seq(|rows|, i requires 0 <= i < |rows| => key(rows[i]))
  }

  lemma {:induction false} SortedKeysChain<T>(rows: seq<T>, le: (T, T) -> bool, key: T -> string, i: nat, j: nat)
    requires Sorting.SortedBy(rows, le)
    requires forall a, b :: le(a, b) ==> Text.StrLe(key(a), key(b))
    requires i <= j < |rows|
    ensures Text.StrLe(key(rows[i]), key(rows[j]))
    decreases j - i
  {
    if i < j {
      SortedKeysChain(rows, le, key, i + 1, j);
      assert le(rows[i], rows[i + 1]);
      Text.StrLeTransitive(key(rows[i]), key(rows[i + 1]), key(rows[j]));
    }
  }

  /**
   * A table sorted by an order that compares the location first has each
   * location's rows adjacent.
   */
  lemma SortedKeysGrouped<T>(rows: seq<T>, le: (T, T) -> bool, key: T -> string)
    requires Sorting.SortedBy(rows, le)
    requires forall a, b :: le(a, b) ==> Text.StrLe(key(a), key(b))
    ensures Grouped(Column(rows, key))
  {
    var keys := Column(rows, key);
    forall a: nat, b: nat, c: nat | a <= b <= c < |keys|
      ensures KeyBetween(keys, a, b, c)
    {
      if keys[a] == keys[c] {
        SortedKeysChain(rows, le, key, a, b);
        SortedKeysChain(rows, le, key, b, c);
        Text.StrLeAntisymmetric(keys[a], keys[b]);
      }
    }
  }
}
