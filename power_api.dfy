/**
 * The POWER helpers of frontend/src/services/powerAPI.js: the request date
 * format, and the flattening of one parameter's date-keyed values into
 * {date, value} pairs in JavaScript property order (section 10.1.11.1,
 * OrdinaryOwnPropertyKeys, of ECMA-262): keys that are array indices first,
 * in ascending numeric order, then the other keys in insertion order.
 */
module PowerApi {
  import Text
  import Sorting
  import AppUtils

  /** `formatDateForPower`: every '-' removed, the other characters in order. */
  function FormatDateForPower(s: string): (r: string)
    ensures '-' !in r
    ensures |r| == |s| - Text.Count(s, '-')
    ensures forall c :: c != '-' ==> (c in r <==> c in s)
  {
    Text.StripDashes(s)
  }

  /** It is the backend's conversion to YYYYMMDD, and doing it twice is doing it once. */
  lemma FormatDateForPowerMatchesBackend(s: string)
    ensures FormatDateForPower(s) == AppUtils.ConvertDateFormat(s, "YYYYMMDD")
    ensures FormatDateForPower(FormatDateForPower(s)) == FormatDateForPower(s)
  {
    Text.StripDashesIdempotent(s);
  }

  /** Removal works piece by piece, so the order of the other characters is kept. */
  lemma FormatDateForPowerConcat(a: string, b: string)
    ensures FormatDateForPower(a + b) == FormatDateForPower(a) + FormatDateForPower(b)
  {
    Text.StripDashesConcat(a, b);
  }

  // ---------------------------------------------------------------------------
  // parsePowerParameter
  // ---------------------------------------------------------------------------

  /** 2^32 - 1: array indices are the canonical numerals below it. */
  const ArrayIndexLimit: nat := 0xFFFF_FFFF

  /** A key written as an array index: a canonical decimal numeral below 2^32 - 1. */
  predicate IsArrayIndex(key: string)
  {
    key != [] && Text.AllDigits(key) && (key[0] != '0' || |key| == 1) && Text.DigitsValue(key) < ArrayIndexLimit
  }

  /** The numeric value of an index key; other keys do not take part in the numeric order. */
  function IndexOf(key: string): nat
  {
    if IsArrayIndex(key) then Text.DigitsValue(key) else 0
  }

  /** One `{date, value}` pair. */
  datatype Entry = Entry(date: string, value: real)

  /** The numeric order of index keys. */
  predicate ByIndex(a: Entry, b: Entry)
  {
    IndexOf(a.date) <= IndexOf(b.date)
  }

  lemma ByIndexTotal()
    ensures Sorting.Total(ByIndex)
  {
  }

  /** The elements of `s` satisfying `p`, in order. */
  function Filter<T>(s: seq<T>, p: T -> bool): (r: seq<T>)
    ensures |r| <= |s|
    ensures forall i :: 0 <= i < |r| ==> p(r[i])
  {
    if s == [] then []
    else
      var n := |s| - 1;
      Filter(s[..n], p) + (if p(s[n]) then [s[n]] else [])
  }

  /** The elements of `s` not satisfying `p`, in order. */
  function Reject<T>(s: seq<T>, p: T -> bool): (r: seq<T>)
    ensures |r| <= |s|
    ensures forall i :: 0 <= i < |r| ==> !p(r[i])
  {
    if s == [] then []
    else
      var n := |s| - 1;
      Reject(s[..n], p) + (if p(s[n]) then [] else [s[n]])
  }

  /** Splitting by a predicate loses and adds nothing. */
  lemma {:induction false} Partition<T>(s: seq<T>, p: T -> bool)
    ensures multiset(Filter(s, p)) + multiset(Reject(s, p)) == multiset(s)
  {
    if s != [] {
      var n := |s| - 1;
      Partition(s[..n], p);
      assert s == s[..n] + [s[n]];
      assert multiset(s) == multiset(s[..n]) + multiset{s[n]};
    }
  }

  /** Filtering by a predicate every element satisfies keeps everything, and rejects nothing. */
  lemma {:induction false} FilterAll<T>(s: seq<T>, p: T -> bool)
    requires forall i :: 0 <= i < |s| ==> p(s[i])
    ensures Filter(s, p) == s && Reject(s, p) == []
  {
    if s != [] {
      var n := |s| - 1;
      FilterAll(s[..n], p);
      assert s == s[..n] + [s[n]];
    }
  }

  /** Filtering by a predicate no element satisfies keeps nothing, and rejects everything. */
  lemma {:induction false} FilterNone<T>(s: seq<T>, p: T -> bool)
    requires forall i :: 0 <= i < |s| ==> !p(s[i])
    ensures Filter(s, p) == [] && Reject(s, p) == s
  {
    if s != [] {
      var n := |s| - 1;
      FilterNone(s[..n], p);
      assert s == s[..n] + [s[n]];
    }
  }

  /** The object's own entries, keys as written, in insertion order. */
  function Pairs(obj: seq<(string, real)>): (entries: seq<Entry>)
    ensures |entries| == |obj|
    ensures forall i :: 0 <= i < |obj| ==> entries[i] == Entry(obj[i].0, obj[i].1)
  {
    seq(|obj|, i requires 0 <= i < |obj| => Entry(obj[i].0, obj[i].1))
  }

  predicate IndexKeyed(e: Entry) { IsArrayIndex(e.date) }

  /**
   * `parsePowerParameter`: one pair per own property, the key as its date
   * and the (numeric) value as is, in `Object.entries` order.
   */
  function ParsePowerParameter(obj: seq<(string, real)>): seq<Entry>
  {
    ByIndexTotal();
    Sorting.SortBy(Filter(Pairs(obj), IndexKeyed), ByIndex) + Reject(Pairs(obj), IndexKeyed)
  }

  /** One pair per property: the result is a rearrangement of the object's entries. */
  lemma ParsePowerParameterPairs(obj: seq<(string, real)>)
    ensures multiset(ParsePowerParameter(obj)) == multiset(Pairs(obj))
    ensures |ParsePowerParameter(obj)| == |obj|
  {
    ByIndexTotal();
    Partition(Pairs(obj), IndexKeyed);
    assert multiset(ParsePowerParameter(obj)) == multiset(Pairs(obj));
    assert |multiset(ParsePowerParameter(obj))| == |multiset(Pairs(obj))|;
  }

  /**
   * Index-keyed pairs come first, in ascending numeric order, and the other
   * pairs follow in insertion order.
   */
  lemma ParsePowerParameterOrder(obj: seq<(string, real)>)
    ensures var r := ParsePowerParameter(obj);
      var k := |Filter(Pairs(obj), IndexKeyed)|;
      && k <= |r|
      && (forall i :: 0 <= i < k ==> IsArrayIndex(r[i].date))
      && (forall i :: 0 <= i < k - 1 ==> IndexOf(r[i].date) <= IndexOf(r[i + 1].date))
      && r[k..] == Reject(Pairs(obj), IndexKeyed)
  {
    ByIndexTotal();
    var selected := Filter(Pairs(obj), IndexKeyed);
    var sorted := Sorting.SortBy(selected, ByIndex);
    forall i | 0 <= i < |sorted|
      ensures IsArrayIndex(sorted[i].date)
    {
      assert sorted[i] in multiset(selected);
      var j :| 0 <= j < |selected| && selected[j] == sorted[i];
    }
  }

  /** When every key is a date such as "20240101", the pairs come out in ascending date order, whatever the insertion order. */
  lemma AllIndexKeysAscend(obj: seq<(string, real)>)
    requires forall i :: 0 <= i < |obj| ==> IsArrayIndex(obj[i].0)
    ensures var r := ParsePowerParameter(obj);
      forall i :: 0 <= i < |r| - 1 ==> IndexOf(r[i].date) <= IndexOf(r[i + 1].date)
  {
    FilterAll(Pairs(obj), IndexKeyed);
    ParsePowerParameterOrder(obj);
  }

  /** Without index-like keys, the pairs keep insertion order. */
  lemma NoIndexKeysKeepOrder(obj: seq<(string, real)>)
    requires forall i :: 0 <= i < |obj| ==> !IsArrayIndex(obj[i].0)
    ensures ParsePowerParameter(obj) == Pairs(obj)
  {
    FilterNone(Pairs(obj), IndexKeyed);
    ByIndexTotal();
    assert Sorting.SortBy<Entry>([], ByIndex) == [];
  }
}
