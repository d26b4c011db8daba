/**
 * The random helpers of the Sierra generator. Every call to Math.random()
 * is an input here: a real number r with 0 <= r < 1. Nothing is assumed
 * about how those numbers are distributed.
 */
module JsRandom {
  import opened IsoDate

  /** Date.parse('2021-01-01T00:00:00-04:00'), in milliseconds since the epoch. */
  const DateRangeStart: int := 1609473600000
  /** Date.parse('2021-12-31T23:59:59-04:00'). */
  const DateRangeEnd: int := 1641009599000

  predicate IsRandom(r: real) { 0.0 <= r < 1.0 }

  /** Math.round: the nearest integer, halves rounded up. */
  function MathRound(x: real): (n: int)
    ensures x - 0.5 < n as real <= x + 0.5
  {
    (x + 0.5).Floor
  }

  /** Rounding r * d for r in [0, 1) stays between 0 and d. */
  lemma RoundScaled(r: real, d: int)
    requires IsRandom(r)
    ensures d >= 0 ==> 0 <= MathRound(r * d as real) <= d
    ensures d < 0 ==> d <= MathRound(r * d as real) <= 0
  {
    var x := d as real;
    if d >= 0 {
      ScaleNonNegative(r, x);
      RoundBetween(r * x, 0, d);
    } else {
      ScaleNonPositive(r, x);
      RoundBetween(r * x, d, 0);
    }
  }

  lemma ScaleNonNegative(r: real, x: real)
    requires IsRandom(r) && x >= 0.0
    ensures 0.0 <= r * x <= x
  {
    assert (1.0 - r) * x >= 0.0;
  }

  lemma ScaleNonPositive(r: real, x: real)
    requires IsRandom(r) && x <= 0.0
    ensures x <= r * x <= 0.0
  {
    assert (1.0 - r) * x <= 0.0;
  }

  lemma RoundBetween(y: real, lo: int, hi: int)
    requires lo as real <= y <= hi as real
    ensures lo <= MathRound(y) <= hi
  {
    var n := MathRound(y);
    assert n as real < (hi + 1) as real;
    assert n as real > (lo - 1) as real;
  }

  /** randomOffset(min, max): a whole number between min and max, both included. */
  function RandomOffset(min: int, max: int, r: real): (offset: int)
    requires IsRandom(r)
    ensures min <= max ==> min <= offset <= max
    ensures max < min ==> max <= offset <= min
  {
    RoundScaled(r, max - min);
    MathRound(r * (max - min) as real) + min
  }

  /** One of the two timestamps drawn by randomDateRange: Math.round(r * (hi - lo) + lo). */
  function DrawInstant(r: real): (ms: int)
    requires IsRandom(r)
    ensures DateRangeStart <= ms <= DateRangeEnd
  {
    var diff := DateRangeEnd - DateRangeStart;
    RoundScaled(r, diff);
    assert MathRound(r * diff as real + DateRangeStart as real) == MathRound(r * diff as real) + DateRangeStart;
    MathRound(r * diff as real + DateRangeStart as real)
  }

  /** A time window in milliseconds. */
  datatype Window = Window(start: int, end: int)

  /**
   * The two instants of randomDateRange, sorted with the comparator
   * `(d1, d2) => d1 < d2 ? -1 : 1`: an ordered window inside the bounds
   * holding exactly the two draws.
   */
  function RandomWindow(r1: real, r2: real): (w: Window)
    requires IsRandom(r1) && IsRandom(r2)
    ensures DateRangeStart <= w.start <= w.end <= DateRangeEnd
    ensures (w.start, w.end) == (DrawInstant(r1), DrawInstant(r2)) || (w.start, w.end) == (DrawInstant(r2), DrawInstant(r1))
  {
    var a, b := DrawInstant(r1), DrawInstant(r2);
    if a < b then Window(a, b) else Window(b, a)
  }

  /** randomDateRange(): the two ends of the ordered, in-bounds window as ISO-8601 strings. */
  function RandomDateRange(r1: real, r2: real): (range: seq<string>)
    requires IsRandom(r1) && IsRandom(r2)
    ensures |range| == 2 && |range[0]| == 24 && |range[1]| == 24
    ensures range == [ToIsoString(RandomWindow(r1, r2).start), ToIsoString(RandomWindow(r1, r2).end)]
  {
    var w := RandomWindow(r1, r2);
    [ToIsoString(w.start), ToIsoString(w.end)]
  }

  /** An element paired with its random sort key, as `{ value, sort: Math.random() }`. */
  datatype Keyed<T> = Keyed(value: T, sort: real)

  function Tagged<T>(arr: seq<T>, key: nat -> real): (ks: seq<Keyed<T>>)
    ensures |ks| == |arr|
  {
    seq(|arr|, i requires 0 <= i < |arr| => Keyed(arr[i], key(i)))
  }

  function Values<T>(ks: seq<Keyed<T>>): (vs: seq<T>)
    ensures |vs| == |ks|
  {
    seq(|ks|, i requires 0 <= i < |ks| => ks[i].value)
  }

  /** Inserts x after every element whose key is not above x's: a stable insertion. */
  function InsertByKey<T>(x: Keyed<T>, sorted: seq<Keyed<T>>): (r: seq<Keyed<T>>)
    ensures |r| == |sorted| + 1
  {
    if sorted == [] || x.sort < sorted[0].sort then [x] + sorted
    else [sorted[0]] + InsertByKey(x, sorted[1..])
  }

  /** Array.prototype.sort with the comparator `(a, b) => a.sort - b.sort` (a stable sort). */
  function SortByKey<T>(ks: seq<Keyed<T>>): (r: seq<Keyed<T>>)
    ensures |r| == |ks|
  {
    if ks == [] then [] else InsertByKey(ks[|ks| - 1], SortByKey(ks[..|ks| - 1]))
  }

  predicate SortedByKey<T>(ks: seq<Keyed<T>>)
  {
    forall i, j :: 0 <= i < j < |ks| ==> ks[i].sort <= ks[j].sort
  }

  lemma {:induction false} InsertByKeyValues<T>(x: Keyed<T>, sorted: seq<Keyed<T>>)
    ensures multiset(Values(InsertByKey(x, sorted))) == multiset(Values(sorted)) + multiset{x.value}
  {
    if sorted == [] || x.sort < sorted[0].sort {
      assert Values(InsertByKey(x, sorted)) == [x.value] + Values(sorted);
    } else {
      InsertByKeyValues(x, sorted[1..]);
      assert Values(InsertByKey(x, sorted)) == [sorted[0].value] + Values(InsertByKey(x, sorted[1..]));
      assert Values(sorted) == [sorted[0].value] + Values(sorted[1..]);
    }
  }

  lemma {:induction false} InsertByKeySorted<T>(x: Keyed<T>, sorted: seq<Keyed<T>>)
    requires SortedByKey(sorted)
    ensures SortedByKey(InsertByKey(x, sorted))
    ensures InsertByKey(x, sorted) != [] && (InsertByKey(x, sorted)[0] == x || InsertByKey(x, sorted)[0] == sorted[0])
  {
    if sorted != [] && !(x.sort < sorted[0].sort) {
      InsertByKeySorted(x, sorted[1..]);
    }
  }

  /** The sort keeps exactly the values it was given. */
  lemma {:induction false} SortByKeyValues<T>(ks: seq<Keyed<T>>)
    ensures multiset(Values(SortByKey(ks))) == multiset(Values(ks))
  {
    if ks != [] {
      var n := |ks| - 1;
      SortByKeyValues(ks[..n]);
      InsertByKeyValues(ks[n], SortByKey(ks[..n]));
      assert Values(ks) == Values(ks[..n]) + [ks[n].value];
    }
  }

  /** The sort leaves the keys in non-decreasing order. */
  lemma {:induction false} SortByKeySorted<T>(ks: seq<Keyed<T>>)
    ensures SortedByKey(SortByKey(ks))
  {
    if ks != [] {
      SortByKeySorted(ks[..|ks| - 1]);
      InsertByKeySorted(ks[|ks| - 1], SortByKey(ks[..|ks| - 1]));
    }
  }

  /** randomSort(arr): arr ordered by one fresh random key per element. */
  function RandomSort<T>(arr: seq<T>, key: nat -> real): (r: seq<T>)
    ensures |r| == |arr| && multiset(r) == multiset(arr)
  {
    var ks := Tagged(arr, key);
    SortByKeyValues(ks);
    assert Values(ks) == arr;
    Values(SortByKey(ks))
  }

  /** The elements of randomSort's result, paired with their keys, come out in key order. */
  lemma RandomSortOrdersKeys<T>(arr: seq<T>, key: nat -> real)
    ensures RandomSort(arr, key) == Values(SortByKey(Tagged(arr, key)))
    ensures SortedByKey(SortByKey(Tagged(arr, key)))
  {
    SortByKeySorted(Tagged(arr, key));
  }

  /** Array.prototype.slice(0, end), negative ends counting from the back. */
  function SlicePrefix<T>(s: seq<T>, end: int): (r: seq<T>)
    ensures |r| <= |s| && r == s[..|r|]
    ensures end >= 0 ==> |r| == if end < |s| then end else |s|
    ensures end < 0 ==> |r| == if |s| + end > 0 then |s| + end else 0
  {
    if end >= 0 then (if end < |s| then s[..end] else s)
    else if |s| + end > 0 then s[..|s| + end] else []
  }

  lemma PrefixSubMultiset<T>(s: seq<T>, k: nat)
    requires k <= |s|
    ensures multiset(s[..k]) <= multiset(s)
  {
    assert s == s[..k] + s[k..];
  }

  /** randomSelection(arr, count): the first count elements of a random ordering of arr. */
  function RandomSelection<T>(arr: seq<T>, count: int, key: nat -> real): (r: seq<T>)
    ensures count >= 0 ==> |r| == if count < |arr| then count else |arr|
    ensures multiset(r) <= multiset(arr)
  {
    var sorted := RandomSort(arr, key);
    var r := SlicePrefix(sorted, count);
    PrefixSubMultiset(sorted, |r|);
    r
  }
}
