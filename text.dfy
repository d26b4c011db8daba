/** String helpers shared by the path templates: decimal numbers, first-occurrence edits and chunked concatenation. */
module Text {
  import opened Wrappers
  import opened Quota

  predicate IsDigit(c: char) { '0' <= c <= '9' }

  predicate AllDigits(s: string) { forall i :: 0 <= i < |s| ==> IsDigit(s[i]) }

  function Digit(d: int): (c: char)
    requires 0 <= d < 10
    ensures IsDigit(c) && c as int - '0' as int == d
  {
    "0123456789"[d]
  }

  /** Decimal rendering of a non-negative integer, as `${n}` gives it in JavaScript. */
  function NatToString(n: nat): (s: string)
    ensures |s| > 0 && AllDigits(s)
    ensures |s| > 1 ==> s[0] != '0'
    decreases n
  {
    if n < 10 then [Digit(n)] else NatToString(n / 10) + [Digit(n % 10)]
  }

  /** The value of a string of decimal digits. */
  function DecimalValue(s: string): nat
    requires AllDigits(s)
  {
    if s == [] then 0 else DecimalValue(s[..|s| - 1]) * 10 + (s[|s| - 1] as int - '0' as int)
  }

  /** Reading the rendering back gives the number. */
  lemma {:induction false} NatToStringRoundTrip(n: nat)
    ensures DecimalValue(NatToString(n)) == n
    decreases n
  {
    var s := NatToString(n);
    if n >= 10 {
      NatToStringRoundTrip(n / 10);
      assert s[..|s| - 1] == NatToString(n / 10);
    }
  }

  predicate OccursAt(s: string, pat: string, i: nat)
  {
    i + |pat| <= |s| && s[i..i + |pat|] == pat
  }

  /** Leftmost position at or after `from` where `pat` occurs in `s`. */
  function IndexOfFrom(s: string, pat: string, from: nat): (r: Option<nat>)
    requires from <= |s|
    ensures r.Some? ==> from <= r.value && OccursAt(s, pat, r.value)
    ensures r.Some? ==> forall j :: from <= j < r.value ==> !OccursAt(s, pat, j)
    ensures r.None? ==> forall j :: from <= j <= |s| ==> !OccursAt(s, pat, j)
    decreases |s| - from
  {
    if OccursAt(s, pat, from) then Some(from)
    else if from == |s| then None
    else IndexOfFrom(s, pat, from + 1)
  }

  /**
   * Ruby's `s.sub(pat, '')` for a pattern made only of literal characters:
   * removes the leftmost occurrence of `pat`, if any.
   */
  function RemoveFirst(s: string, pat: string): (r: string)
    ensures IndexOfFrom(s, pat, 0).None? ==> r == s
    ensures IndexOfFrom(s, pat, 0).Some? ==>
      var i := IndexOfFrom(s, pat, 0).value; r == s[..i] + s[i + |pat|..]
  {
    match IndexOfFrom(s, pat, 0)
    case None => s
    case Some(i) => s[..i] + s[i + |pat|..]
  }

  /** A pattern at the front is the one removed: RemoveFirst(pat + rest, pat) == rest. */
  lemma RemoveFirstOfPrefixed(pat: string, rest: string)
    ensures RemoveFirst(pat + rest, pat) == rest
  {
    assert OccursAt(pat + rest, pat, 0);
  }

  /** Without an occurrence the string is unchanged; with one it is exactly |pat| shorter. */
  lemma RemoveFirstLength(s: string, pat: string)
    ensures (forall j :: 0 <= j <= |s| ==> !OccursAt(s, pat, j)) ==> RemoveFirst(s, pat) == s
    ensures (exists j :: 0 <= j <= |s| && OccursAt(s, pat, j)) ==> |RemoveFirst(s, pat)| == |s| - |pat|
  {
  }

  predicate IsLineTerminator(c: char)
  {
    c == '\n' || c == '\r' || c == '\U{2028}' || c == '\U{2029}'
  }

  predicate NoLineTerminator(s: string)
  {
    forall i :: 0 <= i < |s| ==> !IsLineTerminator(s[i])
  }

  /**
   * JavaScript's `s.replace(/T.*$/, '')`: the leftmost 'T' from which `.`
   * (any character but a line terminator) reaches the end of the input
   * starts the match; everything from there on is dropped.
   */
  function DropFromT(s: string): (r: string)
    ensures |r| <= |s| && r == s[..|r|]
  {
    if s == [] then []
    else if s[0] == 'T' && NoLineTerminator(s[1..]) then []
    else [s[0]] + DropFromT(s[1..])
  }

  /** On `date + "T" + time` with no 'T' in date and no line break in time, only date is left. */
  lemma {:induction false} DropFromTKeepsDate(date: string, time: string)
    requires forall i :: 0 <= i < |date| ==> date[i] != 'T'
    requires NoLineTerminator(time)
    ensures DropFromT(date + "T" + time) == date
    decreases |date|
  {
    if date == [] {
      assert (date + "T" + time)[1..] == time;
    } else {
      assert (date + "T" + time)[1..] == date[1..] + "T" + time;
      DropFromTKeepsDate(date[1..], time);
    }
  }

  /** f applied to each element of xs, the results concatenated in order. */
  function Chunked(f: string -> seq<string>, xs: seq<string>): seq<string>
  {
    if xs == [] then [] else Chunked(f, xs[..|xs| - 1]) + f(xs[|xs| - 1])
  }

  lemma ChunkedSnoc(f: string -> seq<string>, xs: seq<string>, x: string)
    ensures Chunked(f, xs + [x]) == Chunked(f, xs) + f(x)
  {
    assert (xs + [x])[..|xs|] == xs;
  }

  lemma {:induction false} ChunkedLength(f: string -> seq<string>, width: nat, xs: seq<string>)
    requires forall x :: |f(x)| == width
    ensures |Chunked(f, xs)| == width * |xs|
  {
    if xs != [] {
      ChunkedLength(f, width, xs[..|xs| - 1]);
      MulSucc(width, |xs| - 1);
    }
  }

  lemma MulSucc(width: nat, n: nat)
    ensures width * (n + 1) == width * n + width
  {
  }

  /** Chunk i of width `width` ends no later than chunk n does. */
  lemma ChunkOffsets(width: nat, i: nat, n: nat)
    requires i <= n
    ensures width * (n + 1) == width * n + width
    ensures width * i + width <= width * n + width
    ensures i < n ==> width * i + width <= width * n
  {
    MulSucc(width, n);
    MulSucc(width, i);
    MulMonotone(i, n, width);
    if i < n {
      MulMonotone(i + 1, n, width);
    }
  }

  /** When every chunk has the same width, chunk i sits at width * i. */
  lemma {:induction false} ChunkedAt(f: string -> seq<string>, width: nat, xs: seq<string>, i: nat)
    requires forall x :: |f(x)| == width
    requires i < |xs|
    ensures width * i + width <= width * |xs| == |Chunked(f, xs)|
    ensures Chunked(f, xs)[width * i..width * i + width] == f(xs[i])
  {
    var n := |xs| - 1;
    var front, last := Chunked(f, xs[..n]), f(xs[n]);
    ChunkedLength(f, width, xs[..n]);
    ChunkedLength(f, width, xs);
    ChunkOffsets(width, i, n);
    assert Chunked(f, xs) == front + last;
    if i < n {
      ChunkedAt(f, width, xs[..n], i);
      assert xs[..n][i] == xs[i];
      SliceOfFront(front, last, width * i, width * i + width);
    } else {
      SliceOfBack(front, last);
    }
  }

  lemma SliceOfFront(front: seq<string>, back: seq<string>, lo: nat, hi: nat)
    requires lo <= hi <= |front|
    ensures (front + back)[lo..hi] == front[lo..hi]
  {
  }

  lemma SliceOfBack(front: seq<string>, back: seq<string>)
    ensures (front + back)[|front|..|front| + |back|] == back
  {
  }
}
