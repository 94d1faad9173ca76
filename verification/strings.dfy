/** String helpers shared by the model: joining, substring search,
    JavaScript `slice` index resolution and decimal rendering. */
module Strings {

  /** `xs.join(sep)` in JavaScript and `sep.join(xs)` in Python. */
  function Join(xs: seq<string>, sep: string): string
    decreases |xs|
  {
    if |xs| == 0 then ""
    else if |xs| == 1 then xs[0]
    else xs[0] + sep + Join(xs[1..], sep)
  }

  /** Joining grows at the end: the separator goes only between elements. */
  lemma {:induction false} JoinSnoc(xs: seq<string>, x: string, sep: string)
    requires |xs| > 0
    ensures Join(xs + [x], sep) == Join(xs, sep) + sep + x
    decreases |xs|
  {
    if |xs| == 1 {
      assert xs + [x] == [xs[0], x];
      assert [xs[0], x][1..] == [x];
    } else {
      assert (xs + [x])[0] == xs[0];
      assert (xs + [x])[1..] == xs[1..] + [x];
      JoinSnoc(xs[1..], x, sep);
    }
  }

  /** `p` occurs in `s` at offset `i`. */
  predicate OccursAt(s: string, p: string, i: nat) {
    i + |p| <= |s| && s[i..i + |p|] == p
  }

  /** JavaScript `s.includes(p)` and Python `p in s`. */
  function Contains(s: string, p: string): bool
    decreases |s|
  {
    if |p| <= |s| && s[..|p|] == p then true
    else if |s| == 0 then false
    else Contains(s[1..], p)
  }

  /** An occurrence at any offset is found by `Contains`. */
  lemma {:induction false} ContainsFromOccurrence(s: string, p: string, i: nat)
    requires OccursAt(s, p, i)
    ensures Contains(s, p)
    decreases i
  {
    if i > 0 && !(|p| <= |s| && s[..|p|] == p) {
      assert s[1..][i - 1..i - 1 + |p|] == s[i..i + |p|];
      ContainsFromOccurrence(s[1..], p, i - 1);
    }
  }

  /** When `Contains` holds, some offset holds an occurrence. */
  lemma {:induction false} OccurrenceFromContains(s: string, p: string) returns (i: nat)
    requires Contains(s, p)
    ensures OccursAt(s, p, i)
    decreases |s|
  {
    if |p| <= |s| && s[..|p|] == p {
      i := 0;
    } else {
      var j := OccurrenceFromContains(s[1..], p);
      assert s[1..][j..j + |p|] == s[j + 1..j + 1 + |p|];
      i := j + 1;
    }
  }

  /** `Contains` is exactly "some offset holds an occurrence". */
  lemma ContainsIff(s: string, p: string)
    ensures Contains(s, p) <==> exists i: nat :: OccursAt(s, p, i)
  {
    if Contains(s, p) {
      var i := OccurrenceFromContains(s, p);
    } else {
      forall i: nat | OccursAt(s, p, i)
        ensures false
      {
        ContainsFromOccurrence(s, p, i);
      }
    }
  }

  /** Resolves one argument of JavaScript `slice`: a negative index counts
      back from the end, and the result is clamped into [0, len]. */
  function SliceIndex(k: int, len: nat): (r: nat)
    ensures r <= len
    ensures 0 <= k <= len ==> r == k
    ensures k < 0 && len + k >= 0 ==> r == len + k
    ensures k < 0 && len + k < 0 ==> r == 0
    ensures k > len ==> r == len
  {
    if k < 0 then (if len + k < 0 then 0 else len + k)
    else if k > len then len
    else k
  }

  /** `s.slice(start, end)` for JavaScript strings and arrays. */
  function JsSlice<T>(s: seq<T>, start: int, end: int): seq<T>
  {
    var from := SliceIndex(start, |s|);
    var to := SliceIndex(end, |s|);
    if from < to then s[from..to] else []
  }

  /** Inside the bounds, `slice` is ordinary sub-sequence selection; a
      reversed range is empty. */
  lemma JsSliceInBounds<T>(s: seq<T>, start: int, end: int)
    requires 0 <= start <= |s| && 0 <= end <= |s|
    ensures start <= end ==> JsSlice(s, start, end) == s[start..end]
    ensures start > end ==> JsSlice(s, start, end) == []
  {
  }

  /** `s.slice(-n)` for n >= 0 keeps the last min(n, |s|) elements, except
      that -0 is 0, so n == 0 keeps everything. */
  lemma JsSliceNegativeStart<T>(s: seq<T>, n: int)
    requires n >= 0
    ensures n == 0 ==> JsSlice(s, -n, |s|) == s
    ensures 0 < n <= |s| ==> JsSlice(s, -n, |s|) == s[|s| - n..]
    ensures n > |s| ==> JsSlice(s, -n, |s|) == s
  {
  }

  function DigitChar(d: nat): (c: char)
    requires d < 10
    ensures '0' <= c <= '9'
  {
    ['0', '1', '2', '3', '4', '5', '6', '7', '8', '9'][d]
  }

  predicate IsDecimal(s: string) {
    |s| > 0 && forall i :: 0 <= i < |s| ==> '0' <= s[i] <= '9'
  }

  /** Decimal rendering of a natural number, as JavaScript template
      interpolation `${i}` produces for a non-negative integer index. */
  function NatToString(n: nat): (r: string)
    ensures IsDecimal(r)
    decreases n
  {
    if n < 10 then [DigitChar(n)]
    else NatToString(n / 10) + [DigitChar(n % 10)]
  }

  /** Reads a decimal string back: the inverse used to check the rendering. */
  function ParseDecimal(s: string): nat
    requires forall i :: 0 <= i < |s| ==> '0' <= s[i] <= '9'
    decreases |s|
  {
    if |s| == 0 then 0
    else ParseDecimal(s[..|s| - 1]) * 10 + (s[|s| - 1] as int - '0' as int)
  }

  lemma DigitCharValue(d: nat)
    requires d < 10
    ensures DigitChar(d) as int - '0' as int == d
  {
  }

  /** Rendering an index and reading it back gives the index. */
  lemma {:induction false} DecimalRoundTrip(n: nat)
    ensures ParseDecimal(NatToString(n)) == n
    decreases n
  {
    var r := NatToString(n);
    if n < 10 {
      DigitCharValue(n);
      assert r[..0] == [];
    } else {
      var hi := NatToString(n / 10);
      DigitCharValue(n % 10);
      assert r[..|r| - 1] == hi;
      DecimalRoundTrip(n / 10);
    }
  }
}
