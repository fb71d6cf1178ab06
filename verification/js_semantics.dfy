/** The few pieces of JavaScript built-in behaviour the banking pages rely on:
    string truthiness, `Array.prototype.find`, `Array.prototype.filter`,
    `slice` with negative indices, and how a non-negative integer is rendered
    inside a template literal. A string is a `seq<char>` of Unicode scalar
    values; lengths and indices count those, not UTF-16 code units. */
module JsSemantics {
  import opened Wrappers

  /** An optional string (`undefined` or a string) is truthy exactly when it is
      present and non-empty. */
  predicate TruthyOpt(o: Option<string>) {
    o.Some? && |o.value| > 0
  }

  function Min(a: int, b: int): int {
    if a <= b then a else b
  }

  /** `Array.prototype.find`, answering with the index of the first element
      that satisfies `p`, or None when there is none. */
  function FindIndex<T>(xs: seq<T>, p: T -> bool): (r: Option<nat>)
    ensures r.None? <==> forall i :: 0 <= i < |xs| ==> !p(xs[i])
    ensures r.Some? ==> r.value < |xs| && p(xs[r.value])
    ensures r.Some? ==> forall j :: 0 <= j < r.value ==> !p(xs[j])
    decreases |xs|
  {
    if |xs| == 0 then None
    else if p(xs[0]) then Some(0)
    else
      match FindIndex(xs[1..], p)
      case None => None
      case Some(k) => Some(k + 1)
  }

  /** Number of elements of `xs` that satisfy `p`; never more than there are
      elements, so a count subtracted from a length leaves a length. */
  function Count<T>(xs: seq<T>, p: T -> bool): (n: nat)
    ensures n <= |xs|
    decreases |xs|
  {
    if |xs| == 0 then 0
    else (if p(xs[0]) then 1 else 0) + Count(xs[1..], p)
  }

  /** `Array.prototype.filter`: the elements that satisfy `keep`, in order. */
  function Filter<T>(xs: seq<T>, keep: T -> bool): (r: seq<T>)
    ensures |r| == Count(xs, keep)
    ensures forall i :: 0 <= i < |r| ==> r[i] in xs && keep(r[i])
    ensures forall i :: 0 <= i < |xs| && keep(xs[i]) ==> xs[i] in r
    decreases |xs|
  {
    if |xs| == 0 then []
    else (if keep(xs[0]) then [xs[0]] else []) + Filter(xs[1..], keep)
  }

  /** Filtering distributes over concatenation, so the survivors keep their
      original relative order. */
  lemma {:induction false} FilterConcat<T>(a: seq<T>, b: seq<T>, keep: T -> bool)
    ensures Filter(a + b, keep) == Filter(a, keep) + Filter(b, keep)
    decreases |a|
  {
    if |a| == 0 {
      assert a + b == b;
    } else {
      assert (a + b)[1..] == a[1..] + b;
      FilterConcat(a[1..], b, keep);
    }
  }

  /** When every element is kept, filtering returns the list unchanged. */
  lemma {:induction false} FilterKeepsAll<T>(xs: seq<T>, keep: T -> bool)
    requires forall i :: 0 <= i < |xs| ==> keep(xs[i])
    ensures Filter(xs, keep) == xs
    decreases |xs|
  {
    if |xs| > 0 {
      FilterKeepsAll(xs[1..], keep);
    }
  }

  /** Filtering twice by the same predicate is the same as filtering once. */
  lemma {:induction false} FilterIdempotent<T>(xs: seq<T>, keep: T -> bool)
    ensures Filter(Filter(xs, keep), keep) == Filter(xs, keep)
  {
    var r := Filter(xs, keep);
    forall i | 0 <= i < |r|
      ensures keep(r[i])
    {
      assert r[i] in r;
    }
    FilterKeepsAll(r, keep);
  }

  /** Elements satisfying `p` and elements satisfying its negation together
      make up the whole list. */
  lemma {:induction false} CountComplement<T>(xs: seq<T>, p: T -> bool, q: T -> bool)
    requires forall x :: q(x) == !p(x)
    ensures Count(xs, p) + Count(xs, q) == |xs|
    decreases |xs|
  {
    if |xs| > 0 {
      CountComplement(xs[1..], p, q);
    }
  }

  /** Every element satisfies `p` exactly when all of them are counted, and
      none does exactly when the count is zero. */
  lemma {:induction false} CountAllIff<T>(xs: seq<T>, p: T -> bool)
    ensures Count(xs, p) == |xs| <==> forall i :: 0 <= i < |xs| ==> p(xs[i])
    ensures Count(xs, p) == 0 <==> forall i :: 0 <= i < |xs| ==> !p(xs[i])
    decreases |xs|
  {
    if |xs| > 0 {
      CountAllIff(xs[1..], p);
      assert forall i :: 1 <= i < |xs| ==> xs[i] == xs[1..][i - 1];
    }
  }

  /** The index `slice` starts from (or stops at) for a relative index `rel`
      on a list of length `len`: a negative index counts from the end, and the
      result is clamped to `0..len`. */
  function RelativeIndex(rel: int, len: nat): (k: nat)
    ensures k <= len
  {
    if rel < 0 then (if len + rel < 0 then 0 else len + rel)
    else if rel < len then rel
    else len
  }

  /** `slice(start, end)` on an array or a string; `end` None is an omitted
      argument. */
  function Slice<T>(s: seq<T>, start: int, end: Option<int>): (r: seq<T>)
    ensures start < 0 && end.None? ==> r == s[|s| - Min(-start, |s|)..]
    ensures start == 0 && end.Some? && end.value >= 0 ==> r == s[..Min(end.value, |s|)]
  {
    var from := RelativeIndex(start, |s|);
    var to := if end.Some? then RelativeIndex(end.value, |s|) else |s|;
    if from < to then s[from..to] else []
  }

  function DigitChar(d: nat): char
    requires d < 10
  {
    ('0' as int + d) as char
  }

  predicate IsDigit(c: char) {
    '0' <= c <= '9'
  }

  /** The decimal text of `n`, as `${n}` renders a non-negative integer:
      at least one digit and no leading zero. */
  function DecimalString(n: nat): (s: string)
    ensures |s| >= 1
    ensures forall i :: 0 <= i < |s| ==> IsDigit(s[i])
    ensures |s| > 1 ==> s[0] != '0'
    decreases n
  {
    if n < 10 then [DigitChar(n)]
    else DecimalString(n / 10) + [DigitChar(n % 10)]
  }

  /** The number a string of decimal digits denotes. */
  function DecimalValue(s: string): nat
    requires forall i :: 0 <= i < |s| ==> IsDigit(s[i])
    decreases |s|
  {
    if |s| == 0 then 0
    else
      assert IsDigit(s[|s| - 1]);
      DecimalValue(s[..|s| - 1]) * 10 + (s[|s| - 1] as int - '0' as int)
  }

  /** Reading back the rendered decimal text gives the number again. */
  lemma {:induction false} DecimalRoundTrip(n: nat)
    ensures DecimalValue(DecimalString(n)) == n
    decreases n
  {
    var s := DecimalString(n);
    if n >= 10 {
      assert s[..|s| - 1] == DecimalString(n / 10);
      DecimalRoundTrip(n / 10);
    }
  }

  /** Different numbers render to different text. */
  lemma DecimalStringInjective(m: nat, n: nat)
    requires DecimalString(m) == DecimalString(n)
    ensures m == n
  {
    DecimalRoundTrip(m);
    DecimalRoundTrip(n);
  }
}
