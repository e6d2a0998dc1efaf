/**
  Arithmetic on current samples (picoamps) and the bounded look-behind
  buffer. Samples are exact reals: the segmenter only compares magnitudes
  and takes an arithmetic mean, so nothing depends on rounding.
 */
module Samples {

  function Abs(x: real): real {
    if x < 0.0 then -x else x
  }

  function Min(a: int, b: int): int {
    if a < b then a else b
  }

  function Sum(s: seq<real>): real {
    if s == [] then 0.0 else s[0] + Sum(s[1..])
  }

  /** The smallest sample of a non-empty sequence. */
  function Least(s: seq<real>): (m: real)
    requires s != []
    ensures forall i | 0 <= i < |s| :: m <= s[i]
    ensures m in s
  {
    if |s| == 1 then s[0]
    else
      var m' := Least(s[1..]);
      if s[0] <= m' then s[0] else m'
  }

  /** The largest sample of a non-empty sequence. */
  function Greatest(s: seq<real>): (m: real)
    requires s != []
    ensures forall i | 0 <= i < |s| :: s[i] <= m
    ensures m in s
  {
    if |s| == 1 then s[0]
    else
      var m' := Greatest(s[1..]);
      if m' <= s[0] then s[0] else m'
  }

  /** A sum of samples lying in [lo, hi] lies between |s| * lo and |s| * hi. */
  lemma {:induction false} SumWithin(s: seq<real>, lo: real, hi: real)
    requires forall i | 0 <= i < |s| :: lo <= s[i] <= hi
    ensures (|s| as real) * lo <= Sum(s) <= (|s| as real) * hi
  {
    if s != [] {
      SumWithin(s[1..], lo, hi);
      assert (|s| as real) * lo == (|s[1..]| as real) * lo + lo;
      assert (|s| as real) * hi == (|s[1..]| as real) * hi + hi;
    }
  }

  /** Dividing a total bracketed by n * lo and n * hi by n > 0 gives a value in [lo, hi]. */
  lemma DivideWithin(total: real, n: real, lo: real, hi: real)
    requires 0.0 < n && n * lo <= total <= n * hi
    ensures lo <= total / n <= hi
  {
    var q := total / n;
    assert q * n == total;
    assert (q - lo) * n >= 0.0;
    assert (hi - q) * n >= 0.0;
  }

  /** util.avg: the arithmetic mean of a non-empty buffer. */
  function Mean(s: seq<real>): real
    requires |s| > 0
  {
    Sum(s) / (|s| as real)
  }

  /** A mean of a sum bracketed by |s| * lo and |s| * hi lies in [lo, hi]. */
  lemma MeanOfBracketedSum(s: seq<real>, lo: real, hi: real)
    requires |s| > 0
    requires (|s| as real) * lo <= Sum(s) <= (|s| as real) * hi
    ensures lo <= Mean(s) <= hi
  {
    DivideWithin(Sum(s), |s| as real, lo, hi);
  }

  /** The mean of a buffer lies between its smallest and its largest sample. */
  lemma MeanWithin(s: seq<real>)
    requires |s| > 0
    ensures Least(s) <= Mean(s) <= Greatest(s)
  {
    var lo, hi := Least(s), Greatest(s);
    SumWithin(s, lo, hi);
    MeanOfBracketedSum(s, lo, hi);
  }

  /** Python's int() applied to a float: truncation toward zero. */
  function TruncToInt(x: real): (r: int)
    ensures 0.0 <= x ==> r as real <= x < r as real + 1.0
    ensures x < 0.0 ==> r as real - 1.0 < x <= r as real
    ensures Abs(r as real) <= Abs(x)
  {
    if x >= 0.0 then x.Floor else -((-x).Floor)
  }

  /** The last `cap` samples of `b` (all of them when there are fewer). */
  function Window(b: seq<real>, cap: nat): seq<real> {
    if |b| <= cap then b else b[|b| - cap..]
  }

  /**
    deque(maxlen=cap).append(x): append at the right; when the buffer
    already holds `cap` samples the leftmost (oldest) ones are evicted.
   */
  function Push(b: seq<real>, x: real, cap: nat): (r: seq<real>)
    ensures |r| == Min(|b| + 1, cap)
    ensures r == Window(b + [x], cap)
    ensures 0 < cap ==> r[|r| - 1] == x
    ensures 0 < |b| == cap ==> r == b[1..] + [x]
  {
    if |b| < cap then b + [x]
    else if cap == 0 then []
    else b[|b| - cap + 1..] + [x]
  }

  /** A window of a window: the buffer only ever needs its last `cap` samples. */
  lemma WindowOfWindow(b: seq<real>, more: seq<real>, cap: nat)
    ensures Window(Window(b, cap) + more, cap) == Window(b + more, cap)
  {
    if cap < |b| {
      var w := b[|b| - cap..];
      assert b + more == b[..|b| - cap] + (w + more);
      var whole := b + more;
      var part := w + more;
      assert part == whole[|b| - cap..];
      if |part| > cap {
        assert part[|part| - cap..] == whole[|whole| - cap..];
      }
    }
  }

  /** Pushing the head of `q` and then keeping the last `cap` of the rest is one window over both. */
  lemma PushThenWindow(b: seq<real>, q: seq<real>, cap: nat)
    requires q != []
    ensures Window(Push(b, q[0], cap) + q[1..], cap) == Window(b + q, cap)
  {
    WindowOfWindow(b + [q[0]], q[1..], cap);
    assert b + [q[0]] + q[1..] == b + q;
  }
}
