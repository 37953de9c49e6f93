/** The NumPy primitives the geometry relies on, over exact reals:
    `np.floor`, `np.ceil`, `np.arange`, `np.min`, `np.max` and `np.round`. */
module Numeric {

  /** `v` is a whole number. */
  predicate IsIntegral(v: real) {
    v.Floor as real == v
  }

  /** `np.ceil`: the least integer not below `r`. */
  function Ceil(r: real): (c: int)
    ensures r <= c as real < r + 1.0
  {
    -((-r).Floor)
  }

  lemma FloorOfIntegral(n: int)
    ensures (n as real).Floor == n && IsIntegral(n as real)
  {
  }

  lemma CeilOfIntegral(n: int)
    ensures Ceil(n as real) == n
  {
  }

  /** `np.arange(start, stop, step)` for a positive step: the values
      start, start + step, start + 2*step, ... that lie below `stop`. */
  function Arange(start: real, stop: real, step: real): (r: seq<real>)
    requires step > 0.0
    ensures forall k :: 0 <= k < |r| ==> r[k] == start + k as real * step
    ensures forall k :: 0 <= k < |r| ==> r[k] < stop
    ensures start + |r| as real * step >= stop
  {
    var n := if stop <= start then 0 else Ceil((stop - start) / step);
    ArangeBounds(start, stop, step, n);
    seq(n, k requires 0 <= k < n => ArangeAt(start, step, k))
  }

  /** The `k`-th value of an arithmetic progression. */
  function ArangeAt(start: real, step: real, k: int): real {
    start + k as real * step
  }

  lemma ArangeBounds(start: real, stop: real, step: real, n: int)
    requires step > 0.0
    requires n == if stop <= start then 0 else Ceil((stop - start) / step)
    ensures n >= 0
    ensures forall k: int :: 0 <= k < n ==> ArangeAt(start, step, k) < stop
    ensures start + n as real * step >= stop
  {
    if stop > start {
      var d := (stop - start) / step;
      assert d * step == stop - start;
      assert n as real >= d;
      assert n as real * step >= d * step;
      forall k: int | 0 <= k < n
        ensures ArangeAt(start, step, k) < stop
      {
        assert k as real < d;
        assert k as real * step < d * step;
      }
    }
  }

  /** `np.min` of a non-empty array. */
  function Min(s: seq<real>): (m: real)
    requires |s| > 0
    ensures m in s
    ensures forall k :: 0 <= k < |s| ==> m <= s[k]
  {
    if |s| == 1 then s[0]
    else
      var rest := Min(s[1..]);
      if s[0] <= rest then s[0] else rest
  }

  /** `np.max` of a non-empty array. */
  function Max(s: seq<real>): (m: real)
    requires |s| > 0
    ensures m in s
    ensures forall k :: 0 <= k < |s| ==> s[k] <= m
  {
    if |s| == 1 then s[0]
    else
      var rest := Max(s[1..]);
      if s[0] >= rest then s[0] else rest
  }

  /** `np.round` to zero decimals: the nearest integer, ties going to the
      even neighbour. */
  function RoundHalfEven(x: real): (n: int)
    ensures x - 0.5 <= n as real <= x + 0.5
    ensures (n as real == x - 0.5 || n as real == x + 0.5) ==> n % 2 == 0
  {
    var f := x.Floor;
    var d := x - f as real;
    if d < 0.5 then f
    else if d > 0.5 then f + 1
    else if f % 2 == 0 then f
    else f + 1
  }

  /** Rounding never reverses the order of two values. */
  lemma RoundHalfEvenMonotone(x: real, y: real)
    requires x <= y
    ensures RoundHalfEven(x) <= RoundHalfEven(y)
  {
  }
}
