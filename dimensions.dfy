/** Loop counts of the sweep: how many passes each of the nine nested loops
    makes, computed once before the sweep starts. */
module Dimensions {
  import opened Wrappers

  /** Python's int() on a float: truncation toward zero. */
  function Trunc(r: real): (n: int)
    ensures 0.0 <= r ==> n as real <= r < n as real + 1.0
    ensures r < 0.0 ==> n as real - 1.0 < r <= n as real
  {
    if r >= 0.0 then r.Floor else -((-r).Floor)
  }

  /** The count of a ranged axis, int((max - min) / step) + 1. A zero step
      is Python's ZeroDivisionError, here None. */
  function RangeCount(lo: real, hi: real, step: real): (r: Option<int>)
    ensures r.None? <==> step == 0.0
  {
    if step == 0.0 then None else Some(Trunc((hi - lo) / step) + 1)
  }

  /** The number of passes of `for x in range(n)`: none for n <= 0. */
  function Iterations(n: int): (r: nat)
    ensures n <= 0 ==> r == 0
    ensures n > 0 ==> r == n
  {
    if n > 0 then n else 0
  }

  /** The count of an on/off axis: both values, or only the configured one. */
  function ToggleCount(both: bool): (r: nat)
    ensures both <==> r == 2
    ensures !both <==> r == 1
  {
    if both then 2 else 1
  }

  /** The count of the internal-gains axis: modes 1, 2 and 3, or only the
      configured one. */
  function GainsCount(all: bool): (r: nat)
    ensures all <==> r == 3
    ensures !all <==> r == 1
  {
    if all then 3 else 1
  }

  /** A fixed axis (max equal to min) runs exactly once, whatever the step. */
  lemma FixedAxis(lo: real, step: real)
    requires step != 0.0
    ensures RangeCount(lo, lo, step) == Some(1)
  {
  }

  /** A forward range visits exactly the values min + k * step that do not
      pass max: pass k happens if and only if min + k * step <= max. */
  lemma ForwardRange(lo: real, hi: real, step: real, k: nat)
    requires step > 0.0 && lo <= hi
    ensures RangeCount(lo, hi, step).Some?
    ensures var n := RangeCount(lo, hi, step).value;
            n >= 1 && (k < Iterations(n) <==> lo + k as real * step <= hi)
  {
    var q := (hi - lo) / step;
    assert q * step == hi - lo;
    QuotientAtLeast(hi - lo, step, q, 0.0);
    assert Trunc(q) == q.Floor;
    assert k < q.Floor + 1 <==> k as real <= q;
    QuotientAtLeast(hi - lo, step, q, k as real);
  }

  /** For a positive step, the quotient d / step is at least x exactly when
      d is at least x * step. */
  lemma QuotientAtLeast(d: real, step: real, q: real, x: real)
    requires step > 0.0 && q * step == d
    ensures x <= q <==> x * step <= d
  {
    if x <= q {
      MulMonoReal(x, q, step);
    } else {
      MulStrictReal(q, x, step);
    }
  }

  /** An inverted range (min above max) never reports an error: it runs once
      when min lies less than one step above max, and not at all otherwise. */
  lemma InvertedRange(lo: real, hi: real, step: real)
    requires step > 0.0 && hi < lo
    ensures RangeCount(lo, hi, step).Some?
    ensures Iterations(RangeCount(lo, hi, step).value) == if lo - hi < step then 1 else 0
  {
    var q := (hi - lo) / step;
    assert q * step == hi - lo;
    QuotientBelowMinusOne(hi - lo, step, q);
  }

  /** For a positive step, the quotient d / step is at most -1 exactly when
      d is at most -step. */
  lemma QuotientBelowMinusOne(d: real, step: real, q: real)
    requires step > 0.0 && q * step == d
    ensures q <= -1.0 <==> d <= -step
  {
    if q <= -1.0 {
      MulMonoReal(q, -1.0, step);
    } else {
      MulStrictReal(-1.0, q, step);
    }
  }

  lemma MulMonoReal(a: real, b: real, s: real)
    requires a <= b && s > 0.0
    ensures a * s <= b * s
  {
  }

  lemma MulStrictReal(a: real, b: real, s: real)
    requires a < b && s > 0.0
    ensures a * s < b * s
  {
  }
}
