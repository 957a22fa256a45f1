/** The Python and NumPy numeric primitives the frame relies on, over exact reals. */
module Numerics {

  /** Python's `int()` on a float: truncation toward zero. */
  function Trunc(x: real): (n: int)
    ensures 0.0 <= x ==> n as real <= x < n as real + 1.0
    ensures x < 0.0 ==> n as real - 1.0 < x <= n as real
  {
    if 0.0 <= x then x.Floor else -((-x).Floor)
  }

  /** The least integer not below `x`. */
  function Ceil(x: real): (n: int)
    ensures x <= n as real < x + 1.0
  {
    -((-x).Floor)
  }

  /** Number of values `np.arange(start, stop, step)` yields. */
  function ArangeLength(start: real, stop: real, step: real): nat
    requires step != 0.0
  {
    var n := Ceil((stop - start) / step);
    if n < 0 then 0 else n
  }

  /** `np.arange(start, stop, step)`: start, start + step, start + 2*step, ... for ArangeLength entries. */
  function Arange(start: real, stop: real, step: real): (r: seq<real>)
    requires step != 0.0
    ensures |r| == ArangeLength(start, stop, step)
    ensures forall i :: 0 <= i < |r| ==> r[i] == start + i as real * step
  {
    var n := ArangeLength(start, stop, step);
    seq(n, i requires 0 <= i < n => start + i as real * step)
  }

  /**
    * The entries of `np.arange` are exactly the values start + i*step that lie in the
    * half-open interval from `start` towards `stop`: each lies inside it and one
    * more step would leave it.
    */
  lemma ArangeWithin(start: real, stop: real, step: real)
    requires step != 0.0
    ensures var r := Arange(start, stop, step);
      (forall i :: 0 <= i < |r| ==> if 0.0 < step then start <= r[i] < stop else stop < r[i] <= start) &&
      (if 0.0 < step then stop <= start + |r| as real * step else start + |r| as real * step <= stop)
  {
    var r := Arange(start, stop, step);
    forall i | 0 <= i < |r|
      ensures if 0.0 < step then start <= r[i] < stop else stop < r[i] <= start
    {
      ArangeInside(start, stop, step, i);
    }
    ArangeExhausted(start, stop, step);
  }

  /** Every index below the length lies strictly before `stop`. */
  lemma ArangeInside(start: real, stop: real, step: real, i: int)
    requires step != 0.0 && 0 <= i < ArangeLength(start, stop, step)
    ensures if 0.0 < step then start <= start + i as real * step < stop
            else stop < start + i as real * step <= start
  {
    var q := (stop - start) / step;
    assert stop - start == q * step;
    assert i as real < q;
    if 0.0 < step {
      assert i as real * step < q * step;
    } else {
      assert q * step < i as real * step;
    }
  }

  /** One more step would reach or pass `stop`. */
  lemma ArangeExhausted(start: real, stop: real, step: real)
    requires step != 0.0
    ensures var n := ArangeLength(start, stop, step);
      if 0.0 < step then stop <= start + n as real * step
      else start + n as real * step <= stop
  {
    var n := ArangeLength(start, stop, step);
    var q := (stop - start) / step;
    assert stop - start == q * step;
    assert q <= n as real;
    if 0.0 < step {
      assert q * step <= n as real * step;
    } else {
      assert n as real * step <= q * step;
    }
  }

  /** A range whose stop is exactly `count` steps away has `count` entries (none if `count` is negative). */
  lemma ArangeCount(start: real, stop: real, step: real, count: int)
    requires step != 0.0 && stop == start + count as real * step
    ensures |Arange(start, stop, step)| == if count < 0 then 0 else count
  {
    assert (stop - start) / step == count as real;
  }
}
