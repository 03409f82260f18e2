/** Evenly spaced samples, as numpy's `linspace(start, stop, num)` (endpoint
    included) produces them for the cost curves, in exact real arithmetic. */
module Sampling {
  import opened RealAlgebra

  /** Number of points both curves are sampled on. */
  const SampleCount: nat := 100

  /** Distance between two neighbouring samples of `Linspace(start, stop, num)`. */
  function Step(start: real, stop: real, num: nat): real
    requires num > 1
  {
    (stop - start) / ((num - 1) as real)
  }

  /** `num` points from `start` to `stop`: point `i` is `start + i * Step`. */
  function Linspace(start: real, stop: real, num: nat): (r: seq<real>)
    ensures |r| == num
    ensures num > 0 ==> r[0] == start
    ensures num > 1 ==> r[num - 1] == stop
  {
    if num == 0 then []
    else if num == 1 then [start]
    else
      var step := Step(start, stop, num);
      assert ((num - 1) as real) * step == stop - start;
      seq(num, i requires 0 <= i < num => start + (i as real) * step)
  }

  /** The samples are evenly spaced: neighbours differ by exactly `Step`. */
  lemma EvenlySpaced(start: real, stop: real, num: nat, i: nat)
    requires num > 1 && i + 1 < num
    ensures Linspace(start, stop, num)[i + 1] - Linspace(start, stop, num)[i] == Step(start, stop, num)
  {
    var step := Step(start, stop, num);
    assert ((i + 1) as real) * step == (i as real) * step + step;
  }

  /** Every sample lies between the two endpoints, whichever is larger. */
  lemma WithinEndpoints(start: real, stop: real, num: nat, i: nat)
    requires i < num
    ensures var x := Linspace(start, stop, num)[i];
            (start <= stop ==> start <= x <= stop) && (stop <= start ==> stop <= x <= start)
  {
    if num > 1 {
      var step := Step(start, stop, num);
      var before, after := i as real, (num - 1 - i) as real;
      assert before * step + after * step == stop - start;
      if start <= stop {
        ProductNonNegative(before, step);
        ProductNonNegative(after, step);
      } else {
        ProductNonNegative(before, -step);
        ProductNonNegative(after, -step);
      }
    }
  }

  /** With `start < stop` the samples increase strictly from one index to the next. */
  lemma StrictlyIncreasing(start: real, stop: real, num: nat, i: nat, j: nat)
    requires start < stop && i < j < num
    ensures Linspace(start, stop, num)[i] < Linspace(start, stop, num)[j]
  {
    var step := Step(start, stop, num);
    assert step > 0.0;
    assert (j as real) * step - (i as real) * step == ((j - i) as real) * step;
  }
}
