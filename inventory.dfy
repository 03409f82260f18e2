/** Economic Order Quantity: annual demand `d`, ordering cost per order `s` and
    holding cost per unit `h` give the order size that minimises total cost,
    and the total-cost curve sampled for the chart, in exact real arithmetic. */
module Inventory {
  import opened RealAlgebra
  import opened Sampling

  /** `root` is the non-negative square root of `x`: the value `np.sqrt(x)` returns. */
  predicate IsSquareRoot(root: real, x: real)
  {
    root >= 0.0 && root * root == x
  }

  /** Yearly ordering cost plus holding cost when ordering `q` units at a time. */
  function TotalInventoryCost(d: real, s: real, h: real, q: real): real
    requires q != 0.0
  {
    d / q * s + q / 2.0 * h
  }

  /** The order size and the total-cost curve sampled on `linspace(1, 2*eoq, 100)`. */
  datatype EoqResult = EoqResult(eoq: real, orderQuantities: seq<real>, totalCosts: seq<real>)

  /** The calculator. `root` stands for `np.sqrt((2*D*S)/H)`, the one value the
      page obtains from a library it does not define. */
  function Eoq(d: real, s: real, h: real, root: real): (r: EoqResult)
    requires d > 0.0 && s > 0.0 && h > 0.0
    requires IsSquareRoot(root, (2.0 * d * s) / h)
    ensures r.eoq > 0.0 && r.eoq * r.eoq * h == 2.0 * d * s
    ensures r.orderQuantities == Linspace(1.0, 2.0 * r.eoq, SampleCount)
    ensures |r.totalCosts| == SampleCount
    ensures forall i :: 0 <= i < SampleCount ==>
              r.orderQuantities[i] > 0.0 &&
              r.totalCosts[i] == TotalInventoryCost(d, s, h, r.orderQuantities[i])
  {
    assert root * root * h == 2.0 * d * s;
    assert root > 0.0;
    var q := Linspace(1.0, 2.0 * root, SampleCount);
    assert forall i :: 0 <= i < SampleCount ==> q[i] > 0.0 by {
      forall i | 0 <= i < SampleCount ensures q[i] > 0.0 {
        WithinEndpoints(1.0, 2.0 * root, SampleCount, i);
      }
    }
    EoqResult(root, q, seq(SampleCount, i requires 0 <= i < SampleCount => d / q[i] * s + q[i] / 2.0 * h))
  }

  /** Facts every EOQ of positive inputs satisfies: it is positive and its square times H is 2DS. */
  lemma RootFacts(d: real, s: real, h: real, e: real)
    requires d > 0.0 && s > 0.0 && h > 0.0 && IsSquareRoot(e, (2.0 * d * s) / h)
    ensures e > 0.0 && e * e * h == 2.0 * d * s
  {
    assert e * e * h == 2.0 * d * s;
  }

  /** At the EOQ ordering and holding cost are equal, so the minimum total
      cost is H · EOQ. */
  lemma MinimumCost(d: real, s: real, h: real, e: real)
    requires d > 0.0 && s > 0.0 && h > 0.0 && IsSquareRoot(e, (2.0 * d * s) / h)
    ensures TotalInventoryCost(d, s, h, e) == h * e
  {
    RootFacts(d, s, h, e);
    var ordering := d / e * s;
    assert (d / e) * e == d;
    assert ordering * e == d * s;
    assert (h * e / 2.0) * e == d * s;
    Cancel(ordering, h * e / 2.0, e);
  }

  /** How much more an order size `q` costs than the EOQ:
      TC(q) − TC(eoq) = H (q − eoq)² / (2q). */
  lemma CostGap(d: real, s: real, h: real, e: real, q: real)
    requires d > 0.0 && s > 0.0 && h > 0.0 && IsSquareRoot(e, (2.0 * d * s) / h)
    requires q > 0.0
    ensures TotalInventoryCost(d, s, h, q) - TotalInventoryCost(d, s, h, e)
            == h * (q - e) * (q - e) / (2.0 * q)
  {
    RootFacts(d, s, h, e);
    MinimumCost(d, s, h, e);
    var gap := TotalInventoryCost(d, s, h, q) - h * e;
    var ordering := d / q * s;
    assert (d / q) * q == d;
    assert ordering * q == d * s;
    assert gap * (2.0 * q) == h * (q - e) * (q - e) by {
      calc {
        gap * (2.0 * q);
        (ordering + q / 2.0 * h - h * e) * (2.0 * q);
        2.0 * (ordering * q) + q * q * h - 2.0 * q * h * e;
        2.0 * d * s + q * q * h - 2.0 * q * h * e;
        e * e * h + q * q * h - 2.0 * q * h * e;
        h * (q - e) * (q - e);
      }
    }
    Quotient(h * (q - e) * (q - e), 2.0 * q, gap);
  }

  /** The EOQ minimises total cost over every positive order size, and it is
      the only order size that reaches the minimum. */
  lemma EoqMinimises(d: real, s: real, h: real, e: real, q: real)
    requires d > 0.0 && s > 0.0 && h > 0.0 && IsSquareRoot(e, (2.0 * d * s) / h)
    requires q > 0.0
    ensures TotalInventoryCost(d, s, h, e) <= TotalInventoryCost(d, s, h, q)
    ensures TotalInventoryCost(d, s, h, e) == TotalInventoryCost(d, s, h, q) <==> q == e
  {
    CostGap(d, s, h, e, q);
    var x := q - e;
    SquareSign(x);
    SignOfProduct(h, x * x);
    assert h * x * x == h * (x * x);
    QuotientSign(h * (x * x), 2.0 * q);
  }

  /** No point of the plotted curve lies below the cost at the EOQ. */
  lemma CurveAboveMinimum(d: real, s: real, h: real, root: real, i: nat)
    requires d > 0.0 && s > 0.0 && h > 0.0 && IsSquareRoot(root, (2.0 * d * s) / h)
    requires i < SampleCount
    ensures var r := Eoq(d, s, h, root);
            TotalInventoryCost(d, s, h, r.eoq) <= r.totalCosts[i]
  {
    var r := Eoq(d, s, h, root);
    EoqMinimises(d, s, h, root, r.orderQuantities[i]);
  }

  /** The plotted range [1, 2·EOQ] brackets the EOQ exactly when EOQ ≥ 1: for a
      smaller EOQ every sampled order size exceeds it and the minimum is off the chart. */
  lemma CurveBracketsEoq(d: real, s: real, h: real, root: real)
    requires d > 0.0 && s > 0.0 && h > 0.0 && IsSquareRoot(root, (2.0 * d * s) / h)
    ensures var r := Eoq(d, s, h, root);
            (exists i, j :: 0 <= i < SampleCount && 0 <= j < SampleCount &&
                            r.orderQuantities[i] <= r.eoq <= r.orderQuantities[j])
            <==> r.eoq >= 1.0
  {
    var r := Eoq(d, s, h, root);
    var q := r.orderQuantities;
    if r.eoq >= 1.0 {
      assert q[0] <= r.eoq <= q[SampleCount - 1];
    } else {
      forall i | 0 <= i < SampleCount ensures q[i] > r.eoq {
        WithinEndpoints(1.0, 2.0 * r.eoq, SampleCount, i);
      }
    }
  }
}
