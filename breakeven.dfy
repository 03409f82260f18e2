/** Break-even analysis: fixed cost `fc`, variable cost per unit `vc` and unit
    price `p` give the unit volume where revenue meets cost, and the two lines
    sampled over [0, 2·BEP] for the chart. */
module BreakEven {
  import opened RealAlgebra
  import opened Sampling

  /** The page either refuses a price that does not exceed the variable cost,
      or reports the break-even volume with the sampled cost and revenue lines. */
  datatype BreakEvenOutcome =
    | PriceNotAboveCost
    | Analysis(bep: real, units: seq<real>, totalCost: seq<real>, totalRevenue: seq<real>)

  /** Cost of producing `x` units. */
  function TotalCost(fc: real, vc: real, x: real): real
  {
    fc + vc * x
  }

  /** Revenue from selling `x` units. */
  function TotalRevenue(p: real, x: real): real
  {
    p * x
  }

  /** The calculator: the price guard, BEP = FC / (P − VC), and both lines on
      `linspace(0, BEP*2, 100)`. */
  function Analyse(fc: real, vc: real, p: real): (r: BreakEvenOutcome)
    ensures r.PriceNotAboveCost? <==> p <= vc
    ensures r.Analysis? ==> r.bep * (p - vc) == fc
    ensures r.Analysis? ==> r.units == Linspace(0.0, r.bep * 2.0, SampleCount)
    ensures r.Analysis? ==>
              |r.units| == SampleCount && r.units[0] == 0.0 && r.units[SampleCount - 1] == 2.0 * r.bep
    ensures r.Analysis? ==>
              |r.totalCost| == SampleCount && |r.totalRevenue| == SampleCount &&
              forall i :: 0 <= i < SampleCount ==>
                r.totalCost[i] == TotalCost(fc, vc, r.units[i]) &&
                r.totalRevenue[i] == TotalRevenue(p, r.units[i])
  {
    if p <= vc then PriceNotAboveCost
    else
      var bep := fc / (p - vc);
      var x := Linspace(0.0, bep * 2.0, SampleCount);
      Analysis(bep, x,
               seq(|x|, i requires 0 <= i < |x| => fc + vc * x[i]),
               seq(|x|, i requires 0 <= i < |x| => p * x[i]))
  }

  /** Profit at volume `x` is the unit margin times the distance from the
      break-even volume: R(x) − C(x) = (P − VC)(x − BEP). */
  lemma ProfitIsMarginTimesDistance(fc: real, vc: real, p: real, x: real)
    requires p > vc
    ensures TotalRevenue(p, x) - TotalCost(fc, vc, x) == (p - vc) * (x - Analyse(fc, vc, p).bep)
  {
    var bep := Analyse(fc, vc, p).bep;
    calc {
      (p - vc) * (x - bep);
      (p - vc) * x - bep * (p - vc);
      p * x - vc * x - fc;
    }
  }

  /** Cost meets revenue at the break-even volume and nowhere else; below it the
      business loses money, above it it makes money. */
  lemma BreakEvenSeparates(fc: real, vc: real, p: real, x: real)
    requires p > vc
    ensures var bep := Analyse(fc, vc, p).bep;
            (TotalCost(fc, vc, x) == TotalRevenue(p, x) <==> x == bep) &&
            (TotalCost(fc, vc, x) > TotalRevenue(p, x) <==> x < bep) &&
            (TotalRevenue(p, x) > TotalCost(fc, vc, x) <==> x > bep)
  {
    var bep := Analyse(fc, vc, p).bep;
    ProfitIsMarginTimesDistance(fc, vc, p, x);
    SignOfProduct(p - vc, x - bep);
  }

  /** A positive fixed cost puts the break-even volume above zero. */
  lemma PositiveBreakEven(fc: real, vc: real, p: real)
    requires p > vc && fc > 0.0
    ensures Analyse(fc, vc, p).bep > 0.0
  {
    var bep := Analyse(fc, vc, p).bep;
    if bep <= 0.0 {
      SignOfProduct(p - vc, bep);
    }
  }

  /** On the chart of a positive fixed cost, the first half of the samples
      (indices 0..49) lie in the loss zone and the second half (50..99) in the
      profit zone. */
  lemma ChartHalves(fc: real, vc: real, p: real, i: nat)
    requires p > vc && fc > 0.0 && i < SampleCount
    ensures var r := Analyse(fc, vc, p);
            (i < SampleCount / 2 ==> r.totalCost[i] > r.totalRevenue[i]) &&
            (i >= SampleCount / 2 ==> r.totalRevenue[i] > r.totalCost[i])
  {
    var r := Analyse(fc, vc, p);
    PositiveBreakEven(fc, vc, p);
    MidpointOfSamples(r.bep, i);
    BreakEvenSeparates(fc, vc, p, r.units[i]);
  }

  /** Of the samples of [0, 2m] the first half lies below m and the second above. */
  lemma MidpointOfSamples(m: real, i: nat)
    requires m > 0.0 && i < SampleCount
    ensures var x := Linspace(0.0, m * 2.0, SampleCount)[i];
            (i < SampleCount / 2 ==> x < m) && (i >= SampleCount / 2 ==> x > m)
  {
    var step := Step(0.0, m * 2.0, SampleCount);
    var x := Linspace(0.0, m * 2.0, SampleCount)[i];
    assert x == (i as real) * step;
    assert 99.0 * step == 2.0 * m;
    assert 99.0 * (x - m) == (2.0 * (i as real) - 99.0) * m;
    SignOfProduct(m, 2.0 * (i as real) - 99.0);
    SignOfProduct(99.0, x - m);
  }
}
