/** Steady-state metrics of an M/M/1 queue from the arrival rate `lam` and the
    service rate `mu`, in exact real arithmetic. */
module Queueing {
  import opened RealAlgebra

  /** What the queue calculator produces: the unstable message when arrivals keep
      up with service; a Python `ZeroDivisionError` when a rate it divides by is
      zero; otherwise utilisation, mean queue length, mean wait in the queue,
      mean number in the system and mean time in the system. */
  datatype QueueOutcome =
    | Unstable
    | ZeroDivision
    | Metrics(rho: real, lq: real, wq: real, l: real, w: real)

  /** The calculator: the stability guard, then the five formulas in the order
      the page evaluates them (`rho` divides by `mu`, `Wq` divides by `lam`). */
  function MM1(lam: real, mu: real): (r: QueueOutcome)
    ensures r.Unstable? <==> lam >= mu
    ensures r.ZeroDivision? <==> lam < mu && (mu == 0.0 || lam == 0.0)
    ensures r.Metrics? <==> lam < mu && mu != 0.0 && lam != 0.0
  {
    if lam >= mu then Unstable
    else if mu == 0.0 then ZeroDivision
    else
      var rho := lam / mu;
      assert rho * mu == lam;
      var lq := (rho * rho) / (1.0 - rho);
      if lam == 0.0 then ZeroDivision
      else Metrics(rho, lq, lq / lam, lam / (mu - lam), 1.0 / (mu - lam))
  }

  /** The page's five formulas, each written as a product free of division. */
  lemma MetricsAsProducts(lam: real, mu: real)
    requires MM1(lam, mu).Metrics?
    ensures var m := MM1(lam, mu);
            mu != 0.0 && lam != 0.0 && mu - lam > 0.0 &&
            m.rho * mu == lam &&
            m.lq * (1.0 - m.rho) == m.rho * m.rho &&
            m.wq * lam == m.lq &&
            m.l * (mu - lam) == lam &&
            m.w * (mu - lam) == 1.0
  {
    var m := MM1(lam, mu);
    assert m.rho * mu == lam;
    assert 1.0 - m.rho != 0.0;
  }

  /** Whenever the page reports metrics, they agree with the textbook closed
      forms: Lq = λ²/(μ(μ−λ)), Wq = λ/(μ(μ−λ)), L = ρ/(1−ρ), W = 1/(μ−λ). */
  lemma ClosedForms(lam: real, mu: real)
    requires MM1(lam, mu).Metrics?
    ensures var m := MM1(lam, mu);
            m.rho == lam / mu &&
            m.lq == (lam * lam) / (mu * (mu - lam)) &&
            m.wq == lam / (mu * (mu - lam)) &&
            m.l == m.rho / (1.0 - m.rho) &&
            m.w == 1.0 / (mu - lam)
  {
    var m := MM1(lam, mu);
    MetricsAsProducts(lam, mu);
    ScaledMetrics(lam, mu, m.rho, m.lq, m.wq, m.l);
    Quotient(lam, mu, m.rho);
    Quotient(lam * lam, mu * (mu - lam), m.lq);
    Quotient(lam, mu * (mu - lam), m.wq);
    Quotient(m.rho, 1.0 - m.rho, m.l);
    Quotient(1.0, mu - lam, m.w);
  }

  /** Little's law and its companions hold for every reported result:
      L = Lq + ρ, L = λW, Lq = λWq and W = Wq + 1/μ. */
  lemma LittlesLaw(lam: real, mu: real)
    requires MM1(lam, mu).Metrics?
    ensures var m := MM1(lam, mu);
            m.l == m.lq + m.rho &&
            m.l == lam * m.w &&
            m.lq == lam * m.wq &&
            m.w == m.wq + 1.0 / mu
  {
    var m := MM1(lam, mu);
    MetricsAsProducts(lam, mu);
    ScaledMetrics(lam, mu, m.rho, m.lq, m.wq, m.l);
    FlowIdentities(lam, mu, m.rho, m.lq, m.wq, m.l, m.w);
  }

  /** Lq, Wq and L multiplied out by their denominators. */
  lemma ScaledMetrics(lam: real, mu: real, rho: real, lq: real, wq: real, l: real)
    requires mu != 0.0 && lam != 0.0 && mu - lam != 0.0
    requires rho * mu == lam && lq * (1.0 - rho) == rho * rho
    requires wq * lam == lq && l * (mu - lam) == lam
    ensures (1.0 - rho) * mu == mu - lam
    ensures lq * (mu * (mu - lam)) == lam * lam
    ensures wq * (mu * (mu - lam)) == lam
    ensures l * (1.0 - rho) == rho
  {
    var gap := mu - lam;
    assert (1.0 - rho) * mu == gap;
    calc {
      lq * (mu * gap);
      (lq * (1.0 - rho)) * (mu * mu);
      (rho * rho) * (mu * mu);
      (rho * mu) * (rho * mu);
    }
    assert (wq * (mu * gap)) * lam == lam * lam by {
      calc {
        (wq * (mu * gap)) * lam;
        (wq * lam) * (mu * gap);
        lq * (mu * gap);
      }
    }
    Cancel(wq * (mu * gap), lam, lam);
    assert (l * (1.0 - rho)) * mu == rho * mu by {
      calc {
        (l * (1.0 - rho)) * mu;
        l * ((1.0 - rho) * mu);
        l * gap;
      }
    }
    Cancel(l * (1.0 - rho), rho, mu);
  }

  /** The flow identities, derived from the multiplied-out formulas alone. */
  lemma FlowIdentities(lam: real, mu: real, rho: real, lq: real, wq: real, l: real, w: real)
    requires mu != 0.0 && mu - lam != 0.0
    requires rho * mu == lam && wq * lam == lq
    requires lq * (mu * (mu - lam)) == lam * lam && wq * (mu * (mu - lam)) == lam
    requires l * (mu - lam) == lam && w * (mu - lam) == 1.0
    ensures l == lq + rho && l == lam * w && lq == lam * wq && w == wq + 1.0 / mu
  {
    var gap := mu - lam;
    var scale := mu * gap;
    assert (lq + rho) * scale == l * scale by {
      calc {
        (lq + rho) * scale;
        lq * scale + (rho * mu) * gap;
        lam * lam + lam * gap;
        lam * mu;
        (l * gap) * mu;
        l * scale;
      }
    }
    Cancel(lq + rho, l, scale);
    assert (lam * w) * gap == l * gap;
    Cancel(lam * w, l, gap);
    assert (1.0 / mu) * scale == gap;
    assert w * gap == 1.0;
    assert (wq + 1.0 / mu) * scale == w * scale by {
      calc {
        (wq + 1.0 / mu) * scale;
        wq * scale + (1.0 / mu) * scale;
        lam + gap;
        mu;
        (w * gap) * mu;
        w * scale;
      }
    }
    Cancel(wq + 1.0 / mu, w, scale);
  }

  /** A stable queue with positive rates (0 < λ < μ) always gets metrics, with
      0 < ρ < 1 and every length and time strictly positive. */
  lemma StableQueue(lam: real, mu: real)
    requires 0.0 < lam < mu
    ensures var m := MM1(lam, mu);
            m.Metrics? && 0.0 < m.rho < 1.0 &&
            m.lq > 0.0 && m.wq > 0.0 && m.l > 0.0 && m.w > 0.0
  {
    var m := MM1(lam, mu);
    MetricsAsProducts(lam, mu);
    PositiveMetrics(lam, mu, m.rho, m.lq, m.wq, m.l, m.w);
  }

  /** From the multiplied-out formulas alone: with 0 < λ < μ the utilisation
      lies strictly between 0 and 1 and every length and time is positive. */
  lemma PositiveMetrics(lam: real, mu: real, rho: real, lq: real, wq: real, l: real, w: real)
    requires 0.0 < lam < mu
    requires rho * mu == lam && lq * (1.0 - rho) == rho * rho
    requires wq * lam == lq && l * (mu - lam) == lam && w * (mu - lam) == 1.0
    ensures 0.0 < rho < 1.0 && lq > 0.0 && wq > 0.0 && l > 0.0 && w > 0.0
  {
    SignOfProduct(mu, rho);
    assert (1.0 - rho) * mu == mu - lam;
    SignOfProduct(mu, 1.0 - rho);
    assert 1.0 - rho > 0.0;
    SquareSign(rho);
    SignOfProduct(1.0 - rho, lq);
    SignOfProduct(lam, wq);
    SignOfProduct(mu - lam, l);
    SignOfProduct(mu - lam, w);
  }
}
