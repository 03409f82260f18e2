# Industrial-mathematics calculators, modelled in Dafny

The repository is a Streamlit page, `app.py`, with four calculators:
- production optimisation by linear programming;
- Economic Order Quantity (EOQ) inventory sizing;
- an M/M/1 queue;
- break-even analysis.

Around its widgets and charts sit a few exact formulas and one text-parsing loop. This project models those pieces and proves what they promise. Arithmetic is exact over Dafny's `real`, not IEEE floating point.

Modules, one per calculator plus shared pieces:

- `Sampling` (`sampling.dfy`): numpy's `linspace(start, stop, num)`, the sampling behind both charts. It is proved to have `num` points that start at `start`, end at `stop`, are evenly spaced by `(stop − start)/(num − 1)` and lie between the endpoints.
- `Queueing` (`queueing.dfy`): the M/M/1 calculator. It has three outcomes:
  - `Unstable` exactly when λ ≥ μ;
  - `ZeroDivision` when a rate the page divides by is zero (Python raises `ZeroDivisionError` for `lam / mu` when μ = 0, and for `Lq / lam` when λ = 0; the page has no guard for either);
  - otherwise the five metrics.

  Every reported result satisfies Little's law and the textbook closed forms.
- `BreakEven` (`breakeven.dfy`): the price guard P ≤ VC, BEP = FC/(P − VC) with BEP·(P − VC) = FC, and the cost and revenue lines sampled on `linspace(0, BEP*2, 100)`. Profit at volume x is (P − VC)(x − BEP). So cost equals revenue only at BEP, the loss zone lies below it and the profit zone above it. With FC > 0, samples 0–49 of the chart are losses and samples 50–99 are profits.
- `Inventory` (`inventory.dfy`): EOQ and the total-cost curve `TC(Q) = D/Q·S + Q/2·H` on `linspace(1, 2*eoq, 100)`. Dafny has no square root, and `np.sqrt` is a library call, so the root is a parameter that satisfies its defining equation (`eoq ≥ 0`, `eoq² = 2DS/H`). The key identity TC(Q) − TC(eoq) = H(Q − eoq)²/(2Q) gives three results:
  - EOQ minimises cost over all Q > 0, and only Q = EOQ reaches the minimum;
  - no point of the plotted curve lies below that minimum;
  - the minimum cost is H·EOQ.

  It is also proved that the plotted range brackets the EOQ exactly when EOQ ≥ 1.
- `TextFields` (`textfields.dfy`): Python's `str.split(',')`. There is always at least one field, no field contains the separator, and there is one more field than there are separators. Joining the fields restores the text, and splitting the join of separator-free fields restores the fields.
- `Production` (`production.dfy`): the data handed to `linprog` and what the page makes of its answer.
  - The objective vector `c` is the negation of the parsed profit coefficients.
  - Each constraint string gives a row from fields 0 and 1 and a capacity from field 3. Field 2 is never read. The exception raised (`ValueError` from `float`, `IndexError` from a missing field) follows Python's evaluation order.
  - The loop over constraint strings is a method. Its loop invariant ties the lists it builds to the per-string parse, in input order.
  - The top-level button handler reports `-res.fun`. When the solver's value is the objective at its quantities, that equals the profit coefficients times those quantities.
  - The page's default constraints `"1,1,<=40"` and `"2,1,<=60"` have only three fields, so the handler raises before the solver runs.
- `RealAlgebra` (`algebra.dfy`): small facts about quotients, cancellation and signs of products that the proofs share.

Python's `float()` is the parameter `parse: string -> Option<real>`, where `None` stands for `ValueError`. `linprog` is the parameter `solve`, returning `success`, `x` and `fun`.

The page itself validates neither the EOQ inputs nor λ = 0: the queue model returns an explicit `ZeroDivision` outcome where Python raises, while `Inventory.Eoq` requires D, S, H > 0 (see "## Left out"). The LP tab reads its data as text, and its default constraint strings cannot be parsed. The EOQ curve starts at Q = 1 rather than around the EOQ.

## Model

| member | source | states |
|---|---|---|
| Sampling.Linspace | app.py:58 | `linspace(start, stop, num)` has exactly `num` points, the first is `start` and the last is `stop`. Used for `linspace(1, 2*eoq, 100)`, and at app.py:105 for `linspace(0, BEP*2, 100)` |
| Sampling.EvenlySpaced | app.py:58 | neighbouring samples differ by exactly `(stop − start)/(num − 1)` |
| Sampling.WithinEndpoints | app.py:58 | every sample lies between the two endpoints, whichever order they are in |
| Sampling.StrictlyIncreasing | app.py:105 | with `start < stop` the samples strictly increase with the index |
| Queueing.MM1 | app.py:72-80 | the outcome is `Unstable` iff λ ≥ μ, and then no metric is produced. It is `ZeroDivision` iff λ < μ and (μ = 0 or λ = 0). Metrics are produced iff λ < μ, μ ≠ 0 and λ ≠ 0 |
| Queueing.ClosedForms | app.py:76-80 | reported metrics equal the textbook forms: ρ = λ/μ, Lq = λ²/(μ(μ − λ)), Wq = λ/(μ(μ − λ)), L = ρ/(1 − ρ), W = 1/(μ − λ) |
| Queueing.LittlesLaw | app.py:76-80 | for every reported result, L = Lq + ρ, L = λW, Lq = λWq and W = Wq + 1/μ |
| Queueing.StableQueue | app.py:73-80 | for 0 < λ < μ, metrics are reported with 0 < ρ < 1 and Lq, Wq, L, W all positive |
| BreakEven.Analyse | app.py:99-107 | the outcome is the error iff P ≤ VC. Otherwise BEP·(P − VC) = FC. The volumes are the 100 samples from 0 to 2·BEP. Each cost entry is FC + VC·x and each revenue entry is P·x at the matching volume |
| BreakEven.ProfitIsMarginTimesDistance | app.py:103-107 | for P > VC, revenue minus cost at x equals (P − VC)(x − BEP) |
| BreakEven.BreakEvenSeparates | app.py:103-107 | for P > VC, cost equals revenue iff x = BEP. Cost exceeds revenue iff x < BEP, and revenue exceeds cost iff x > BEP |
| BreakEven.PositiveBreakEven | app.py:103 | for P > VC and FC > 0, BEP > 0 |
| BreakEven.ChartHalves | app.py:105-107 | for P > VC and FC > 0, samples 0–49 of the chart have cost above revenue and samples 50–99 have revenue above cost |
| BreakEven.MidpointOfSamples | app.py:105 | of the 100 samples of [0, 2m], m > 0, the first 50 lie below m and the last 50 above it |
| Inventory.Eoq | app.py:53-59 | for D, S, H > 0 and the square root of 2DS/H: EOQ > 0 and EOQ²·H = 2DS. The order sizes are `linspace(1, 2*eoq, 100)`, all positive, and each cost entry is TC at its order size |
| Inventory.RootFacts | app.py:54 | for D, S, H > 0, the root of 2DS/H is positive and its square times H is 2DS |
| Inventory.MinimumCost | app.py:54-59 | the total cost at the EOQ is H·EOQ, since ordering and holding cost are equal there |
| Inventory.CostGap | app.py:54-59 | for every Q > 0, TC(Q) − TC(EOQ) = H(Q − EOQ)²/(2Q) |
| Inventory.EoqMinimises | app.py:54-59 | TC(EOQ) ≤ TC(Q) for every Q > 0, with equality iff Q = EOQ |
| Inventory.CurveAboveMinimum | app.py:58-59 | no point of the plotted total-cost curve is below TC(EOQ) |
| Inventory.CurveBracketsEoq | app.py:58 | some sampled order sizes lie at or below the EOQ and some at or above it iff EOQ ≥ 1 |
| TextFields.Split | app.py:35 | `str.split(sep)` gives at least one field, and no field contains the separator |
| TextFields.JoinSplit | app.py:35 | joining the fields of a split with the separator gives back the original text |
| TextFields.SplitJoin | app.py:35 | splitting the join of separator-free fields gives back exactly those fields |
| TextFields.FieldCount | app.py:35 | the number of fields is the number of separators plus one |
| Production.ParseNumbers | app.py:30 | the comprehension `[float(i) for i in fields]` succeeds iff every field parses. Then it has one number per field, in order. Otherwise it raises `ValueError` |
| Production.ObjectiveVector | app.py:30 | `c` exists iff every profit field parses. It has one entry per field, and `c[k]` is minus the k-th profit. The only error is `ValueError` |
| Production.ParseConstraint | app.py:35-37 | a constraint parses iff it has at least 4 fields and fields 0, 1 and 3 parse. Its row is then [field 0, field 1] and its capacity field 3. It raises `IndexError` iff field 0 parses and either field 1 is missing or field 1 parses and field 3 is missing |
| Production.AssembleConstraints | app.py:31-37 | the loop succeeds iff every constraint parses. It then yields one row of A and one entry of b per constraint, in input order, each the constraint's parse. Otherwise its error is that of the first constraint that fails, all earlier ones having parsed |
| Production.DotOfNegation | app.py:42 | with every coefficient negated, the scalar product is negated |
| Production.Optimise | app.py:29-45 | the handler raises the objective's error first, then the first constraint's, then the second's. Otherwise it calls the solver on c, the two rows and the two capacities, and reports `x` and `-fun` on success or failure otherwise. When `fun = c·x`, the reported profit is profit·x |
| Production.DefaultConstraintsRaise | app.py:26-37 | the default constraints `"1,1,<=40"` and `"2,1,<=60"` always fail to parse. When `float` reads their leading numbers the error is `IndexError` |
| Production.ThirdFieldIgnored | app.py:36-37 | two constraint strings whose fields agree everywhere except field 2 parse to the same result |
| Production.ComparisonTextIgnored | app.py:26-37 | replacing the comparison text (field 2) of a constraint by any other comma-free text does not change its parse, whether or not fields follow it (so also for three-field strings such as the defaults) |

## Left out

- Streamlit widgets, tabs, sidebar text, success and error messages, and the `:.2f` formatting (app.py:2-24, 42-45, 55, 74, 81-85, 101, 104) are presentation. The text-input widgets at app.py:25-27 are presentation too, but their default values are modelled. The model's outcome variants stand for the messages.
- matplotlib figures, `st.pyplot` and `st.bar_chart` (app.py:57-65, 87-91, 109-114) are presentation. The model keeps only the sampled data they plot.
- The `linprog` solve (app.py:39) is a foreign library call. It is the parameter `solve`, and its `success`, `x` and `fun` are opaque. Optimality, feasibility and the solver's own dimension checks (for example a profit vector that is not two long) are not modelled.
- Python's `float()` is the parameter `parse`. Which strings it accepts (whitespace, `inf`, `nan`, ...) is not modelled.
- `np.sqrt` (app.py:54) is a library call. Its result enters as a parameter that is constrained by the square-root equation.
- IEEE floating-point rounding, infinities and NaN: every formula is exact over `real`.
- Inventory.Eoq: requires D, S, H > 0, although the page has no guard. With H = 0 Python raises `ZeroDivisionError`. With a negative ratio `np.sqrt` yields NaN. With D = 0 or S = 0 the last sample is Q = 0 and numpy yields inf/NaN. None of these IEEE outcomes is modelled. The requires also excludes sign patterns on which the page computes an ordinary finite curve: with D < 0, S < 0 and H > 0 the ratio 2DS/H is positive and every TC sample is finite; with D > 0, S < 0 and H < 0, or with D < 0, S > 0 and H < 0, the ratio is positive too, but the EOQ is then a maximum of TC rather than a minimum. The model says nothing about these inputs.
- `res.x` feeding the bar chart and the text of the success message are presentation.
