/** Production optimisation: the page reads the profit coefficients and two
    resource constraints as comma-separated text, builds the data of the linear
    program `minimise c·x subject to A x <= b, x >= 0`, hands it to a solver, and reports
    the negated optimum as the maximum profit. The solver and Python's `float()`
    are parameters: the model covers the data handed to the solver and what is
    made of its answer. */
module Production {
  import opened TextFields

  datatype Option<T> = None | Some(value: T)

  /** The Python exceptions the text handling can raise: `float()` of text that
      is not a number, or a field index past the end of the split list. */
  datatype InputError = ValueError | IndexError

  datatype Result<T> = Ok(value: T) | Err(error: InputError)

  /** Python's `float()`: a number, or `None` when it raises `ValueError`. */
  type NumberParser = string -> Option<real>

  /** One parsed constraint: its row of `A` and its entry of `b`. */
  datatype Constraint = Constraint(row: seq<real>, capacity: real)

  /** The constraint system `A x <= b`, one row of `a` per entry of `b`. */
  datatype Inequalities = Inequalities(a: seq<seq<real>>, b: seq<real>)

  /** What the linear-programming solver returns: whether it succeeded, the
      optimal quantities and the optimal objective value. */
  datatype SolverResult = SolverResult(success: bool, x: seq<real>, fun: real)

  /** The solver, `linprog(c, A_ub=A, b_ub=b)`. */
  type Solver = (seq<real>, seq<seq<real>>, seq<real>) -> SolverResult

  /** What the button produces: an exception from the text, the solver's
      failure message, or the optimal quantities with the maximum profit. */
  datatype Outcome = Raised(error: InputError) | SolverFailed | Optimal(x: seq<real>, profit: real)

  /** `[float(i) for i in fields]`: every field as a number, or the
      `ValueError` of the first one that is not. */
  function ParseNumbers(fields: seq<string>, parse: NumberParser): (r: Result<seq<real>>)
    ensures r.Ok? <==> forall k :: 0 <= k < |fields| ==> parse(fields[k]).Some?
    ensures r.Ok? ==> |r.value| == |fields| &&
                      forall k :: 0 <= k < |fields| ==> r.value[k] == parse(fields[k]).value
    ensures r.Err? ==> r.error == ValueError
  {
    if fields == [] then Ok([])
    else match parse(fields[0])
      case None => Err(ValueError)
      case Some(v) =>
        var rest := ParseNumbers(fields[1..], parse);
        if rest.Err? then rest else Ok([v] + rest.value)
  }

  /** The objective vector `c`: the profit coefficients, negated, since the
      solver minimises. */
  function ObjectiveVector(profitText: string, parse: NumberParser): (c: Result<seq<real>>)
    ensures var profits := ParseNumbers(Split(profitText, ','), parse);
            (c.Ok? <==> profits.Ok?) &&
            (c.Err? ==> c.error == ValueError) &&
            (c.Ok? ==> |c.value| == |profits.value| &&
                       forall k :: 0 <= k < |c.value| ==> c.value[k] == -profits.value[k])
  {
    var profits := ParseNumbers(Split(profitText, ','), parse);
    if profits.Err? then Err(profits.error)
    else Ok(seq(|profits.value|, k requires 0 <= k < |profits.value| => -profits.value[k]))
  }

  /** One constraint as the loop body reads it: fields 0 and 1 are the row,
      field 3 the capacity and field 2 (the `<=` text) is never looked at.
      The checks come in Python's evaluation order: `float(parts[0])`,
      `parts[1]`, `float(parts[1])`, `parts[3]`, `float(parts[3])`. */
  function ParseConstraint(text: string, parse: NumberParser): (r: Result<Constraint>)
    ensures var parts := Split(text, ',');
            r.Ok? <==> |parts| >= 4 && parse(parts[0]).Some? && parse(parts[1]).Some? && parse(parts[3]).Some?
    ensures var parts := Split(text, ',');
            r.Ok? ==> r.value.row == [parse(parts[0]).value, parse(parts[1]).value] &&
                      r.value.capacity == parse(parts[3]).value
    ensures var parts := Split(text, ',');
            r.Err? && r.error == IndexError <==>
              parse(parts[0]).Some? && (|parts| < 2 || (parse(parts[1]).Some? && |parts| < 4))
  {
    var parts := Split(text, ',');
    match parse(parts[0])
    case None => Err(ValueError)
    case Some(x0) =>
      if |parts| < 2 then Err(IndexError)
      else match parse(parts[1])
        case None => Err(ValueError)
        case Some(x1) =>
          if |parts| < 4 then Err(IndexError)
          else match parse(parts[3])
            case None => Err(ValueError)
            case Some(cap) => Ok(Constraint([x0, x1], cap))
  }

  /** The loop over the constraint strings: each appends its row to `A` and its
      capacity to `b`, in input order; the first bad string stops the loop
      with its exception. */
  method AssembleConstraints(constraints: seq<string>, parse: NumberParser) returns (r: Result<Inequalities>)
    ensures r.Ok? <==> forall k :: 0 <= k < |constraints| ==> ParseConstraint(constraints[k], parse).Ok?
    ensures r.Ok? ==>
              |r.value.a| == |constraints| && |r.value.b| == |constraints| &&
              forall k :: 0 <= k < |constraints| ==>
                ParseConstraint(constraints[k], parse) == Ok(Constraint(r.value.a[k], r.value.b[k]))
    ensures r.Err? ==>
              exists k :: 0 <= k < |constraints| &&
                          ParseConstraint(constraints[k], parse) == Err(r.error) &&
                          forall j :: 0 <= j < k ==> ParseConstraint(constraints[j], parse).Ok?
  {
    var a: seq<seq<real>> := [];
    var b: seq<real> := [];
    var i := 0;
    while i < |constraints|
      invariant 0 <= i <= |constraints|
      invariant |a| == i && |b| == i
      invariant forall k :: 0 <= k < i ==>
                  ParseConstraint(constraints[k], parse) == Ok(Constraint(a[k], b[k]))
    {
      var parts := Split(constraints[i], ',');
      var x0 := parse(parts[0]);
      if x0.None? {
        return Err(ValueError);
      }
      if |parts| < 2 {
        return Err(IndexError);
      }
      var x1 := parse(parts[1]);
      if x1.None? {
        return Err(ValueError);
      }
      a := a + [[x0.value, x1.value]];
      if |parts| < 4 {
        return Err(IndexError);
      }
      var cap := parse(parts[3]);
      if cap.None? {
        return Err(ValueError);
      }
      b := b + [cap.value];
      i := i + 1;
    }
    return Ok(Inequalities(a, b));
  }

  /** The scalar product `u·x`. */
  function Dot(u: seq<real>, x: seq<real>): real
    requires |u| == |x|
  {
    if u == [] then 0.0 else u[0] * x[0] + Dot(u[1..], x[1..])
  }

  /** Negating every coefficient negates the scalar product. */
  lemma {:induction false} DotOfNegation(u: seq<real>, c: seq<real>, x: seq<real>)
    requires |u| == |c| == |x|
    requires forall k :: 0 <= k < |u| ==> c[k] == -u[k]
    ensures Dot(c, x) == -Dot(u, x)
  {
    if u != [] {
      DotOfNegation(u[1..], c[1..], x[1..]);
    }
  }

  /** The button: objective vector first, then the constraints in order, then
      the solver; a successful solve reports the quantities and `-res.fun`.
      When the solver's value is the objective at its quantities, the reported
      profit is the profit coefficients times those quantities. */
  method Optimise(profitText: string, constraint1: string, constraint2: string,
                  parse: NumberParser, solve: Solver) returns (o: Outcome)
    ensures var c := ObjectiveVector(profitText, parse);
            var k1 := ParseConstraint(constraint1, parse);
            var k2 := ParseConstraint(constraint2, parse);
            if c.Err? then o == Raised(c.error)
            else if k1.Err? then o == Raised(k1.error)
            else if k2.Err? then o == Raised(k2.error)
            else
              var res := solve(c.value, [k1.value.row, k2.value.row], [k1.value.capacity, k2.value.capacity]);
              o == (if res.success then Optimal(res.x, -res.fun) else SolverFailed)
    ensures o.Optimal? ==>
              var profits := ParseNumbers(Split(profitText, ','), parse);
              var c := ObjectiveVector(profitText, parse);
              profits.Ok? && c.Ok? &&
              (|o.x| == |c.value| && o.profit == -Dot(c.value, o.x) ==> o.profit == Dot(profits.value, o.x))
  {
    var c := ObjectiveVector(profitText, parse);
    if c.Err? {
      return Raised(c.error);
    }
    var constraints := [constraint1, constraint2];
    var system := AssembleConstraints(constraints, parse);
    if system.Err? {
      ghost var k :| 0 <= k < |constraints| &&
                     ParseConstraint(constraints[k], parse) == Err(system.error) &&
                     forall j :: 0 <= j < k ==> ParseConstraint(constraints[j], parse).Ok?;
      assert k == 1 ==> ParseConstraint(constraints[0], parse).Ok?;
      return Raised(system.error);
    }
    var res := solve(c.value, system.value.a, system.value.b);
    assert system.value.a == [system.value.a[0], system.value.a[1]];
    assert system.value.b == [system.value.b[0], system.value.b[1]];
    if res.success {
      o := Optimal(res.x, -res.fun);
      var profits := ParseNumbers(Split(profitText, ','), parse);
      if |res.x| == |c.value| {
        DotOfNegation(profits.value, c.value, res.x);
      }
    } else {
      o := SolverFailed;
    }
  }

  /** The page's default constraints `"1,1,<=40"` and `"2,1,<=60"` split into
      three fields, so the loop raises before reaching the solver: `IndexError`
      for `parts[3]` once `float` reads the leading numbers, `ValueError` otherwise. */
  lemma DefaultConstraintsRaise(parse: NumberParser)
    ensures ParseConstraint("1,1,<=40", parse).Err?
    ensures ParseConstraint("2,1,<=60", parse).Err?
    ensures parse("1").Some? ==> ParseConstraint("1,1,<=40", parse) == Err(IndexError)
    ensures parse("2").Some? && parse("1").Some? ==> ParseConstraint("2,1,<=60", parse) == Err(IndexError)
  {
    JoinThree("1", "1", "<=40", ',');
    assert "1" + [','] + "1" + [','] + "<=40" == "1,1,<=40";
    SplitJoin(["1", "1", "<=40"], ',');
    JoinThree("2", "1", "<=60", ',');
    assert "2" + [','] + "1" + [','] + "<=60" == "2,1,<=60";
    SplitJoin(["2", "1", "<=60"], ',');
  }

  /** Field 2 of a constraint has no effect: two constraint strings whose
      fields differ at most in the third parse to the same result. */
  lemma ThirdFieldIgnored(text1: string, text2: string, parse: NumberParser)
    requires |Split(text1, ',')| == |Split(text2, ',')|
    requires forall k :: 0 <= k < |Split(text1, ',')| && k != 2 ==> Split(text1, ',')[k] == Split(text2, ',')[k]
    ensures ParseConstraint(text1, parse) == ParseConstraint(text2, parse)
  {
    var p1, p2 := Split(text1, ','), Split(text2, ',');
    assert p1[0] == p2[0];
    assert |p1| >= 2 ==> p1[1] == p2[1];
    assert |p1| >= 4 ==> p1[3] == p2[3];
  }

  /** In particular, replacing the comparison text (field 2) of a constraint
      by any other comma-free text changes nothing, whatever follows it. */
  lemma ComparisonTextIgnored(f0: string, f1: string, x: string, y: string, rest: seq<string>,
                              parse: NumberParser)
    requires ',' !in f0 && ',' !in f1 && ',' !in x && ',' !in y
    requires forall k :: 0 <= k < |rest| ==> ',' !in rest[k]
    ensures ParseConstraint(Join([f0, f1, x] + rest, ','), parse)
            == ParseConstraint(Join([f0, f1, y] + rest, ','), parse)
  {
    var withX, withY := [f0, f1, x] + rest, [f0, f1, y] + rest;
    SeparatorFreeFields(f0, f1, x, rest, ',');
    SeparatorFreeFields(f0, f1, y, rest, ',');
    var text1, text2 := Join(withX, ','), Join(withY, ',');
    SplitJoin(withX, ',');
    SplitJoin(withY, ',');
    assert forall k :: 0 <= k < |withX| && k != 2 ==> withX[k] == withY[k];
    ThirdFieldIgnored(text1, text2, parse);
  }
}
