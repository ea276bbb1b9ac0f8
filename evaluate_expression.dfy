/** The Python-expression formulas of the dashboard's lines and areas,
    evaluated with every builtin disabled and only four names in scope:
    `vector_outputs(name)`, `climate_outputs(name)`, `min(a, b)` and
    `max(a, b)`. The expression is taken as already parsed. */
module EvaluateExpression {
  import opened ProcessData
  import opened ExtractProcessedData

  const AllowedYearRanges: seq<string> := ["full_years", "historic_years", "prospective_years"]

  /** A parsed formula. */
  datatype Expr =
    | Num(x: real)
    | VectorOutputs(name: string)
    | ClimateOutputs(name: string)
      /** any other name: nothing else is in scope */
    | Name(id: string)
    | Neg(e: Expr)
    | Binary(op: Op, left: Expr, right: Expr)
    | Min(a: Expr, b: Expr)
    | Max(a: Expr, b: Expr)

  /** A Python number or a pandas Series over the selected years. */
  datatype Value = Scalar(x: real) | Column(values: seq<real>)

  /** A value spread over `n` years. */
  function Broadcast(v: Value, n: nat): (r: seq<real>)
    requires v.Column? ==> |v.values| == n
    ensures |r| == n
  {
    if v.Scalar? then seq(n, _ => v.x) else v.values
  }

  /** `vector_outputs(name)` or `climate_outputs(name)`: an unknown column
      is a ValueError naming it; a missing year a KeyError. */
  function Accessor(t: Table, tableName: string, name: string, selected: seq<int>): (r: Result<Value>)
    ensures r.Ok? ==> r.value.Column? && |r.value.values| == |selected|
    ensures name !in t.columns ==> r == Err(ValueError(UnknownVariable(tableName, name)))
    ensures r.Ok? <==> name in t.columns && forall y :: y in selected ==> y in t.columns[name]
    ensures r.Ok? ==> name in t.columns && forall k :: 0 <= k < |selected| ==>
                        selected[k] in t.columns[name] && r.value.values[k] == t.columns[name][selected[k]]
  {
    if name !in t.columns then Err(ValueError(UnknownVariable(tableName, name)))
    else
      var values :- Loc(t, selected, name);
      Ok(Column(values))
  }

  /** A Python operator: on two numbers it may raise ZeroDivisionError; as
      soon as a series is involved pandas works element by element and a
      zero divisor gives an infinity or a NaN. */
  function ApplyBinary(op: Op, a: Value, b: Value, n: nat): (r: Result<Value>)
    requires a.Column? ==> |a.values| == n
    requires b.Column? ==> |b.values| == n
    ensures r.Ok? && r.value.Column? ==> |r.value.values| == n
    ensures a.Scalar? && b.Scalar? ==>
              if op == Div && b.x == 0.0 then r == Err(ZeroDivisionError) else r == Ok(Scalar(Arith(op, a.x, b.x)))
    ensures (a.Column? || b.Column?) ==>
              if op == Div && HasZero(Broadcast(b, n)) then r == Err(NonFinite)
              else
                && r.Ok? && r.value.Column?
                && forall k :: 0 <= k < n ==> r.value.values[k] == Arith(op, Broadcast(a, n)[k], Broadcast(b, n)[k])
  {
    if a.Scalar? && b.Scalar? then
      if op == Div && b.x == 0.0 then Err(ZeroDivisionError) else Ok(Scalar(Arith(op, a.x, b.x)))
    else
      var divisor := Broadcast(b, n);
      if op == Div && HasZero(divisor) then Err(NonFinite)
      else Ok(Column(Combine(op, Broadcast(a, n), divisor)))
  }

  /** Python's `max(x, y)` or `min(x, y)` on two numbers. */
  function Extreme(isMax: bool, x: real, y: real): (r: real)
    ensures r == x || r == y
    ensures isMax ==> r >= x && r >= y
    ensures !isMax ==> r <= x && r <= y
  {
    if isMax then (if y > x then y else x) else (if y < x then y else x)
  }

  /** The `min`/`max` of the evaluation scope: `a.combine(b, ...)` when either
      side is a series, which fails on a number followed by a series. */
  function ApplyExtreme(isMax: bool, a: Value, b: Value, n: nat): (r: Result<Value>)
    requires a.Column? ==> |a.values| == n
    requires b.Column? ==> |b.values| == n
    ensures r.Ok? && r.value.Column? ==> |r.value.values| == n
    ensures a.Scalar? && b.Scalar? ==> r == Ok(Scalar(Extreme(isMax, a.x, b.x)))
    ensures a.Scalar? && b.Column? ==> r == Err(AttributeError)
    ensures a.Column? ==>
              && r.Ok? && r.value.Column?
              && forall k :: 0 <= k < n ==> r.value.values[k] == Extreme(isMax, a.values[k], Broadcast(b, n)[k])
  {
    if a.Scalar? && b.Scalar? then Ok(Scalar(Extreme(isMax, a.x, b.x)))
    else if a.Scalar? then Err(AttributeError)
    else
      var other := Broadcast(b, n);
      Ok(Column(seq(n, k requires 0 <= k < n => Extreme(isMax, a.values[k], other[k]))))
  }

  /** Python's evaluation of `e`, operands from left to right. */
  function Eval(e: Expr, vector: Table, climate: Table, selected: seq<int>): (r: Result<Value>)
    ensures r.Ok? && r.value.Column? ==> |r.value.values| == |selected|
  {
    match e
    case Num(x) => Ok(Scalar(x))
    case VectorOutputs(name) => Accessor(vector, "vector_outputs", name, selected)
    case ClimateOutputs(name) => Accessor(climate, "climate_outputs", name, selected)
    case Name(_) => Err(NameError)
    case Neg(a) =>
      var v :- Eval(a, vector, climate, selected);
      Ok(if v.Scalar? then Scalar(-v.x) else Column(seq(|v.values|, k requires 0 <= k < |v.values| => -v.values[k])))
    case Binary(op, a, b) =>
      var x :- Eval(a, vector, climate, selected);
      var y :- Eval(b, vector, climate, selected);
      ApplyBinary(op, x, y, |selected|)
    case Min(a, b) =>
      var x :- Eval(a, vector, climate, selected);
      var y :- Eval(b, vector, climate, selected);
      ApplyExtreme(false, x, y, |selected|)
    case Max(a, b) =>
      var x :- Eval(a, vector, climate, selected);
      var y :- Eval(b, vector, climate, selected);
      ApplyExtreme(true, x, y, |selected|)
  }

  /** What `evaluate_expression_aeromaps` returns or raises; `None` stands
      for a year range passed as Python's None. */
  function Evaluate(b: Bundle, e: Expr, yearRange: Option<string>): (r: Result<Series>)
    ensures r.Ok? ==> |r.value.values| == |r.value.index|
    ensures r.Ok? ==> yearRange.Some? && yearRange.value in AllowedYearRanges && YearsOf(b).Ok? &&
                      yearRange.value in YearsOf(b).value && r.value.index == YearsOf(b).value[yearRange.value]
  {
    if yearRange.None? || yearRange.value !in AllowedYearRanges then Err(ValueError(InvalidYearRange))
    else
      var years :- YearsOf(b);
      if yearRange.value !in years then Err(KeyError)
      else
        var selected := years[yearRange.value];
        var vector :- GetDataframe(b, "vector_outputs");
        var climate :- GetDataframe(b, "climate_outputs");
        match Eval(e, vector, climate, selected)
        case Err(NonFinite) => Err(NonFinite)
        case Err(cause) => Err(ValueError(EvaluationFailed(cause)))
        case Ok(v) => Ok(Series(selected, Broadcast(v, |selected|)))
  }

  /** A process data whose years and both output tables are well formed. */
  predicate WellFormedData(b: Bundle) {
    WellFormedYears(b) && GetDataframe(b, "vector_outputs").Ok? && GetDataframe(b, "climate_outputs").Ok?
  }

  /** The years a well-formed process data selects for a valid range. */
  function SelectedYears(b: Bundle, yearRange: string): (years: seq<int>)
    requires WellFormedData(b) && yearRange in AllowedYearRanges
    ensures YearsOf(b).Ok? && yearRange in YearsOf(b).value && YearsOf(b).value[yearRange] == years
  {
    YearsOfWellFormed(b);
    YearsOf(b).value[yearRange]
  }

  /** The year range is checked before the process data is looked at. */
  lemma YearRangeCheckedFirst(b: Bundle, e: Expr, yearRange: Option<string>)
    requires yearRange.None? || yearRange.value !in AllowedYearRanges
    ensures Evaluate(b, e, yearRange) == Err(ValueError(InvalidYearRange))
  {
  }

  /** Whether `e` names anything outside the evaluation scope. */
  predicate MentionsUnknownName(e: Expr) {
    match e
    case Num(_) => false
    case VectorOutputs(_) => false
    case ClimateOutputs(_) => false
    case Name(_) => true
    case Neg(a) => MentionsUnknownName(a)
    case Binary(_, a, b) => MentionsUnknownName(a) || MentionsUnknownName(b)
    case Min(a, b) => MentionsUnknownName(a) || MentionsUnknownName(b)
    case Max(a, b) => MentionsUnknownName(a) || MentionsUnknownName(b)
  }

  /** Evaluation fails closed: an expression naming anything outside the
      scope never yields a value. */
  lemma {:induction false} UnknownNameFails(e: Expr, vector: Table, climate: Table, selected: seq<int>)
    requires MentionsUnknownName(e)
    ensures Eval(e, vector, climate, selected).Err?
  {
    match e
    case Name(_) =>
    case Neg(a) => UnknownNameFails(a, vector, climate, selected);
    case Binary(_, a, c) =>
      if MentionsUnknownName(a) {
        UnknownNameFails(a, vector, climate, selected);
      } else {
        UnknownNameFails(c, vector, climate, selected);
      }
    case Min(a, c) =>
      if MentionsUnknownName(a) {
        UnknownNameFails(a, vector, climate, selected);
      } else {
        UnknownNameFails(c, vector, climate, selected);
      }
    case Max(a, c) =>
      if MentionsUnknownName(a) {
        UnknownNameFails(a, vector, climate, selected);
      } else {
        UnknownNameFails(c, vector, climate, selected);
      }
  }

  /** ... and the whole evaluation then raises a ValueError (or, where a
      series was divided by zero first, gives a non-finite result). */
  lemma UnknownNameRejected(b: Bundle, e: Expr, yearRange: string)
    requires WellFormedData(b) && yearRange in AllowedYearRanges
    requires MentionsUnknownName(e)
    ensures var r := Evaluate(b, e, Some(yearRange));
      r == Err(NonFinite) || (r.Err? && r.error.ValueError? && r.error.reason.EvaluationFailed?)
  {
    var selected := SelectedYears(b, yearRange);
    UnknownNameFails(e, b["vector_outputs"].table, b["climate_outputs"].table, selected);
  }

  /** On well-formed data and an allowed range, the outcome is Python's
      evaluation of the expression: a number or a series spread over the
      selected years, and any failure re-raised as a ValueError naming its
      cause (a zero divisor in a series gives the non-finite result). */
  lemma EvaluateIsEval(b: Bundle, e: Expr, yearRange: string)
    requires WellFormedData(b) && yearRange in AllowedYearRanges
    ensures var selected := SelectedYears(b, yearRange);
      var v := Eval(e, b["vector_outputs"].table, b["climate_outputs"].table, selected);
      var r := Evaluate(b, e, Some(yearRange));
      && (r.Err? <==> v.Err?)
      && (v.Err? && v.error != NonFinite ==> r == Err(ValueError(EvaluationFailed(v.error))))
      && (v == Err(NonFinite) ==> r == Err(NonFinite))
      && (v.Ok? ==> r == Ok(Series(selected, Broadcast(v.value, |selected|))))
  {
    var _ := SelectedYears(b, yearRange);
  }

  /** Whether `e` reads an output table. */
  predicate ReadsTables(e: Expr) {
    match e
    case Num(_) => false
    case VectorOutputs(_) => true
    case ClimateOutputs(_) => true
    case Name(_) => false
    case Neg(a) => ReadsTables(a)
    case Binary(_, a, b) => ReadsTables(a) || ReadsTables(b)
    case Min(a, b) => ReadsTables(a) || ReadsTables(b)
    case Max(a, b) => ReadsTables(a) || ReadsTables(b)
  }

  /** An expression that reads no table evaluates to a number. */
  lemma {:induction false} NoTableIsScalar(e: Expr, vector: Table, climate: Table, selected: seq<int>)
    requires !ReadsTables(e) && Eval(e, vector, climate, selected).Ok?
    ensures Eval(e, vector, climate, selected).value.Scalar?
  {
    match e
    case Num(_) =>
    case Neg(a) => NoTableIsScalar(a, vector, climate, selected);
    case Binary(_, a, c) =>
      NoTableIsScalar(a, vector, climate, selected);
      NoTableIsScalar(c, vector, climate, selected);
    case Min(a, c) =>
      NoTableIsScalar(a, vector, climate, selected);
      NoTableIsScalar(c, vector, climate, selected);
    case Max(a, c) =>
      NoTableIsScalar(a, vector, climate, selected);
      NoTableIsScalar(c, vector, climate, selected);
  }

  /** A number is spread over every selected year. */
  lemma ScalarIsBroadcast(b: Bundle, e: Expr, yearRange: string)
    requires WellFormedData(b) && yearRange in AllowedYearRanges
    requires !ReadsTables(e)
    requires Evaluate(b, e, Some(yearRange)).Ok?
    ensures var selected := SelectedYears(b, yearRange);
      var v := Eval(e, b["vector_outputs"].table, b["climate_outputs"].table, selected);
      && Evaluate(b, e, Some(yearRange)).value.index == selected
      && v.Ok? && v.value.Scalar?
      && forall k :: 0 <= k < |selected| ==> Evaluate(b, e, Some(yearRange)).value.values[k] == v.value.x
  {
    var selected := SelectedYears(b, yearRange);
    NoTableIsScalar(e, b["vector_outputs"].table, b["climate_outputs"].table, selected);
  }

  /** An unknown column is reported as a ValueError naming it. */
  lemma UnknownVariableRejected(b: Bundle, name: string, yearRange: string)
    requires WellFormedData(b) && yearRange in AllowedYearRanges
    requires name !in b["vector_outputs"].table.columns
    ensures Evaluate(b, VectorOutputs(name), Some(yearRange))
              == Err(ValueError(EvaluationFailed(ValueError(UnknownVariable("vector_outputs", name)))))
  {
    var _ := SelectedYears(b, yearRange);
  }

  /** The sum of two outputs is their sum year by year. */
  lemma SumOfOutputs(b: Bundle, x: string, y: string, yearRange: string)
    requires WellFormedData(b) && yearRange in AllowedYearRanges
    requires var selected := SelectedYears(b, yearRange);
      Loc(b["vector_outputs"].table, selected, x).Ok? && Loc(b["climate_outputs"].table, selected, y).Ok?
    ensures var selected := SelectedYears(b, yearRange);
      var r := Evaluate(b, Binary(Add, VectorOutputs(x), ClimateOutputs(y)), Some(yearRange));
      && r.Ok? && r.value.index == selected
      && forall k :: 0 <= k < |selected| ==>
           r.value.values[k] == b["vector_outputs"].table.columns[x][selected[k]] + b["climate_outputs"].table.columns[y][selected[k]]
  {
    var selected := SelectedYears(b, yearRange);
    var vector, climate := b["vector_outputs"].table, b["climate_outputs"].table;
    var vx := Loc(vector, selected, x).value;
    var vy := Loc(climate, selected, y).value;
    assert Eval(VectorOutputs(x), vector, climate, selected) == Ok(Column(vx));
    assert Eval(ClimateOutputs(y), vector, climate, selected) == Ok(Column(vy));
    assert Eval(Binary(Add, VectorOutputs(x), ClimateOutputs(y)), vector, climate, selected) == Ok(Column(Combine(Add, vx, vy)));
  }

  /** `max(e, 0)` on a series clamps every year at zero and keeps the rest. */
  lemma MaxWithZeroClamps(e: Expr, vector: Table, climate: Table, selected: seq<int>)
    requires Eval(e, vector, climate, selected).Ok? && Eval(e, vector, climate, selected).value.Column?
    ensures var v := Eval(e, vector, climate, selected).value.values;
      var r := Eval(Max(e, Num(0.0)), vector, climate, selected);
      && r.Ok? && r.value.Column?
      && |r.value.values| == |v|
      && forall k :: 0 <= k < |v| ==> r.value.values[k] == (if v[k] >= 0.0 then v[k] else 0.0)
  {
  }

  /** `min(number, series)` fails: a number has no `combine`. */
  lemma ScalarThenSeriesFails(x: real, e: Expr, vector: Table, climate: Table, selected: seq<int>)
    requires Eval(e, vector, climate, selected).Ok? && Eval(e, vector, climate, selected).value.Column?
    ensures Eval(Min(Num(x), e), vector, climate, selected) == Err(AttributeError)
    ensures Eval(Max(Num(x), e), vector, climate, selected) == Err(AttributeError)
  {
  }
}
