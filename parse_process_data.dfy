/** The token-list formulas of the dashboard's aspect outputs: a flat list of
    constants, operators and AeroMAPS variables `[name, table, year section]`,
    evaluated strictly from left to right. */
module ParseProcessData {
  import opened ProcessData
  import opened Strings
  import opened ExtractProcessedData

  const OutputTypes: seq<string> := ["vector_outputs", "climate_outputs"]
  const YearSections: seq<string> := ["full_years", "historic_years", "prospective_years"]
  const Operators: seq<string> := ["+", "-", "*", "/"]

  function OperatorOf(s: string): Op
    requires s in Operators
  {
    if s == "+" then Add else if s == "-" then Sub else if s == "*" then Mul else Div
  }

  predicate AllStrings(items: seq<PyValue>) {
    forall i :: 0 <= i < |items| ==> items[i].PyStr?
  }

  predicate IsVariable(t: PyValue) {
    t.PyList? && |t.items| == 3 && AllStrings(t.items)
  }

  predicate IsOperator(t: PyValue) {
    t.PyStr? && t.s in Operators
  }

  /** The year section named by a variable token. */
  function SectionOf(t: PyValue): string
    requires IsVariable(t)
  {
    t.items[2].s
  }

  /** A token the splitting loop can take apart: a list of three strings,
      or a string (an operator, or the text `float` is given). */
  predicate WellFormed(t: PyValue) {
    IsVariable(t) || t.PyStr?
  }

  /** The check of one token, given the year section fixed by the variables
      before it. */
  function CheckToken(section: Option<string>, years: Years, t: PyValue): Result<Option<string>> {
    match t
    case PyList(items) =>
      if |items| != 3 || !AllStrings(items) then Err(ValueError(MalformedVariable))
      else if items[1].s !in OutputTypes then Err(ValueError(InvalidOutputType(items[1].s)))
      else if items[2].s !in years then Err(ValueError(InvalidYearSection(items[2].s)))
      else if section.None? then
        if items[2].s !in YearSections then Err(ValueError(InvalidYearSection(items[2].s)))
        else Ok(Some(items[2].s))
      else if section.value != items[2].s then Err(ValueError(MixedYearSections))
      else Ok(section)
    case PyStr(s) =>
      if s in Operators || ParseNumber(s).Some? then Ok(section) else Err(ValueError(InvalidToken(s)))
    case _ => Err(TypeError(InvalidTokenType))
  }

  /** The year section after checking every token of `tokens` in order. */
  function Validate(tokens: seq<PyValue>, years: Years): Result<Option<string>> {
    if tokens == [] then Ok(None)
    else
      var section :- Validate(tokens[..|tokens| - 1], years);
      CheckToken(section, years, tokens[|tokens| - 1])
  }

  /** The years the operands are read at: the formula's year section, or
      all years when it names no variable. */
  function SelectedYears(years: Years, section: Option<string>): Result<seq<int>> {
    var key := if section.Some? then section.value else "full_years";
    if key in years then Ok(years[key]) else Err(KeyError)
  }

  /** Every token of `tokens` is well formed. */
  predicate AllWellFormed(tokens: seq<PyValue>) {
    forall i :: 0 <= i < |tokens| ==> WellFormed(tokens[i])
  }

  /** The series one operand token stands for. */
  function Operand(t: PyValue, vector: Table, climate: Table, selected: seq<int>): (r: Result<seq<real>>)
    requires WellFormed(t) && !IsOperator(t)
    ensures r.Ok? ==> |r.value| == |selected|
  {
    if t.PyList? then
      var name, kind := t.items[0].s, t.items[1].s;
      if kind == "vector_outputs" then Loc(vector, selected, name)
      else if kind == "climate_outputs" then Loc(climate, selected, name)
      else Err(ValueError(InvalidOutputType(kind)))
    else match ParseNumber(t.s)
      case None => Err(ValueError(InvalidToken(t.s)))
      case Some(x) => Ok(Constant(selected, x))
  }

  /** The operand series of `tokens`, in order. */
  function Operands(tokens: seq<PyValue>, vector: Table, climate: Table, selected: seq<int>): (r: Result<seq<seq<real>>>)
    requires AllWellFormed(tokens)
    ensures r.Ok? ==> forall k :: 0 <= k < |r.value| ==> |r.value[k]| == |selected|
  {
    if tokens == [] then Ok([])
    else
      var acc :- Operands(tokens[..|tokens| - 1], vector, climate, selected);
      var t := tokens[|tokens| - 1];
      if IsOperator(t) then Ok(acc)
      else
        var o :- Operand(t, vector, climate, selected);
        Ok(acc + [o])
  }

  /** The operators of `tokens`, in order. */
  function OperatorsOf(tokens: seq<PyValue>): seq<Op> {
    if tokens == [] then []
    else
      var t := tokens[|tokens| - 1];
      OperatorsOf(tokens[..|tokens| - 1]) + if IsOperator(t) then [OperatorOf(t.s)] else []
  }

  /** One step of the fold: a division by a series holding a zero raises. */
  function Step(op: Op, acc: seq<real>, operand: seq<real>): (r: Result<seq<real>>)
    requires |acc| == |operand|
  {
    if op == Div && HasZero(operand) then Err(ZeroDivisionError) else Ok(Combine(op, acc, operand))
  }

  /** `first` combined with every operand of `rest` from left to right,
      without operator precedence. */
  function Fold(first: seq<real>, ops: seq<Op>, rest: seq<seq<real>>): (r: Result<seq<real>>)
    requires |ops| == |rest|
    requires forall k :: 0 <= k < |rest| ==> |rest[k]| == |first|
    ensures r.Ok? ==> |r.value| == |first|
  {
    if ops == [] then Ok(first)
    else
      var n := |ops| - 1;
      var acc :- Fold(first, ops[..n], rest[..n]);
      Step(ops[n], acc, rest[n])
  }

  /** What `calculate_aspect_output_value` returns or raises. */
  function AspectOutputValue(b: Bundle, formula: PyValue): Result<Series> {
    var vector :- GetDataframe(b, "vector_outputs");
    var climate :- GetDataframe(b, "climate_outputs");
    var years :- YearsOf(b);
    if !formula.PyList? then Err(TypeError(FormulaNotAList))
    else
      var tokens := formula.items;
      var section :- Validate(tokens, years);
      var selected :- SelectedYears(years, section);
      ValidatedTokensWellFormed(tokens, years);
      var operands :- Operands(tokens, vector, climate, selected);
      var ops := OperatorsOf(tokens);
      if |operands| - 1 != |ops| then Err(ValueError(OperandCountMismatch))
      else
        var values :- Fold(operands[0], ops, operands[1..]);
        Ok(Series(selected, values))
  }

  /** Every token of a formula that passed the checks is well formed. */
  lemma {:induction false} ValidatedTokensWellFormed(tokens: seq<PyValue>, years: Years)
    ensures Validate(tokens, years).Ok? ==> AllWellFormed(tokens)
  {
    if tokens != [] && Validate(tokens, years).Ok? {
      var prefix := tokens[..|tokens| - 1];
      ValidatedTokensWellFormed(prefix, years);
      forall i | 0 <= i < |tokens|
        ensures WellFormed(tokens[i])
      {
        if i < |prefix| {
          assert tokens[i] == prefix[i];
        }
      }
    }
  }

  lemma {:induction false} ValidateFailureSticks(tokens: seq<PyValue>, years: Years, j: nat)
    requires j <= |tokens| && Validate(tokens[..j], years).Err?
    ensures Validate(tokens, years) == Validate(tokens[..j], years)
    decreases |tokens| - j
  {
    if j < |tokens| {
      assert tokens[..j + 1][..j] == tokens[..j];
      ValidateFailureSticks(tokens, years, j + 1);
    } else {
      assert tokens[..j] == tokens;
    }
  }

  lemma {:induction false} OperandsFailureSticks(tokens: seq<PyValue>, vector: Table, climate: Table, selected: seq<int>, j: nat)
    requires AllWellFormed(tokens)
    requires j <= |tokens| && Operands(tokens[..j], vector, climate, selected).Err?
    ensures Operands(tokens, vector, climate, selected) == Operands(tokens[..j], vector, climate, selected)
    decreases |tokens| - j
  {
    if j < |tokens| {
      assert tokens[..j + 1][..j] == tokens[..j];
      OperandsFailureSticks(tokens, vector, climate, selected, j + 1);
    } else {
      assert tokens[..j] == tokens;
    }
  }

  lemma {:induction false} FoldFailureSticks(first: seq<real>, ops: seq<Op>, rest: seq<seq<real>>, j: nat)
    requires |ops| == |rest|
    requires forall k :: 0 <= k < |rest| ==> |rest[k]| == |first|
    requires j <= |ops| && Fold(first, ops[..j], rest[..j]).Err?
    ensures Fold(first, ops, rest) == Fold(first, ops[..j], rest[..j])
    decreases |ops| - j
  {
    if j < |ops| {
      assert ops[..j + 1][..j] == ops[..j];
      assert rest[..j + 1][..j] == rest[..j];
      FoldFailureSticks(first, ops, rest, j + 1);
    } else {
      assert ops[..j] == ops;
      assert rest[..j] == rest;
    }
  }

  /** The checks of one token in the checking loop of
      `calculate_aspect_output_value`: the year section afterwards, or the
      exception raised. */
  method CheckOneToken(section: Option<string>, years: Years, token: PyValue) returns (r: Result<Option<string>>)
    ensures r == CheckToken(section, years, token)
  {
    if token.PyList? {
      var items := token.items;
      if |items| != 3 || !AllStrings(items) {
        return Err(ValueError(MalformedVariable));
      }
      if items[1].s !in OutputTypes {
        return Err(ValueError(InvalidOutputType(items[1].s)));
      }
      if items[2].s !in years {
        return Err(ValueError(InvalidYearSection(items[2].s)));
      }
      if section.None? {
        if items[2].s !in YearSections {
          return Err(ValueError(InvalidYearSection(items[2].s)));
        }
        return Ok(Some(items[2].s));
      } else if section.value != items[2].s {
        return Err(ValueError(MixedYearSections));
      }
      return Ok(section);
    } else if token.PyStr? {
      if token.s !in Operators && ParseNumber(token.s).None? {
        return Err(ValueError(InvalidToken(token.s)));
      }
      return Ok(section);
    } else {
      return Err(TypeError(InvalidTokenType));
    }
  }

  /** The checking loop of `calculate_aspect_output_value`. */
  method ValidateFormula(tokens: seq<PyValue>, years: Years) returns (r: Result<Option<string>>)
    ensures r == Validate(tokens, years)
  {
    var section: Option<string> := None;
    var i := 0;
    while i < |tokens|
      invariant 0 <= i <= |tokens|
      invariant Validate(tokens[..i], years) == Ok(section)
    {
      assert tokens[..i + 1][..i] == tokens[..i];
      var checked := CheckOneToken(section, years, tokens[i]);
      if checked.Err? {
        ValidateFailureSticks(tokens, years, i + 1);
        return Err(checked.error);
      }
      section := checked.value;
      i := i + 1;
    }
    assert tokens[..i] == tokens;
    return Ok(section);
  }

  /** One more token: an operator extends the operators, any other token
      the operands, unless reading it fails. */
  lemma SplitStep(tokens: seq<PyValue>, vector: Table, climate: Table, selected: seq<int>, i: nat)
    requires AllWellFormed(tokens)
    requires i < |tokens|
    ensures OperatorsOf(tokens[..i + 1]) ==
              OperatorsOf(tokens[..i]) + if IsOperator(tokens[i]) then [OperatorOf(tokens[i].s)] else []
    ensures Operands(tokens[..i], vector, climate, selected).Ok? ==>
              Operands(tokens[..i + 1], vector, climate, selected) ==
                if IsOperator(tokens[i]) then Operands(tokens[..i], vector, climate, selected)
                else match Operand(tokens[i], vector, climate, selected)
                  case Err(e) => Err(e)
                  case Ok(o) => Ok(Operands(tokens[..i], vector, climate, selected).value + [o])
  {
    assert tokens[..i + 1][..i] == tokens[..i];
  }

  /** One operand of the splitting loop: a variable is read from the
      table its type names at the selected years, a constant is repeated
      over them. */
  method ReadOperand(token: PyValue, vector: Table, climate: Table, selected: seq<int>) returns (r: Result<seq<real>>)
    requires WellFormed(token) && !IsOperator(token)
    ensures r == Operand(token, vector, climate, selected)
  {
    if token.PyList? {
      var name, kind := token.items[0].s, token.items[1].s;
      if kind == "vector_outputs" {
        r := Loc(vector, selected, name);
      } else if kind == "climate_outputs" {
        r := Loc(climate, selected, name);
      } else {
        r := Err(ValueError(InvalidOutputType(kind)));
      }
    } else {
      var x := ParseNumber(token.s);
      if x.None? {
        r := Err(ValueError(InvalidToken(token.s)));
      } else {
        r := Ok(Constant(selected, x.value));
      }
    }
  }

  /** The splitting loop of `calculate_aspect_output_value`: operand series
      and operators, each in formula order. */
  method SplitFormula(tokens: seq<PyValue>, vector: Table, climate: Table, selected: seq<int>)
    returns (r: Result<seq<seq<real>>>, operators: seq<Op>)
    requires AllWellFormed(tokens)
    ensures r == Operands(tokens, vector, climate, selected)
    ensures operators == OperatorsOf(tokens)
  {
    var operands: seq<seq<real>> := [];
    operators := [];
    var i := 0;
    while i < |tokens|
      invariant 0 <= i <= |tokens|
      invariant Operands(tokens[..i], vector, climate, selected) == Ok(operands)
      invariant OperatorsOf(tokens[..i]) == operators
    {
      SplitStep(tokens, vector, climate, selected, i);
      var token := tokens[i];
      if IsOperator(token) {
        operators := operators + [OperatorOf(token.s)];
      } else {
        var column := ReadOperand(token, vector, climate, selected);
        if column.Err? {
          OperandsFailureSticks(tokens, vector, climate, selected, i + 1);
          operators := OperatorsOf(tokens);
          return Err(column.error), operators;
        }
        operands := operands + [column.value];
      }
      i := i + 1;
    }
    assert tokens[..i] == tokens;
    return Ok(operands), operators;
  }

  /** The folding loop of `calculate_aspect_output_value`. */
  method FoldFormula(first: seq<real>, ops: seq<Op>, rest: seq<seq<real>>) returns (r: Result<seq<real>>)
    requires |ops| == |rest|
    requires forall k :: 0 <= k < |rest| ==> |rest[k]| == |first|
    ensures r == Fold(first, ops, rest)
  {
    var result := first;
    var k := 0;
    while k < |ops|
      invariant 0 <= k <= |ops|
      invariant Fold(first, ops[..k], rest[..k]) == Ok(result)
      invariant |result| == |first|
    {
      assert ops[..k + 1][..k] == ops[..k];
      assert rest[..k + 1][..k] == rest[..k];
      var operand := rest[k];
      if ops[k] == Div && exists j | 0 <= j < |operand| :: operand[j] == 0.0 {
        FoldFailureSticks(first, ops, rest, k + 1);
        return Err(ZeroDivisionError);
      }
      result := Combine(ops[k], result, operand);
      k := k + 1;
    }
    assert ops[..k] == ops;
    assert rest[..k] == rest;
    return Ok(result);
  }

  /** `calculate_aspect_output_value`: checks the formula token by token,
      splits it into operands and operators, then folds from left to right. */
  method CalculateAspectOutputValue(b: Bundle, formula: PyValue) returns (r: Result<Series>)
    ensures r == AspectOutputValue(b, formula)
  {
    var vectorOutputs := GetDataframe(b, "vector_outputs");
    if vectorOutputs.Err? {
      return Err(vectorOutputs.error);
    }
    var climateOutputs := GetDataframe(b, "climate_outputs");
    if climateOutputs.Err? {
      return Err(climateOutputs.error);
    }
    var yearsData := GetYears(b);
    if yearsData.Err? {
      return Err(yearsData.error);
    }
    if !formula.PyList? {
      return Err(TypeError(FormulaNotAList));
    }
    var tokens := formula.items;
    var section := ValidateFormula(tokens, yearsData.value);
    if section.Err? {
      return Err(section.error);
    }
    var selected := SelectedYears(yearsData.value, section.value);
    if selected.Err? {
      return Err(selected.error);
    }
    ValidatedTokensWellFormed(tokens, yearsData.value);
    var operands, operators := SplitFormula(tokens, vectorOutputs.value, climateOutputs.value, selected.value);
    if operands.Err? {
      return Err(operands.error);
    }
    if |operands.value| - 1 != |operators| {
      return Err(ValueError(OperandCountMismatch));
    }
    var values := FoldFormula(operands.value[0], operators, operands.value[1..]);
    if values.Err? {
      return Err(values.error);
    }
    return Ok(Series(selected.value, values.value));
  }

  /** The scalar left fold a formula computes at one year; `None` where a
      division by zero raises. */
  function ScalarFold(x: real, ops: seq<Op>, ys: seq<real>): Option<real>
    requires |ops| == |ys|
  {
    if ops == [] then Some(x)
    else
      var n := |ops| - 1;
      match ScalarFold(x, ops[..n], ys[..n])
      case None => None
      case Some(a) => if ops[n] == Div && ys[n] == 0.0 then None else Some(Arith(ops[n], a, ys[n]))
  }

  /** The values of every operand at position `j`. */
  function Column(rest: seq<seq<real>>, j: nat): (c: seq<real>)
    requires forall k :: 0 <= k < |rest| ==> j < |rest[k]|
    ensures |c| == |rest|
  {
    seq(|rest|, k requires 0 <= k < |rest| => rest[k][j])
  }

  /** The fold fails exactly when some division has a divisor series holding
      a zero, and the failure is a ZeroDivisionError. */
  lemma {:induction false} FoldFailsOnZeroDivisor(first: seq<real>, ops: seq<Op>, rest: seq<seq<real>>)
    requires |ops| == |rest|
    requires forall k :: 0 <= k < |rest| ==> |rest[k]| == |first|
    ensures Fold(first, ops, rest).Err? <==> exists k :: 0 <= k < |ops| && ops[k] == Div && HasZero(rest[k])
    ensures Fold(first, ops, rest).Err? ==> Fold(first, ops, rest).error == ZeroDivisionError
  {
    if ops != [] {
      var n := |ops| - 1;
      FoldFailsOnZeroDivisor(first, ops[..n], rest[..n]);
      if exists k :: 0 <= k < n && ops[..n][k] == Div && HasZero(rest[..n][k]) {
        var k :| 0 <= k < n && ops[..n][k] == Div && HasZero(rest[..n][k]);
        assert ops[k] == Div && HasZero(rest[k]);
      }
      if exists k :: 0 <= k < |ops| && ops[k] == Div && HasZero(rest[k]) {
        var k :| 0 <= k < |ops| && ops[k] == Div && HasZero(rest[k]);
        if k < n {
          assert ops[..n][k] == Div && HasZero(rest[..n][k]);
        }
      }
    }
  }

  /** The series fold is the scalar fold taken year by year. */
  lemma {:induction false} FoldIsPointwise(first: seq<real>, ops: seq<Op>, rest: seq<seq<real>>)
    requires |ops| == |rest|
    requires forall k :: 0 <= k < |rest| ==> |rest[k]| == |first|
    ensures Fold(first, ops, rest).Ok? ==>
              forall j :: 0 <= j < |first| ==>
                ScalarFold(first[j], ops, Column(rest, j)) == Some(Fold(first, ops, rest).value[j])
  {
    if ops != [] && Fold(first, ops, rest).Ok? {
      var n := |ops| - 1;
      FoldIsPointwise(first, ops[..n], rest[..n]);
      var acc := Fold(first, ops[..n], rest[..n]).value;
      forall j | 0 <= j < |first|
        ensures ScalarFold(first[j], ops, Column(rest, j)) == Some(Fold(first, ops, rest).value[j])
      {
        assert Column(rest, j)[..n] == Column(rest[..n], j);
        if ops[n] == Div {
          assert rest[n][j] != 0.0;
        }
      }
    }
  }

  /** A token the checks accept whatever came before it. */
  predicate Acceptable(t: PyValue, years: Years) {
    || (IsVariable(t) && t.items[1].s in OutputTypes && SectionOf(t) in years && SectionOf(t) in YearSections)
    || (t.PyStr? && (t.s in Operators || ParseNumber(t.s).Some?))
  }

  predicate AllAcceptable(tokens: seq<PyValue>, years: Years) {
    forall i :: 0 <= i < |tokens| ==> Acceptable(tokens[i], years)
  }

  /** All variables of `tokens` use one year section. */
  predicate OneSection(tokens: seq<PyValue>) {
    forall i, j :: 0 <= i < |tokens| && 0 <= j < |tokens| && IsVariable(tokens[i]) && IsVariable(tokens[j])
      ==> SectionOf(tokens[i]) == SectionOf(tokens[j])
  }

  /** `section` is the year section of every variable of `tokens`, and none
      exactly when there is no variable. */
  predicate SectionOfAll(tokens: seq<PyValue>, section: Option<string>) {
    && (section.None? <==> forall i :: 0 <= i < |tokens| ==> !IsVariable(tokens[i]))
    && forall i :: 0 <= i < |tokens| && IsVariable(tokens[i]) ==> section == Some(SectionOf(tokens[i]))
  }

  /** What one accepted token contributes: a variable fixes or repeats the
      section, any other token leaves it as it was. */
  lemma CheckTokenAccepted(section: Option<string>, years: Years, t: PyValue)
    requires CheckToken(section, years, t).Ok?
    ensures Acceptable(t, years) || section.Some?
    ensures IsVariable(t) ==> t.items[1].s in OutputTypes && SectionOf(t) in years
    ensures IsVariable(t) && section.None? ==> Acceptable(t, years) && CheckToken(section, years, t).value == Some(SectionOf(t))
    ensures IsVariable(t) && section.Some? ==> SectionOf(t) == section.value && CheckToken(section, years, t).value == section
    ensures !IsVariable(t) ==> Acceptable(t, years) && CheckToken(section, years, t).value == section
  {
  }

  /** An acceptable token whose section agrees with the one so far is accepted. */
  lemma CheckTokenAccepts(section: Option<string>, years: Years, t: PyValue)
    requires Acceptable(t, years)
    requires IsVariable(t) && section.Some? ==> SectionOf(t) == section.value
    ensures CheckToken(section, years, t).Ok?
  {
  }

  /** What the checks accept is acceptable token by token, and the section
      they return is that of every variable. */
  lemma {:induction false} ValidateSound(tokens: seq<PyValue>, years: Years)
    requires Validate(tokens, years).Ok?
    ensures AllAcceptable(tokens, years)
    ensures SectionOfAll(tokens, Validate(tokens, years).value)
  {
    if tokens != [] {
      var n := |tokens| - 1;
      var prefix := tokens[..n];
      ValidateSound(prefix, years);
      var section := Validate(prefix, years).value;
      var t := tokens[n];
      assert Validate(tokens, years) == CheckToken(section, years, t);
      var result := CheckToken(section, years, t).value;
      CheckTokenAccepted(section, years, t);
      if section.Some? && IsVariable(t) {
        var i :| 0 <= i < n && IsVariable(prefix[i]);
        assert Acceptable(prefix[i], years);
      }
      assert Acceptable(t, years);
      forall i | 0 <= i < |tokens|
        ensures Acceptable(tokens[i], years)
        ensures IsVariable(tokens[i]) ==> result == Some(SectionOf(tokens[i]))
      {
        if i < n {
          assert tokens[i] == prefix[i];
        }
      }
      if result.None? {
        assert section.None? && !IsVariable(t);
        forall i | 0 <= i < |tokens|
          ensures !IsVariable(tokens[i])
        {
          if i < n {
            assert tokens[i] == prefix[i];
          }
        }
      }
    }
  }

  /** Acceptable tokens whose variables share one section pass the checks. */
  lemma {:induction false} ValidateComplete(tokens: seq<PyValue>, years: Years)
    requires AllAcceptable(tokens, years) && OneSection(tokens)
    ensures Validate(tokens, years).Ok?
  {
    if tokens != [] {
      var n := |tokens| - 1;
      var prefix := tokens[..n];
      forall i | 0 <= i < n
        ensures tokens[i] == prefix[i]
      {
      }
      ValidateComplete(prefix, years);
      ValidateSound(prefix, years);
      var section := Validate(prefix, years).value;
      var t := tokens[n];
      if IsVariable(t) && section.Some? {
        var i :| 0 <= i < n && IsVariable(prefix[i]);
        assert IsVariable(tokens[i]) && IsVariable(tokens[n]);
      }
      CheckTokenAccepts(section, years, t);
    }
  }

  /** The checks accept a formula exactly when every token is acceptable on
      its own and all its variables use one year section, which is then the
      section returned. */
  lemma ValidateCharacterized(tokens: seq<PyValue>, years: Years)
    ensures Validate(tokens, years).Ok? <==> AllAcceptable(tokens, years) && OneSection(tokens)
    ensures Validate(tokens, years).Ok? ==> SectionOfAll(tokens, Validate(tokens, years).value)
  {
    if Validate(tokens, years).Ok? {
      ValidateSound(tokens, years);
    }
    if AllAcceptable(tokens, years) && OneSection(tokens) {
      ValidateComplete(tokens, years);
    }
  }

  /** The result is indexed by the year section of the formula's variables,
      or by all years when it has none, and holds one value per year. */
  lemma ResultIndexedBySection(b: Bundle, formula: PyValue)
    requires AspectOutputValue(b, formula).Ok?
    ensures formula.PyList? && YearsOf(b).Ok?
    ensures var r := AspectOutputValue(b, formula).value;
      && |r.values| == |r.index|
      && ((forall i :: 0 <= i < |formula.items| ==> !IsVariable(formula.items[i]))
            ==> "full_years" in YearsOf(b).value && r.index == YearsOf(b).value["full_years"])
      && (forall i :: 0 <= i < |formula.items| && IsVariable(formula.items[i])
            ==> SectionOf(formula.items[i]) in YearsOf(b).value && r.index == YearsOf(b).value[SectionOf(formula.items[i])])
  {
    ValidateCharacterized(formula.items, YearsOf(b).value);
  }

  /** The empty formula has no operand and is rejected. */
  lemma EmptyFormulaRejected(b: Bundle)
    requires GetDataframe(b, "vector_outputs").Ok? && GetDataframe(b, "climate_outputs").Ok?
    requires WellFormedYears(b)
    ensures AspectOutputValue(b, PyList([])) == Err(ValueError(OperandCountMismatch))
  {
    YearsOfWellFormed(b);
  }

  /** A one-digit constant token parses to its digit. */
  lemma DigitParses(d: nat)
    requires d < 10
    ensures ParseNumber([DigitChar(d)]) == Some(d as real)
  {
    assert NatToString(d) == [DigitChar(d)];
    IntToStringParses(d);
  }

  /** The constant tokens "2", "3" and "4" and their series. */
  lemma DigitTokens(vector: Table, climate: Table, full: seq<int>)
    ensures IsOperator(PyStr("+")) && IsOperator(PyStr("*"))
    ensures Operand(PyStr("2"), vector, climate, full) == Ok(Constant(full, 2.0))
    ensures Operand(PyStr("3"), vector, climate, full) == Ok(Constant(full, 3.0))
    ensures Operand(PyStr("4"), vector, climate, full) == Ok(Constant(full, 4.0))
  {
    DigitParses(2);
    DigitParses(3);
    DigitParses(4);
    assert DigitChar(2) == '2' && DigitChar(3) == '3' && DigitChar(4) == '4';
    assert ParseNumber("2") == Some(2.0) && ParseNumber("3") == Some(3.0) && ParseNumber("4") == Some(4.0);
  }

  /** An operator token adds to the operators and leaves the operands. */
  lemma OperatorStep(tokens: seq<PyValue>, vector: Table, climate: Table, selected: seq<int>, i: nat)
    requires AllWellFormed(tokens) && i < |tokens| && IsOperator(tokens[i])
    ensures Operands(tokens[..i + 1], vector, climate, selected) == Operands(tokens[..i], vector, climate, selected)
    ensures OperatorsOf(tokens[..i + 1]) == OperatorsOf(tokens[..i]) + [OperatorOf(tokens[i].s)]
  {
    assert tokens[..i + 1][..i] == tokens[..i];
  }

  /** An operand token that reads adds its series to the operands and
      leaves the operators. */
  lemma OperandStep(tokens: seq<PyValue>, vector: Table, climate: Table, selected: seq<int>, i: nat,
                    acc: seq<seq<real>>, o: seq<real>)
    requires AllWellFormed(tokens) && i < |tokens| && !IsOperator(tokens[i])
    requires Operands(tokens[..i], vector, climate, selected) == Ok(acc)
    requires Operand(tokens[i], vector, climate, selected) == Ok(o)
    ensures Operands(tokens[..i + 1], vector, climate, selected) == Ok(acc + [o])
    ensures OperatorsOf(tokens[..i + 1]) == OperatorsOf(tokens[..i])
  {
    assert tokens[..i + 1][..i] == tokens[..i];
  }

  /** The first three tokens of an alternating formula: two operands and
      the operator between them. */
  lemma OperandsOfThree(tokens: seq<PyValue>, vector: Table, climate: Table, selected: seq<int>,
                        o0: seq<real>, o2: seq<real>)
    requires |tokens| >= 3 && AllWellFormed(tokens)
    requires !IsOperator(tokens[0]) && IsOperator(tokens[1]) && !IsOperator(tokens[2])
    requires Operand(tokens[0], vector, climate, selected) == Ok(o0)
    requires Operand(tokens[2], vector, climate, selected) == Ok(o2)
    ensures Operands(tokens[..3], vector, climate, selected) == Ok([o0, o2])
    ensures OperatorsOf(tokens[..3]) == [OperatorOf(tokens[1].s)]
  {
    assert tokens[..0] == [];
    assert Operands(tokens[..0], vector, climate, selected) == Ok([]);
    assert OperatorsOf(tokens[..0]) == [];
    OperandStep(tokens, vector, climate, selected, 0, [], o0);
    OperatorStep(tokens, vector, climate, selected, 1);
    OperandStep(tokens, vector, climate, selected, 2, [] + [o0], o2);
    assert [] + [o0] + [o2] == [o0, o2];
  }

  /** A formula alternating operand, operator, operand, operator, operand
      splits into its three operand series and its two operators. */
  lemma OperandsOfFive(tokens: seq<PyValue>, vector: Table, climate: Table, selected: seq<int>,
                       o0: seq<real>, o2: seq<real>, o4: seq<real>)
    requires |tokens| == 5 && AllWellFormed(tokens)
    requires !IsOperator(tokens[0]) && IsOperator(tokens[1]) && !IsOperator(tokens[2])
    requires IsOperator(tokens[3]) && !IsOperator(tokens[4])
    requires Operand(tokens[0], vector, climate, selected) == Ok(o0)
    requires Operand(tokens[2], vector, climate, selected) == Ok(o2)
    requires Operand(tokens[4], vector, climate, selected) == Ok(o4)
    ensures Operands(tokens, vector, climate, selected) == Ok([o0, o2, o4])
    ensures OperatorsOf(tokens) == [OperatorOf(tokens[1].s), OperatorOf(tokens[3].s)]
  {
    OperandsOfThree(tokens, vector, climate, selected, o0, o2);
    OperatorStep(tokens, vector, climate, selected, 3);
    OperandStep(tokens, vector, climate, selected, 4, [o0, o2], o4);
    assert [o0, o2] + [o4] == [o0, o2, o4];
    assert tokens[..5] == tokens;
  }

  lemma ConstantOperands(vector: Table, climate: Table, full: seq<int>)
    ensures var tokens := [PyStr("2"), PyStr("+"), PyStr("3"), PyStr("*"), PyStr("4")];
      && AllWellFormed(tokens)
      && Operands(tokens, vector, climate, full) == Ok([Constant(full, 2.0), Constant(full, 3.0), Constant(full, 4.0)])
      && OperatorsOf(tokens) == [Add, Mul]
  {
    DigitTokens(vector, climate, full);
    var tokens := [PyStr("2"), PyStr("+"), PyStr("3"), PyStr("*"), PyStr("4")];
    OperandsOfFive(tokens, vector, climate, full, Constant(full, 2.0), Constant(full, 3.0), Constant(full, 4.0));
  }

  lemma ConstantTokensAccepted(years: Years)
    ensures Validate([PyStr("2"), PyStr("+"), PyStr("3"), PyStr("*"), PyStr("4")], years) == Ok(None)
  {
    var tokens := [PyStr("2"), PyStr("+"), PyStr("3"), PyStr("*"), PyStr("4")];
    DigitTokens(Table(map[]), Table(map[]), []);
    forall i | 0 <= i < |tokens|
      ensures Acceptable(tokens[i], years) && !IsVariable(tokens[i])
    {
    }
    ValidateCharacterized(tokens, years);
  }

  lemma LeftToRightFold(full: seq<int>)
    ensures Fold(Constant(full, 2.0), [Add, Mul], [Constant(full, 3.0), Constant(full, 4.0)]) == Ok(Constant(full, 20.0))
  {
    var c2, c3, c4 := Constant(full, 2.0), Constant(full, 3.0), Constant(full, 4.0);
    assert [Add, Mul][..1] == [Add] && [c3, c4][..1] == [c3];
    assert [Add][..0] == [] && [c3][..0] == [];
    var c5 := Constant(full, 5.0);
    assert Combine(Add, c2, c3) == c5;
    assert Fold(c2, [], []) == Ok(c2);
    assert Fold(c2, [Add], [c3]) == Ok(c5);
    assert Combine(Mul, c5, c4) == Constant(full, 20.0);
  }

  /** No operator precedence: "2 + 3 * 4" is (2 + 3) * 4 at every year. */
  lemma NoOperatorPrecedence(b: Bundle)
    requires GetDataframe(b, "vector_outputs").Ok? && GetDataframe(b, "climate_outputs").Ok?
    requires WellFormedYears(b)
    ensures var full := Ints(b["years"].entries["full_years"].items);
      AspectOutputValue(b, PyList([PyStr("2"), PyStr("+"), PyStr("3"), PyStr("*"), PyStr("4")]))
        == Ok(Series(full, Constant(full, 20.0)))
  {
    YearsOfWellFormed(b);
    var years := YearsOf(b).value;
    var full := years["full_years"];
    var vector, climate := b["vector_outputs"].table, b["climate_outputs"].table;
    ConstantTokensAccepted(years);
    assert SelectedYears(years, None) == Ok(full);
    ConstantOperands(vector, climate, full);
    var c2, c3, c4 := Constant(full, 2.0), Constant(full, 3.0), Constant(full, 4.0);
    assert [c2, c3, c4][1..] == [c3, c4];
    LeftToRightFold(full);
  }
}
