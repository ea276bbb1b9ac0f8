/** The values the dashboard reads out of an AeroMAPS process: the computed
    "process data" bundle, its tables of outputs indexed by year, the year
    lists, and the Python exceptions raised when any of them is malformed. */
module ProcessData {

  /** Python exception kinds the dashboard raises or lets through. */
  datatype Error =
    | ValueError(reason: Reason)
    | TypeError(reason: Reason)
    | KeyError
    | IndexError
    | ZeroDivisionError
    | AttributeError
    | NameError
      /** pandas yields an infinity or a NaN instead of raising */
    | NonFinite

  /** Which message accompanies a ValueError or a TypeError. */
  datatype Reason =
    | MissingKey(key: string)
    | NotAList(key: string)
    | NotATable(key: string)
    | NotADict(key: string)
    | NotANumber(key: string)
    | FormulaNotAList
    | MalformedVariable
    | InvalidOutputType(outputType: string)
    | InvalidYearSection(section: string)
    | MixedYearSections
    | InvalidToken(token: string)
    | InvalidTokenType
    | OperandCountMismatch
    | InvalidYearRange
    | UnknownVariable(table: string, name: string)
    | EvaluationFailed(cause: Error)
    | InvalidCardIds
    | CardNotFound(name: string)
    | AspectNotFound(name: string)
    | GroupCountOutOfRange
    | LegendLengthMismatch

  datatype Option<+T> = None | Some(value: T)

  /** Either a value or the exception the Python code raises. */
  datatype Result<+T> = Ok(value: T) | Err(error: Error) {
    predicate IsFailure() {
      Err?
    }

    function PropagateFailure<U>(): Result<U>
      requires Err?
    {
      Err(error)
    }

    function Extract(): T
      requires Ok?
    {
      value
    }
  }

  /** The four arithmetic operators of the formulas. */
  datatype Op = Add | Sub | Mul | Div

  /** One operator applied to two numbers; division needs a non-zero divisor. */
  function Arith(op: Op, x: real, y: real): real
    requires op == Div ==> y != 0.0
  {
    match op
    case Add => x + y
    case Sub => x - y
    case Mul => x * y
    case Div => x / y
  }

  predicate HasZero(s: seq<real>) {
    exists k :: 0 <= k < |s| && s[k] == 0.0
  }

  /** A pandas operator between two series over the same years: element by element. */
  function Combine(op: Op, a: seq<real>, b: seq<real>): (r: seq<real>)
    requires |a| == |b|
    requires op == Div ==> !HasZero(b)
    ensures |r| == |a|
    ensures forall k :: 0 <= k < |a| ==> r[k] == Arith(op, a[k], b[k])
  {
    seq(|a|, k requires 0 <= k < |a| => Arith(op, a[k], b[k]))
  }

  /** A pandas DataFrame of AeroMAPS outputs: one column per variable, each
      column indexed by year. */
  datatype Table = Table(columns: map<string, map<int, real>>)

  /** A pandas Series: values labelled by an index of years. */
  datatype Series = Series(index: seq<int>, values: seq<real>)

  /** The Python values found in the process data dictionary. */
  datatype PyValue =
    | PyInt(i: int)
    | PyFloat(f: real)
    | PyStr(s: string)
    | PyList(items: seq<PyValue>)
    | PyDict(entries: map<string, PyValue>)
    | PyTable(table: Table)
    | PyNone

  /** The process data: a dictionary from names to Python values. */
  type Bundle = map<string, PyValue>

  /** `table.loc[years, name]`: the column `name` read at every year of
      `years`, in that order; a missing column or year is a KeyError. */
  function Loc(t: Table, years: seq<int>, name: string): (r: Result<seq<real>>)
    ensures r.Ok? <==> name in t.columns && forall y :: y in years ==> y in t.columns[name]
    ensures r.Ok? ==> |r.value| == |years|
    ensures r.Ok? ==> name in t.columns && forall k :: 0 <= k < |years| ==>
                        years[k] in t.columns[name] && r.value[k] == t.columns[name][years[k]]
    ensures r.Err? ==> r.error == KeyError
  {
    if name !in t.columns then Err(KeyError)
    else
      var column := t.columns[name];
      if exists y :: y in years && y !in column then Err(KeyError)
      else Ok(seq(|years|, k requires 0 <= k < |years| => column[years[k]]))
  }

  /** The series holding `x` at every one of `years`. */
  function Constant(years: seq<int>, x: real): (r: seq<real>)
    ensures |r| == |years|
    ensures forall k :: 0 <= k < |r| ==> r[k] == x
  {
    seq(|years|, _ => x)
  }
}
