/** `src/core/aeromaps_utils/TEMPORARY_FILE_multidisciplinary_graph_utils.py`:
    the four consumption and the four budget percentages of the
    multidisciplinary graph, in the order effective radiative forcing, CO2,
    biomass, electricity. */
module MultidisciplinaryGraphUtils {
  import opened ProcessData
  import opened ExtractProcessedData

  /** `process_data[key]`. */
  function Field(b: Bundle, key: string): Result<PyValue> {
    if key in b then Ok(b[key]) else Err(KeyError)
  }

  /** `d[key]` read as a number: a container that is not a dictionary is a
      TypeError, a missing key a KeyError, a value that is not a number a
      TypeError. */
  function Number(d: PyValue, key: string): (r: Result<real>)
    ensures r.Ok? <==> d.PyDict? && key in d.entries && (d.entries[key].PyFloat? || d.entries[key].PyInt?)
  {
    if !d.PyDict? then Err(TypeError(NotADict(key)))
    else if key !in d.entries then Err(KeyError)
    else match d.entries[key]
      case PyFloat(f) => Ok(f)
      case PyInt(i) => Ok(i as real)
      case _ => Err(TypeError(NotANumber(key)))
  }

  /** `float(table.loc[2050, name])`. */
  function At2050(t: Table, name: string): (r: Result<real>)
    ensures r.Ok? <==> name in t.columns && 2050 in t.columns[name]
    ensures r.Ok? ==> r.value == t.columns[name][2050]
  {
    var v :- Loc(t, [2050], name);
    Ok(v[0])
  }

  /** A share of a total, as one bar of the graph divides them. */
  datatype Ratio = Ratio(part: real, total: real)

  /** `part / total * 100`: a zero total is a ZeroDivisionError. */
  function Percent(q: Ratio): (r: Result<real>)
    ensures r.Ok? <==> q.total != 0.0
    ensures r.Err? ==> r.error == ZeroDivisionError
    ensures r.Ok? ==> r.value * q.total == q.part * 100.0
  {
    if q.total == 0.0 then Err(ZeroDivisionError) else Ok(q.part / q.total * 100.0)
  }

  /** Every ratio as a percentage, in order; the first zero total raises. */
  function Percentages(qs: seq<Ratio>): (r: Result<seq<real>>)
    ensures r.Ok? <==> forall i :: 0 <= i < |qs| ==> qs[i].total != 0.0
    ensures r.Err? ==> r.error == ZeroDivisionError
    ensures r.Ok? ==> |r.value| == |qs| &&
                      forall i :: 0 <= i < |qs| ==> Percent(qs[i]) == Ok(r.value[i])
  {
    if qs == [] then Ok([])
    else
      var first :- Percent(qs[0]);
      var rest :- Percentages(qs[1..]);
      assert forall i :: 1 <= i < |qs| ==> qs[i] == qs[1..][i - 1];
      Ok([first] + rest)
  }

  /** Python's `max(x, 0)`. */
  function AtLeastZero(x: real): (r: real)
    ensures r >= 0.0 && r >= x
    ensures r == x || r == 0.0
  {
    if x >= 0.0 then x else 0.0
  }

  /** One bar's two reads, the total first and then the part: the first of
      them that fails is what fails. */
  function RatioOf(total: Result<real>, part: Result<real>): (r: Result<Ratio>)
    ensures r.Ok? <==> total.Ok? && part.Ok?
    ensures r.Ok? ==> r.value.total == total.value && r.value.part == part.value
    ensures r.Err? ==> r.error == if total.Err? then total.error else part.error
  {
    var t :- total;
    var p :- part;
    Ok(Ratio(p, t))
  }

  /** The number reads of `M_plot_consumptions` from its two dictionaries
      and its two tables, in the order it makes them: the carbon, biomass,
      electricity and radiative-forcing pairs. */
  function ConsumptionReads(inputs: PyValue, outputs: PyValue, vector: Table, climate: Table): (r: Result<seq<Ratio>>)
    ensures r.Ok? ==> |r.value| == 4
  {
    var carbon :- RatioOf(Number(outputs, "gross_carbon_budget_2050"), At2050(vector, "cumulative_co2_emissions"));
    var biomass :- RatioOf(Number(outputs, "available_biomass_total"), Number(outputs, "biomass_consumption_end_year"));
    var electricity :- RatioOf(Number(inputs, "available_electricity"), Number(outputs, "electricity_consumption_end_year"));
    var forcing :- RatioOf(Number(outputs, "equivalent_gross_carbon_budget_2050"),
                           At2050(climate, "cumulative_total_equivalent_emissions"));
    Ok([forcing, carbon, biomass, electricity])
  }

  /** The reads of `M_plot_consumptions`: the two dictionaries and the two
      tables, then their numbers. */
  function ConsumptionRatios(b: Bundle): (r: Result<seq<Ratio>>)
    ensures r.Ok? ==> |r.value| == 4
  {
    var inputs :- Field(b, "float_inputs");
    var outputs :- Field(b, "float_outputs");
    var vector :- GetDataframe(b, "vector_outputs");
    var climate :- GetDataframe(b, "climate_outputs");
    ConsumptionReads(inputs, outputs, vector, climate)
  }

  /** The consumption list of four ratios: every percentage, the first
      clamped at zero. */
  function ConsumptionsOf(qs: seq<Ratio>): Result<seq<real>>
    requires |qs| > 0
  {
    var ps :- Percentages(qs);
    Ok([AtLeastZero(ps[0])] + ps[1..])
  }

  /** `M_plot_consumptions`. */
  function Consumptions(b: Bundle): Result<seq<real>> {
    var qs :- ConsumptionRatios(b);
    ConsumptionsOf(qs)
  }

  /** The number reads of `M_plot_budgets` from its two dictionaries, in
      the order it makes them: the carbon, biomass, electricity and
      radiative-forcing pairs. */
  function BudgetReads(inputs: PyValue, outputs: PyValue): (r: Result<seq<Ratio>>)
    ensures r.Ok? ==> |r.value| == 4
  {
    var carbon :- RatioOf(Number(outputs, "gross_carbon_budget_2050"), Number(outputs, "aviation_carbon_budget"));
    var biomass :- RatioOf(Number(outputs, "available_biomass_total"), Number(outputs, "aviation_available_biomass"));
    var electricity :- RatioOf(Number(inputs, "available_electricity"), Number(outputs, "aviation_available_electricity"));
    var forcing :- RatioOf(Number(outputs, "equivalent_gross_carbon_budget_2050"),
                           Number(outputs, "aviation_equivalent_carbon_budget"));
    Ok([forcing, carbon, biomass, electricity])
  }

  /** The reads of `M_plot_budgets`: the two dictionaries, then their
      numbers. */
  function BudgetRatios(b: Bundle): (r: Result<seq<Ratio>>)
    ensures r.Ok? ==> |r.value| == 4
  {
    var inputs :- Field(b, "float_inputs");
    var outputs :- Field(b, "float_outputs");
    BudgetReads(inputs, outputs)
  }

  /** `M_plot_budgets`. */
  function Budgets(b: Bundle): Result<seq<real>> {
    var qs :- BudgetRatios(b);
    Percentages(qs)
  }

  /** A list of consumptions is its ratios' percentages, the first one
      clamped at zero: that one is zero or its percentage, and its
      percentage whenever part and total do not have opposite signs. */
  lemma ConsumptionsOfMeaning(qs: seq<Ratio>)
    requires |qs| > 0 && ConsumptionsOf(qs).Ok?
    ensures var r := ConsumptionsOf(qs).value;
            && |r| == |qs|
            && r[0] >= 0.0
            && (r[0] == 0.0 || Percent(qs[0]) == Ok(r[0]))
            && (qs[0].part * qs[0].total >= 0.0 ==> Percent(qs[0]) == Ok(r[0]))
            && (forall i :: 1 <= i < |qs| ==> Percent(qs[i]) == Ok(r[i]))
  {
    var ps := Percentages(qs).value;
    assert Percent(qs[0]) == Ok(ps[0]);
    if qs[0].part * qs[0].total >= 0.0 {
      PercentSign(qs[0]);
    }
  }

  /** A percentage has the sign of part times total. */
  lemma PercentSign(q: Ratio)
    requires q.total != 0.0 && q.part * q.total >= 0.0
    ensures Percent(q).value >= 0.0
  {
    var p := Percent(q).value;
    assert p * q.total * q.total == q.part * q.total * 100.0;
  }

  /** A list of consumptions fails exactly on a zero total, with a
      ZeroDivisionError. */
  lemma ConsumptionsOfFailure(qs: seq<Ratio>)
    requires |qs| > 0
    ensures ConsumptionsOf(qs).Err? <==> exists i :: 0 <= i < |qs| && qs[i].total == 0.0
    ensures ConsumptionsOf(qs).Err? ==> ConsumptionsOf(qs).error == ZeroDivisionError
  {
  }

  /** The four consumptions of `M_plot_consumptions`, in order, the
      effective-radiative-forcing one clamped at zero, the electricity one
      measured against the input `available_electricity`. */
  lemma ConsumptionsMeaning(b: Bundle)
    requires Consumptions(b).Ok?
    ensures var r := Consumptions(b).value;
            var qs := ConsumptionRatios(b).value;
            && |r| == 4
            && r[0] >= 0.0
            && (r[0] == 0.0 || Percent(qs[0]) == Ok(r[0]))
            && (qs[0].part * qs[0].total >= 0.0 ==> Percent(qs[0]) == Ok(r[0]))
            && (forall i :: 1 <= i < 4 ==> Percent(qs[i]) == Ok(r[i]))
            && Number(b["float_inputs"], "available_electricity") == Ok(qs[3].total)
  {
    var qs := ConsumptionRatios(b).value;
    assert Consumptions(b) == ConsumptionsOf(qs);
    ConsumptionsOfMeaning(qs);
    ConsumptionTotals(b);
  }

  /** `M_plot_consumptions` fails, once every value is read, only on a zero
      total. */
  lemma ConsumptionsFailOnZeroTotal(b: Bundle)
    requires ConsumptionRatios(b).Ok?
    ensures Consumptions(b).Err? <==> exists i :: 0 <= i < 4 && ConsumptionRatios(b).value[i].total == 0.0
    ensures Consumptions(b).Err? ==> Consumptions(b).error == ZeroDivisionError
  {
    ConsumptionsOfFailure(ConsumptionRatios(b).value);
  }

  /** What each consumption divides: the cumulative emissions of 2050 from
      the two tables and the end-year biomass and electricity consumptions
      from the outputs, over the two gross carbon budgets and the available
      biomass from the outputs and the available electricity from the
      inputs. */
  lemma ConsumptionTotals(b: Bundle)
    requires ConsumptionRatios(b).Ok?
    ensures var qs := ConsumptionRatios(b).value;
            var outputs := b["float_outputs"];
            && Number(outputs, "equivalent_gross_carbon_budget_2050") == Ok(qs[0].total)
            && Number(outputs, "gross_carbon_budget_2050") == Ok(qs[1].total)
            && Number(outputs, "available_biomass_total") == Ok(qs[2].total)
            && Number(b["float_inputs"], "available_electricity") == Ok(qs[3].total)
    ensures var qs := ConsumptionRatios(b).value;
            var outputs := b["float_outputs"];
            && At2050(GetDataframe(b, "climate_outputs").value, "cumulative_total_equivalent_emissions") == Ok(qs[0].part)
            && At2050(GetDataframe(b, "vector_outputs").value, "cumulative_co2_emissions") == Ok(qs[1].part)
            && Number(outputs, "biomass_consumption_end_year") == Ok(qs[2].part)
            && Number(outputs, "electricity_consumption_end_year") == Ok(qs[3].part)
  {
  }

  /** The budgets are aviation's shares of the very same four totals. */
  lemma BudgetTotals(b: Bundle)
    requires BudgetRatios(b).Ok?
    ensures var qs := BudgetRatios(b).value;
            var outputs := b["float_outputs"];
            && Number(outputs, "equivalent_gross_carbon_budget_2050") == Ok(qs[0].total)
            && Number(outputs, "gross_carbon_budget_2050") == Ok(qs[1].total)
            && Number(outputs, "available_biomass_total") == Ok(qs[2].total)
            && Number(b["float_inputs"], "available_electricity") == Ok(qs[3].total)
    ensures var qs := BudgetRatios(b).value;
            var outputs := b["float_outputs"];
            && Number(outputs, "aviation_equivalent_carbon_budget") == Ok(qs[0].part)
            && Number(outputs, "aviation_carbon_budget") == Ok(qs[1].part)
            && Number(outputs, "aviation_available_biomass") == Ok(qs[2].part)
            && Number(outputs, "aviation_available_electricity") == Ok(qs[3].part)
  {
  }

  /** The four budgets, in order, each the aviation share as a percentage
      of the same total its consumption is measured against. */
  lemma BudgetsShareTotals(b: Bundle)
    requires Budgets(b).Ok? && ConsumptionRatios(b).Ok?
    ensures var r := Budgets(b).value;
            var qs := BudgetRatios(b).value;
            && |r| == 4
            && (forall i :: 0 <= i < 4 ==> Percent(qs[i]) == Ok(r[i]))
            && (forall i :: 0 <= i < 4 ==> qs[i].total == ConsumptionRatios(b).value[i].total)
            && Number(b["float_outputs"], "aviation_equivalent_carbon_budget") == Ok(qs[0].part)
            && Number(b["float_outputs"], "aviation_carbon_budget") == Ok(qs[1].part)
            && Number(b["float_outputs"], "aviation_available_biomass") == Ok(qs[2].part)
            && Number(b["float_outputs"], "aviation_available_electricity") == Ok(qs[3].part)
  {
    var qs := BudgetRatios(b).value;
    assert Budgets(b) == Percentages(qs);
    BudgetTotals(b);
    ConsumptionTotals(b);
  }
}
