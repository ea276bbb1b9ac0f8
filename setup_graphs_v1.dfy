/** `plot_multi` of `Setup_des_graphs_v1.py`: the older computation of the
    multidisciplinary percentages, drawn as two lists. */
module SetupGraphsV1 {
  import opened ProcessData
  import opened MultidisciplinaryGraphUtils

  /** `v[key]` on a value that must be a dictionary. */
  function Item(v: PyValue, key: string): Result<PyValue> {
    if !v.PyDict? then Err(TypeError(NotADict(key)))
    else if key in v.entries then Ok(v.entries[key])
    else Err(KeyError)
  }

  /** `float(df.loc[2050, name])` on an unchecked value: anything but a
      table has no `.loc`. */
  function LocAt2050(v: PyValue, name: string): Result<real> {
    if v.PyTable? then At2050(v.table, name) else Err(AttributeError)
  }

  /** One group of `plot_multi`'s reads: the total, the aviation share,
      then the consumption; the first that fails is what fails. The result
      is the consumption ratio and the budget ratio of the group. */
  function GroupReads(total: Result<real>, share: Result<real>, consumed: Result<real>): (r: Result<(Ratio, Ratio)>)
    ensures r.Ok? <==> total.Ok? && share.Ok? && consumed.Ok?
    ensures r.Err? ==> r.error == if total.Err? then total.error else if share.Err? then share.error else consumed.error
    ensures r.Ok? ==> RatioOf(total, consumed) == Ok(r.value.0) && RatioOf(total, share) == Ok(r.value.1)
  {
    var t :- total;
    var s :- share;
    var c :- consumed;
    Ok((Ratio(c, t), Ratio(s, t)))
  }

  /** The number reads of `plot_multi` from its four containers, in the
      order it makes them: the consumption ratios and the budget ratios,
      each in the order effective radiative forcing, CO2, biomass,
      electricity. */
  function GroupsRatios(parameters: PyValue, df: PyValue, dfClimate: PyValue, floatOutputs: PyValue)
    : (r: Result<(seq<Ratio>, seq<Ratio>)>)
    ensures r.Ok? ==> |r.value.0| == 4 && |r.value.1| == 4
  {
    var carbon :- GroupReads(Number(floatOutputs, "gross_carbon_budget_2050"),
                             Number(floatOutputs, "aviation_carbon_budget"),
                             LocAt2050(df, "cumulative_co2_emissions"));
    var biomass :- GroupReads(Number(floatOutputs, "available_biomass_total"),
                              Number(floatOutputs, "aviation_available_biomass"),
                              Number(floatOutputs, "biomass_consumption_end_year"));
    var electricity :- GroupReads(Number(parameters, "available_electricity"),
                                  Number(floatOutputs, "aviation_available_electricity"),
                                  Number(floatOutputs, "electricity_consumption_end_year"));
    var forcing :- GroupReads(Number(floatOutputs, "equivalent_gross_carbon_budget_2050"),
                              Number(floatOutputs, "aviation_equivalent_carbon_budget"),
                              LocAt2050(dfClimate, "cumulative_total_equivalent_emissions"));
    Ok(([forcing.0, carbon.0, biomass.0, electricity.0], [forcing.1, carbon.1, biomass.1, electricity.1]))
  }

  /** The reads of `plot_multi`: the four containers and the year lists
      (read but not used), then the numbers. */
  function PlotMultiRatios(b: Bundle): (r: Result<(seq<Ratio>, seq<Ratio>)>)
    ensures r.Ok? ==> |r.value.0| == 4 && |r.value.1| == 4
  {
    var parameters :- Field(b, "float_inputs");
    var df :- Field(b, "vector_outputs");
    var dfClimate :- Field(b, "climate_outputs");
    var floatOutputs :- Field(b, "float_outputs");
    var years :- Field(b, "years");
    var _ :- Item(years, "full_years");
    var _ :- Item(years, "historic_years");
    var _ :- Item(years, "prospective_years");
    GroupsRatios(parameters, df, dfClimate, floatOutputs)
  }

  /** `plot_multi`: every read first, then the budgets, then the
      consumptions; the result is `[consumptions, budgets]`. */
  function PlotMulti(b: Bundle): Result<seq<seq<real>>> {
    var ratios :- PlotMultiRatios(b);
    var budgets :- Percentages(ratios.1);
    var consumptions :- ConsumptionsOf(ratios.0);
    Ok([consumptions, budgets])
  }

  /** Out of the same containers, `plot_multi` reads the consumption
      ratios `M_plot_consumptions` reads. */
  lemma GroupsConsumptions(parameters: PyValue, df: PyValue, dfClimate: PyValue, floatOutputs: PyValue)
    requires GroupsRatios(parameters, df, dfClimate, floatOutputs).Ok?
    ensures df.PyTable? && dfClimate.PyTable?
    ensures ConsumptionReads(parameters, floatOutputs, df.table, dfClimate.table)
            == Ok(GroupsRatios(parameters, df, dfClimate, floatOutputs).value.0)
  {
    var carbon := GroupReads(Number(floatOutputs, "gross_carbon_budget_2050"),
                             Number(floatOutputs, "aviation_carbon_budget"),
                             LocAt2050(df, "cumulative_co2_emissions"));
    var biomass := GroupReads(Number(floatOutputs, "available_biomass_total"),
                              Number(floatOutputs, "aviation_available_biomass"),
                              Number(floatOutputs, "biomass_consumption_end_year"));
    var electricity := GroupReads(Number(parameters, "available_electricity"),
                                  Number(floatOutputs, "aviation_available_electricity"),
                                  Number(floatOutputs, "electricity_consumption_end_year"));
    var forcing := GroupReads(Number(floatOutputs, "equivalent_gross_carbon_budget_2050"),
                              Number(floatOutputs, "aviation_equivalent_carbon_budget"),
                              LocAt2050(dfClimate, "cumulative_total_equivalent_emissions"));
    assert carbon.Ok? && biomass.Ok? && electricity.Ok? && forcing.Ok?;
  }

  /** Out of the same containers, `plot_multi` reads the budget ratios
      `M_plot_budgets` reads. */
  lemma GroupsBudgets(parameters: PyValue, df: PyValue, dfClimate: PyValue, floatOutputs: PyValue)
    requires GroupsRatios(parameters, df, dfClimate, floatOutputs).Ok?
    ensures BudgetReads(parameters, floatOutputs) == Ok(GroupsRatios(parameters, df, dfClimate, floatOutputs).value.1)
  {
    var carbon := GroupReads(Number(floatOutputs, "gross_carbon_budget_2050"),
                             Number(floatOutputs, "aviation_carbon_budget"),
                             LocAt2050(df, "cumulative_co2_emissions"));
    var biomass := GroupReads(Number(floatOutputs, "available_biomass_total"),
                              Number(floatOutputs, "aviation_available_biomass"),
                              Number(floatOutputs, "biomass_consumption_end_year"));
    var electricity := GroupReads(Number(parameters, "available_electricity"),
                                  Number(floatOutputs, "aviation_available_electricity"),
                                  Number(floatOutputs, "electricity_consumption_end_year"));
    var forcing := GroupReads(Number(floatOutputs, "equivalent_gross_carbon_budget_2050"),
                              Number(floatOutputs, "aviation_equivalent_carbon_budget"),
                              LocAt2050(dfClimate, "cumulative_total_equivalent_emissions"));
    assert carbon.Ok? && biomass.Ok? && electricity.Ok? && forcing.Ok?;
  }

  /** Wherever `plot_multi` reads every value, `M_plot_consumptions` and
      `M_plot_budgets` read the same ratios. */
  lemma PlotMultiReadsAgree(b: Bundle)
    requires PlotMultiRatios(b).Ok?
    ensures ConsumptionRatios(b) == Ok(PlotMultiRatios(b).value.0)
    ensures BudgetRatios(b) == Ok(PlotMultiRatios(b).value.1)
  {
    var parameters, df, dfClimate, floatOutputs := b["float_inputs"], b["vector_outputs"], b["climate_outputs"], b["float_outputs"];
    assert PlotMultiRatios(b) == GroupsRatios(parameters, df, dfClimate, floatOutputs);
    GroupsConsumptions(parameters, df, dfClimate, floatOutputs);
    GroupsBudgets(parameters, df, dfClimate, floatOutputs);
  }

  /** Wherever `plot_multi` succeeds, it returns exactly the consumptions
      and the budgets that `M_plot_consumptions` and `M_plot_budgets`
      return: two lists of four, the first consumption at least zero. */
  lemma PlotMultiAgrees(b: Bundle)
    requires PlotMulti(b).Ok?
    ensures |PlotMulti(b).value| == 2
    ensures Consumptions(b) == Ok(PlotMulti(b).value[0])
    ensures Budgets(b) == Ok(PlotMulti(b).value[1])
    ensures |PlotMulti(b).value[0]| == |PlotMulti(b).value[1]| == 4 && PlotMulti(b).value[0][0] >= 0.0
  {
    var ratios := PlotMultiRatios(b).value;
    PlotMultiReadsAgree(b);
    assert Consumptions(b) == ConsumptionsOf(ratios.0);
    assert Budgets(b) == Percentages(ratios.1);
    ConsumptionsOfMeaning(ratios.0);
  }
}
