/** The AeroMAPS process as the dashboard sees it: a record of scenario
    parameters that the engines assign field by field, and a `compute` step
    that turns the current parameters into the process data. */
module Simulation {
  import opened ProcessData

  /** The scenario parameters some lever writes (a baseline writes most of
      them too). */
  datatype LeverParams = LeverParams(
    cagrPassengerShortRangeReferencePeriodsValues: seq<real>,
    cagrPassengerMediumRangeReferencePeriodsValues: seq<real>,
    cagrPassengerLongRangeReferencePeriodsValues: seq<real>,
    cagrFreightReferencePeriodsValues: seq<real>,
    loadFactorEndYear: real,
    energyPerAskShortRangeDropinFuelGainReferenceYearsValues: seq<real>,
    energyPerAskMediumRangeDropinFuelGainReferenceYearsValues: seq<real>,
    energyPerAskLongRangeDropinFuelGainReferenceYearsValues: seq<real>,
    hydrogenFinalMarketShareShortRange: real,
    hydrogenIntroductionYearShortRange: int,
    fleetRenewalDuration: real,
    operationsFinalGain: real,
    operationsStartYear: int,
    operationsDuration: real,
    biofuelShareReferenceYearsValues: seq<real>,
    electrofuelShareReferenceYearsValues: seq<real>,
    residualCarbonOffsetShareReferenceYearsValues: seq<real>
  )

  /** The scenario parameters only a baseline writes. */
  datatype ScenarioParams = ScenarioParams(
    cagrPassengerShortRangeReferencePeriods: seq<int>,
    cagrPassengerMediumRangeReferencePeriods: seq<int>,
    cagrPassengerLongRangeReferencePeriods: seq<int>,
    cagrFreightReferencePeriods: seq<int>,
    energyPerAskShortRangeDropinFuelGainReferenceYears: seq<int>,
    energyPerAskMediumRangeDropinFuelGainReferenceYears: seq<int>,
    energyPerAskLongRangeDropinFuelGainReferenceYears: seq<int>,
    relativeEnergyPerAskHydrogenWrtDropinShortRangeReferenceYears: seq<int>,
    relativeEnergyPerAskHydrogenWrtDropinShortRangeReferenceYearsValues: seq<real>,
    biofuelShareReferenceYears: seq<int>,
    electrofuelShareReferenceYears: seq<int>,
    carbonOffsetBaselineLevelVs2019ReferencePeriods: seq<int>,
    carbonOffsetBaselineLevelVs2019ReferencePeriodsValues: seq<real>,
    residualCarbonOffsetShareReferenceYears: seq<int>,
    netCarbonBudget: real,
    carbonDioxydeRemoval2100: real,
    wasteBiomass: real,
    cropsBiomass: real,
    forestResiduesBiomass: real,
    agriculturalResiduesBiomass: real,
    algaeBiomass: real,
    availableElectricity: real,
    aviationCarbonBudgetAllocatedShare: real,
    aviationEquivalentcarbonbudgetAllocatedShare: real,
    aviationBiomassAllocatedShare: real,
    aviationElectricityAllocatedShare: real,
    biofuelHefaFogShareReferenceYears: seq<int>,
    biofuelHefaFogShareReferenceYearsValues: seq<real>,
    biofuelHefaOthersShareReferenceYears: seq<int>,
    biofuelHefaOthersShareReferenceYearsValues: seq<real>,
    biofuelFtOthersShareReferenceYears: seq<int>,
    biofuelFtOthersShareReferenceYearsValues: seq<real>,
    biofuelFtMswShareReferenceYears: seq<int>,
    biofuelFtMswShareReferenceYearsValues: seq<real>,
    electricityEmissionFactorReferenceYears: seq<int>,
    electricityEmissionFactorReferenceYearsValues: seq<real>,
    hydrogenElectrolysisShareReferenceYears: seq<int>,
    hydrogenElectrolysisShareReferenceYearsValues: seq<real>,
    hydrogenGasCcsShareReferenceYears: seq<int>,
    hydrogenGasCcsShareReferenceYearsValues: seq<real>,
    hydrogenCoalCcsShareReferenceYears: seq<int>,
    hydrogenCoalCcsShareReferenceYearsValues: seq<real>,
    hydrogenGasShareReferenceYears: seq<int>,
    hydrogenGasShareReferenceYearsValues: seq<real>,
    co2CostReferenceYears: seq<int>,
    co2CostReferenceYearsValues: seq<real>,
    carbonTaxReferenceYears: seq<int>,
    carbonTaxReferenceYearsValues: seq<real>,
    exogenousCarbonPriceReferenceYears: seq<int>,
    exogenousCarbonPriceReferenceYearsValues: seq<real>,
    carbonOffsetPriceReferenceYears: seq<int>,
    carbonOffsetPriceReferenceYearsValues: seq<real>
  )

  /** The scenario parameters any generation of the engines assigns, in
      two groups: those a lever writes and the rest. The simulator has many
      more, which nobody here writes: they are part of what `compute` does
      with a record. */
  datatype Params = Params(levers: LeverParams, scenario: ScenarioParams)

  /** The six levers a card, an aspect or a checkbox pulls. */
  datatype Levers = Levers(
    sobriety: bool,
    emissionsCompensation: bool,
    newEnergies: bool,
    modalShift: bool,
    operationsEfficiency: bool,
    technology: bool
  )

  /** No lever pulled. */
  const NoLevers := Levers(false, false, false, false, false, false)

  /** `if ids:` in both engines: None and the empty tuple both mean that
      nothing is selected. */
  predicate Selected<T>(ids: Option<seq<T>>) {
    ids.Some? && ids.value != []
  }

  /** `tuple(ids) if ids else None`: the ids, in caller order, under which
      both engines cache a computation. */
  function CacheKey<T>(ids: Option<seq<T>>): (key: Option<seq<T>>)
    ensures key.None? <==> !Selected(ids)
    ensures key.Some? ==> key == ids
  {
    if Selected(ids) then ids else None
  }

  /** The parameters after pulling the levers `l`, in the order the engines
      check them. Modal shift cuts short-range growth to zero when sobriety is
      pulled too. The two older generations also introduce hydrogen with the
      technology lever; the newest one does not. */
  function ApplyLevers(p: Params, l: Levers, technologyWritesHydrogen: bool): Params {
    var p1 := if l.sobriety then SobrietyWrites(p) else p;
    var p2 := if l.emissionsCompensation then EmissionsCompensationWrites(p1) else p1;
    var p3 := if l.newEnergies then NewEnergiesWrites(p2) else p2;
    var p4 := if l.modalShift then ModalShiftWrites(p3, l.sobriety) else p3;
    var p5 := if l.operationsEfficiency then OperationsEfficiencyWrites(p4) else p4;
    if l.technology then TechnologyWrites(p5, technologyWritesHydrogen) else p5
  }

  function SobrietyWrites(p: Params): Params {
    p.(
      levers := p.levers.(
        cagrPassengerMediumRangeReferencePeriodsValues := [1.5],
        cagrPassengerLongRangeReferencePeriodsValues := [1.5],
        cagrFreightReferencePeriodsValues := [1.5]))
  }

  function EmissionsCompensationWrites(p: Params): Params {
    p.(levers := p.levers.(residualCarbonOffsetShareReferenceYearsValues := [0.0, 0.0, 10.0, 10.0]))
  }

  function NewEnergiesWrites(p: Params): Params {
    p.(
      levers := p.levers.(
        biofuelShareReferenceYearsValues := [0.0, 4.8, 24.0, 35.0],
        electrofuelShareReferenceYearsValues := [0.0, 1.2, 10.0, 35.0]))
  }

  function ModalShiftWrites(p: Params, withSobriety: bool): Params {
    p.(levers := p.levers.(cagrPassengerShortRangeReferencePeriodsValues := if withSobriety then [0.0, 0.0, 0.0] else [1.0, 1.0, 1.0]))
  }

  function OperationsEfficiencyWrites(p: Params): Params {
    p.(
      levers := p.levers.(
        loadFactorEndYear := 90.0,
        operationsFinalGain := 10.0,
        operationsStartYear := 2025,
        operationsDuration := 25.0))
  }

  function TechnologyWrites(p: Params, withHydrogen: bool): Params {
    var q := p.(
      levers := p.levers.(
        energyPerAskShortRangeDropinFuelGainReferenceYearsValues := [1.0],
        energyPerAskMediumRangeDropinFuelGainReferenceYearsValues := [1.0],
        energyPerAskLongRangeDropinFuelGainReferenceYearsValues := [1.0],
        fleetRenewalDuration := 15.0));
    if withHydrogen then
      q.(levers := q.levers.(hydrogenFinalMarketShareShortRange := 50.0, hydrogenIntroductionYearShortRange := 2035))
    else q
  }

  /** Short-range growth under modal shift is conditioned on sobriety: zero
      growth with it, one percent without it; without modal shift it is left
      as it was. */
  lemma ModalShiftConditionedOnSobriety(p: Params, l: Levers, h: bool)
    ensures var r := ApplyLevers(p, l, h).levers.cagrPassengerShortRangeReferencePeriodsValues;
            && (l.modalShift && l.sobriety ==> r == [0.0, 0.0, 0.0])
            && (l.modalShift && !l.sobriety ==> r == [1.0, 1.0, 1.0])
            && (!l.modalShift ==> r == p.levers.cagrPassengerShortRangeReferencePeriodsValues)
  {
  }

  /** The three growth values the sobriety lever writes. */
  function SobrietyGrowth(p: Params): seq<seq<real>> {
    [p.levers.cagrPassengerMediumRangeReferencePeriodsValues,
     p.levers.cagrPassengerLongRangeReferencePeriodsValues,
     p.levers.cagrFreightReferencePeriodsValues]
  }


  /** Only the sobriety lever writes the medium-range, long-range and
      freight growth values. */
  lemma SobrietyLeverGrowth(p: Params, l: Levers, h: bool)
    ensures SobrietyGrowth(ApplyLevers(p, l, h)) == if l.sobriety then [[1.5], [1.5], [1.5]] else SobrietyGrowth(p)
  {
  }


  /** Only the operations-efficiency lever writes the load factor. */
  lemma OperationsEfficiencyLeverLoadFactor(p: Params, l: Levers, h: bool)
    ensures ApplyLevers(p, l, h).levers.loadFactorEndYear == if l.operationsEfficiency then 90.0 else p.levers.loadFactorEndYear
  {
  }

  /** Pulling no lever writes nothing. */
  lemma NoLeversWriteNothing(p: Params, h: bool)
    ensures ApplyLevers(p, NoLevers, h) == p
  {
  }

  /** With every lever pulled, the lever values are written whatever the
      record held before; the hydrogen introduction only when the generation
      writes it. */
  lemma AllLeversOverwriteTheirFields(p: Params, h: bool)
    ensures var all := Levers(true, true, true, true, true, true);
            var r := ApplyLevers(p, all, h);
            && r.levers.cagrPassengerMediumRangeReferencePeriodsValues == [1.5]
            && r.levers.cagrPassengerShortRangeReferencePeriodsValues == [0.0, 0.0, 0.0]
            && r.levers.loadFactorEndYear == 90.0
            && r.levers.fleetRenewalDuration == 15.0
            && (h ==> r.levers.hydrogenIntroductionYearShortRange == 2035)
            && (!h ==> r.levers.hydrogenIntroductionYearShortRange == p.levers.hydrogenIntroductionYearShortRange)
  {
  }

  /** `aeromaps.create_process()`: a process holding a parameter record and
      the data of its last computation. */
  class AeroProcess {
    var parameters: Params
    var data: Bundle
    /** What `compute` makes of a parameter record. */
    const simulate: Params -> Bundle

    constructor (defaults: Params, simulate: Params -> Bundle)
      ensures parameters == defaults && data == map[] && this.simulate == simulate
    {
      parameters := defaults;
      data := map[];
      this.simulate := simulate;
    }

    /** `process.compute()`: the data are recomputed from the parameters. */
    method Compute()
      modifies this`data
      ensures data == simulate(parameters)
    {
      data := simulate(parameters);
    }

    method WriteSobriety()
      modifies this`parameters
      ensures parameters == SobrietyWrites(old(parameters))
    {
      parameters := parameters.(levers := parameters.levers.(cagrPassengerMediumRangeReferencePeriodsValues := [1.5]));
      parameters := parameters.(levers := parameters.levers.(cagrPassengerLongRangeReferencePeriodsValues := [1.5]));
      parameters := parameters.(levers := parameters.levers.(cagrFreightReferencePeriodsValues := [1.5]));
    }

    method WriteEmissionsCompensation()
      modifies this`parameters
      ensures parameters == EmissionsCompensationWrites(old(parameters))
    {
      parameters := parameters.(levers := parameters.levers.(residualCarbonOffsetShareReferenceYearsValues := [0.0, 0.0, 10.0, 10.0]));
    }

    method WriteNewEnergies()
      modifies this`parameters
      ensures parameters == NewEnergiesWrites(old(parameters))
    {
      parameters := parameters.(levers := parameters.levers.(biofuelShareReferenceYearsValues := [0.0, 4.8, 24.0, 35.0]));
      parameters := parameters.(levers := parameters.levers.(electrofuelShareReferenceYearsValues := [0.0, 1.2, 10.0, 35.0]));
    }

    method WriteModalShift(withSobriety: bool)
      modifies this`parameters
      ensures parameters == ModalShiftWrites(old(parameters), withSobriety)
    {
      parameters := parameters.(levers := parameters.levers.(
        cagrPassengerShortRangeReferencePeriodsValues := if withSobriety then [0.0, 0.0, 0.0] else [1.0, 1.0, 1.0]));
    }

    method WriteOperationsEfficiency()
      modifies this`parameters
      ensures parameters == OperationsEfficiencyWrites(old(parameters))
    {
      parameters := parameters.(levers := parameters.levers.(loadFactorEndYear := 90.0));
      parameters := parameters.(levers := parameters.levers.(operationsFinalGain := 10.0));
      parameters := parameters.(levers := parameters.levers.(operationsStartYear := 2025));
      parameters := parameters.(levers := parameters.levers.(operationsDuration := 25.0));
    }

    method WriteTechnology(withHydrogen: bool)
      modifies this`parameters
      ensures parameters == TechnologyWrites(old(parameters), withHydrogen)
    {
      parameters := parameters.(levers := parameters.levers.(energyPerAskShortRangeDropinFuelGainReferenceYearsValues := [1.0]));
      parameters := parameters.(levers := parameters.levers.(energyPerAskMediumRangeDropinFuelGainReferenceYearsValues := [1.0]));
      parameters := parameters.(levers := parameters.levers.(energyPerAskLongRangeDropinFuelGainReferenceYearsValues := [1.0]));
      if withHydrogen {
        parameters := parameters.(levers := parameters.levers.(hydrogenFinalMarketShareShortRange := 50.0));
        parameters := parameters.(levers := parameters.levers.(hydrogenIntroductionYearShortRange := 2035));
      }
      parameters := parameters.(levers := parameters.levers.(fleetRenewalDuration := 15.0));
    }
  }
}
