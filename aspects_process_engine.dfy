/** `src/core/process_engine.py`: the engine keyed by aspect ids. Every call
    first writes a complete reference scenario, then the writes of aspects 2
    to 7; the computed data are cached per (process, ids). */
module AspectsProcessEngine {
  import opened ProcessData
  import opened Simulation

  /** The reference scenario: the value the baseline assigns to every field. */
  function FullBaseline(): Params {
    Params(
      LeverParams(
        cagrPassengerShortRangeReferencePeriodsValues := [3.0, 3.0, 3.0],
        cagrPassengerMediumRangeReferencePeriodsValues := [3.0],
        cagrPassengerLongRangeReferencePeriodsValues := [3.0],
        cagrFreightReferencePeriodsValues := [3.0],
        loadFactorEndYear := 85.0,
        energyPerAskShortRangeDropinFuelGainReferenceYearsValues := [0.5],
        energyPerAskMediumRangeDropinFuelGainReferenceYearsValues := [0.5],
        energyPerAskLongRangeDropinFuelGainReferenceYearsValues := [0.5],
        hydrogenFinalMarketShareShortRange := 0.0,
        hydrogenIntroductionYearShortRange := 2051,
        fleetRenewalDuration := 20.0,
        operationsFinalGain := 5.0,
        operationsStartYear := 2025,
        operationsDuration := 25.0,
        biofuelShareReferenceYearsValues := [0.0, 0.0, 0.0, 0.0],
        electrofuelShareReferenceYearsValues := [0.0, 0.0, 0.0, 0.0],
        residualCarbonOffsetShareReferenceYearsValues := [0.0, 0.0, 0.0, 0.0]),
      ScenarioParams(
        cagrPassengerShortRangeReferencePeriods := [2020, 2030, 2040, 2050],
        cagrPassengerMediumRangeReferencePeriods := [],
        cagrPassengerLongRangeReferencePeriods := [],
        cagrFreightReferencePeriods := [],
        energyPerAskShortRangeDropinFuelGainReferenceYears := [],
        energyPerAskMediumRangeDropinFuelGainReferenceYears := [],
        energyPerAskLongRangeDropinFuelGainReferenceYears := [],
        relativeEnergyPerAskHydrogenWrtDropinShortRangeReferenceYears := [],
        relativeEnergyPerAskHydrogenWrtDropinShortRangeReferenceYearsValues := [1.0],
        biofuelShareReferenceYears := [2020, 2030, 2040, 2050],
        electrofuelShareReferenceYears := [2020, 2030, 2040, 2050],
        carbonOffsetBaselineLevelVs2019ReferencePeriods := [2020, 2024, 2050],
        carbonOffsetBaselineLevelVs2019ReferencePeriodsValues := [500.0, 500.0],
        residualCarbonOffsetShareReferenceYears := [2020, 2030, 2040, 2050],
        netCarbonBudget := 850.0,
        carbonDioxydeRemoval2100 := 280.0,
        wasteBiomass := 12.0,
        cropsBiomass := 63.0,
        forestResiduesBiomass := 17.0,
        agriculturalResiduesBiomass := 57.0,
        algaeBiomass := 15.0,
        availableElectricity := 250.0,
        aviationCarbonBudgetAllocatedShare := 2.6,
        aviationEquivalentcarbonbudgetAllocatedShare := 5.1,
        aviationBiomassAllocatedShare := 5.0,
        aviationElectricityAllocatedShare := 5.0,
        biofuelHefaFogShareReferenceYears := [2020, 2030, 2040, 2050],
        biofuelHefaFogShareReferenceYearsValues := [100.0, 100.0, 0.7, 0.7],
        biofuelHefaOthersShareReferenceYears := [2020, 2030, 2040, 2050],
        biofuelHefaOthersShareReferenceYearsValues := [0.0, 0.0, 3.8, 3.8],
        biofuelFtOthersShareReferenceYears := [2020, 2030, 2040, 2050],
        biofuelFtOthersShareReferenceYearsValues := [0.0, 0.0, 76.3, 76.3],
        biofuelFtMswShareReferenceYears := [2020, 2030, 2040, 2050],
        biofuelFtMswShareReferenceYearsValues := [0.0, 0.0, 7.4, 7.4],
        electricityEmissionFactorReferenceYears := [2020, 2030, 2040, 2050],
        electricityEmissionFactorReferenceYearsValues := [429.0, 200.0, 100.0, 30.0],
        hydrogenElectrolysisShareReferenceYears := [2020, 2030, 2040, 2050],
        hydrogenElectrolysisShareReferenceYearsValues := [2.0, 100.0, 100.0, 100.0],
        hydrogenGasCcsShareReferenceYears := [2020, 2030, 2040, 2050],
        hydrogenGasCcsShareReferenceYearsValues := [0.0, 0.0, 0.0, 0.0],
        hydrogenCoalCcsShareReferenceYears := [2020, 2030, 2040, 2050],
        hydrogenCoalCcsShareReferenceYearsValues := [0.0, 0.0, 0.0, 0.0],
        hydrogenGasShareReferenceYears := [2020, 2030, 2040, 2050],
        hydrogenGasShareReferenceYearsValues := [71.0, 0.0, 0.0, 0.0],
        co2CostReferenceYears := [],
        co2CostReferenceYearsValues := [0.225],
        carbonTaxReferenceYears := [],
        carbonTaxReferenceYearsValues := [5.0],
        exogenousCarbonPriceReferenceYears := [2020, 2030, 2040, 2050],
        exogenousCarbonPriceReferenceYearsValues := [54.0, 250.0, 500.0, 775.0],
        carbonOffsetPriceReferenceYears := [],
        carbonOffsetPriceReferenceYearsValues := [5.0]))
  }

  /** The baseline assignments, one field after the other. Whatever the
      process held before, afterwards it holds exactly the reference scenario. */
  method WriteFullBaseline(process: AeroProcess)
    modifies process`parameters
    ensures process.parameters == FullBaseline()
  {
    process.parameters := process.parameters.(scenario := process.parameters.scenario.(cagrPassengerShortRangeReferencePeriods := [2020, 2030, 2040, 2050]));
    process.parameters := process.parameters.(levers := process.parameters.levers.(cagrPassengerShortRangeReferencePeriodsValues := [3.0, 3.0, 3.0]));
    process.parameters := process.parameters.(scenario := process.parameters.scenario.(cagrPassengerMediumRangeReferencePeriods := []));
    process.parameters := process.parameters.(levers := process.parameters.levers.(cagrPassengerMediumRangeReferencePeriodsValues := [3.0]));
    process.parameters := process.parameters.(scenario := process.parameters.scenario.(cagrPassengerLongRangeReferencePeriods := []));
    process.parameters := process.parameters.(levers := process.parameters.levers.(cagrPassengerLongRangeReferencePeriodsValues := [3.0]));
    process.parameters := process.parameters.(scenario := process.parameters.scenario.(cagrFreightReferencePeriods := []));
    process.parameters := process.parameters.(levers := process.parameters.levers.(cagrFreightReferencePeriodsValues := [3.0]));
    process.parameters := process.parameters.(levers := process.parameters.levers.(loadFactorEndYear := 85.0));
    process.parameters := process.parameters.(scenario := process.parameters.scenario.(energyPerAskShortRangeDropinFuelGainReferenceYears := []));
    process.parameters := process.parameters.(levers := process.parameters.levers.(energyPerAskShortRangeDropinFuelGainReferenceYearsValues := [0.5]));
    process.parameters := process.parameters.(scenario := process.parameters.scenario.(energyPerAskMediumRangeDropinFuelGainReferenceYears := []));
    process.parameters := process.parameters.(levers := process.parameters.levers.(energyPerAskMediumRangeDropinFuelGainReferenceYearsValues := [0.5]));
    process.parameters := process.parameters.(scenario := process.parameters.scenario.(energyPerAskLongRangeDropinFuelGainReferenceYears := []));
    process.parameters := process.parameters.(levers := process.parameters.levers.(energyPerAskLongRangeDropinFuelGainReferenceYearsValues := [0.5]));
    process.parameters := process.parameters.(levers := process.parameters.levers.(hydrogenFinalMarketShareShortRange := 0.0));
    process.parameters := process.parameters.(levers := process.parameters.levers.(hydrogenIntroductionYearShortRange := 2051));
    process.parameters := process.parameters.(levers := process.parameters.levers.(fleetRenewalDuration := 20.0));
    process.parameters := process.parameters.(scenario := process.parameters.scenario.(relativeEnergyPerAskHydrogenWrtDropinShortRangeReferenceYears := []));
    process.parameters := process.parameters.(scenario := process.parameters.scenario.(relativeEnergyPerAskHydrogenWrtDropinShortRangeReferenceYearsValues := [1.0]));
    process.parameters := process.parameters.(levers := process.parameters.levers.(operationsFinalGain := 5.0));
    process.parameters := process.parameters.(levers := process.parameters.levers.(operationsStartYear := 2025));
    process.parameters := process.parameters.(levers := process.parameters.levers.(operationsDuration := 25.0));
    process.parameters := process.parameters.(scenario := process.parameters.scenario.(biofuelShareReferenceYears := [2020, 2030, 2040, 2050]));
    process.parameters := process.parameters.(levers := process.parameters.levers.(biofuelShareReferenceYearsValues := [0.0, 0.0, 0.0, 0.0]));
    process.parameters := process.parameters.(scenario := process.parameters.scenario.(electrofuelShareReferenceYears := [2020, 2030, 2040, 2050]));
    process.parameters := process.parameters.(levers := process.parameters.levers.(electrofuelShareReferenceYearsValues := [0.0, 0.0, 0.0, 0.0]));
    process.parameters := process.parameters.(scenario := process.parameters.scenario.(carbonOffsetBaselineLevelVs2019ReferencePeriods := [2020, 2024, 2050]));
    process.parameters := process.parameters.(scenario := process.parameters.scenario.(carbonOffsetBaselineLevelVs2019ReferencePeriodsValues := [500.0, 500.0]));
    process.parameters := process.parameters.(scenario := process.parameters.scenario.(residualCarbonOffsetShareReferenceYears := [2020, 2030, 2040, 2050]));
    process.parameters := process.parameters.(levers := process.parameters.levers.(residualCarbonOffsetShareReferenceYearsValues := [0.0, 0.0, 0.0, 0.0]));
    process.parameters := process.parameters.(scenario := process.parameters.scenario.(netCarbonBudget := 850.0));
    process.parameters := process.parameters.(scenario := process.parameters.scenario.(carbonDioxydeRemoval2100 := 280.0));
    process.parameters := process.parameters.(scenario := process.parameters.scenario.(wasteBiomass := 12.0));
    process.parameters := process.parameters.(scenario := process.parameters.scenario.(cropsBiomass := 63.0));
    process.parameters := process.parameters.(scenario := process.parameters.scenario.(forestResiduesBiomass := 17.0));
    process.parameters := process.parameters.(scenario := process.parameters.scenario.(agriculturalResiduesBiomass := 57.0));
    process.parameters := process.parameters.(scenario := process.parameters.scenario.(algaeBiomass := 15.0));
    process.parameters := process.parameters.(scenario := process.parameters.scenario.(availableElectricity := 250.0));
    process.parameters := process.parameters.(scenario := process.parameters.scenario.(aviationCarbonBudgetAllocatedShare := 2.6));
    process.parameters := process.parameters.(scenario := process.parameters.scenario.(aviationEquivalentcarbonbudgetAllocatedShare := 5.1));
    process.parameters := process.parameters.(scenario := process.parameters.scenario.(aviationBiomassAllocatedShare := 5.0));
    process.parameters := process.parameters.(scenario := process.parameters.scenario.(aviationElectricityAllocatedShare := 5.0));
    process.parameters := process.parameters.(scenario := process.parameters.scenario.(biofuelHefaFogShareReferenceYears := [2020, 2030, 2040, 2050]));
    process.parameters := process.parameters.(scenario := process.parameters.scenario.(biofuelHefaFogShareReferenceYearsValues := [100.0, 100.0, 0.7, 0.7]));
    process.parameters := process.parameters.(scenario := process.parameters.scenario.(biofuelHefaOthersShareReferenceYears := [2020, 2030, 2040, 2050]));
    process.parameters := process.parameters.(scenario := process.parameters.scenario.(biofuelHefaOthersShareReferenceYearsValues := [0.0, 0.0, 3.8, 3.8]));
    process.parameters := process.parameters.(scenario := process.parameters.scenario.(biofuelFtOthersShareReferenceYears := [2020, 2030, 2040, 2050]));
    process.parameters := process.parameters.(scenario := process.parameters.scenario.(biofuelFtOthersShareReferenceYearsValues := [0.0, 0.0, 76.3, 76.3]));
    process.parameters := process.parameters.(scenario := process.parameters.scenario.(biofuelFtMswShareReferenceYears := [2020, 2030, 2040, 2050]));
    process.parameters := process.parameters.(scenario := process.parameters.scenario.(biofuelFtMswShareReferenceYearsValues := [0.0, 0.0, 7.4, 7.4]));
    process.parameters := process.parameters.(scenario := process.parameters.scenario.(electricityEmissionFactorReferenceYears := [2020, 2030, 2040, 2050]));
    process.parameters := process.parameters.(scenario := process.parameters.scenario.(electricityEmissionFactorReferenceYearsValues := [429.0, 200.0, 100.0, 30.0]));
    process.parameters := process.parameters.(scenario := process.parameters.scenario.(hydrogenElectrolysisShareReferenceYears := [2020, 2030, 2040, 2050]));
    process.parameters := process.parameters.(scenario := process.parameters.scenario.(hydrogenElectrolysisShareReferenceYearsValues := [2.0, 100.0, 100.0, 100.0]));
    process.parameters := process.parameters.(scenario := process.parameters.scenario.(hydrogenGasCcsShareReferenceYears := [2020, 2030, 2040, 2050]));
    process.parameters := process.parameters.(scenario := process.parameters.scenario.(hydrogenGasCcsShareReferenceYearsValues := [0.0, 0.0, 0.0, 0.0]));
    process.parameters := process.parameters.(scenario := process.parameters.scenario.(hydrogenCoalCcsShareReferenceYears := [2020, 2030, 2040, 2050]));
    process.parameters := process.parameters.(scenario := process.parameters.scenario.(hydrogenCoalCcsShareReferenceYearsValues := [0.0, 0.0, 0.0, 0.0]));
    process.parameters := process.parameters.(scenario := process.parameters.scenario.(hydrogenGasShareReferenceYears := [2020, 2030, 2040, 2050]));
    process.parameters := process.parameters.(scenario := process.parameters.scenario.(hydrogenGasShareReferenceYearsValues := [71.0, 0.0, 0.0, 0.0]));
    process.parameters := process.parameters.(scenario := process.parameters.scenario.(co2CostReferenceYears := []));
    process.parameters := process.parameters.(scenario := process.parameters.scenario.(co2CostReferenceYearsValues := [0.225]));
    process.parameters := process.parameters.(scenario := process.parameters.scenario.(carbonTaxReferenceYears := []));
    process.parameters := process.parameters.(scenario := process.parameters.scenario.(carbonTaxReferenceYearsValues := [5.0]));
    process.parameters := process.parameters.(scenario := process.parameters.scenario.(exogenousCarbonPriceReferenceYears := [2020, 2030, 2040, 2050]));
    process.parameters := process.parameters.(scenario := process.parameters.scenario.(exogenousCarbonPriceReferenceYearsValues := [54.0, 250.0, 500.0, 775.0]));
    process.parameters := process.parameters.(scenario := process.parameters.scenario.(carbonOffsetPriceReferenceYears := []));
    process.parameters := process.parameters.(scenario := process.parameters.scenario.(carbonOffsetPriceReferenceYearsValues := [5.0]));
  }

  /** Which levers a list of aspect ids pulls: ids 2 to 7, by membership. */
  function AspectLevers(ids: seq<int>): (l: Levers)
    ensures l.sobriety <==> exists k :: 0 <= k < |ids| && ids[k] == 2
    ensures l.emissionsCompensation <==> exists k :: 0 <= k < |ids| && ids[k] == 3
    ensures l.newEnergies <==> exists k :: 0 <= k < |ids| && ids[k] == 4
    ensures l.modalShift <==> exists k :: 0 <= k < |ids| && ids[k] == 5
    ensures l.operationsEfficiency <==> exists k :: 0 <= k < |ids| && ids[k] == 6
    ensures l.technology <==> exists k :: 0 <= k < |ids| && ids[k] == 7
  {
    Levers(2 in ids, 3 in ids, 4 in ids, 5 in ids, 6 in ids, 7 in ids)
  }

  /** The aspect writes, checked in the order 2, 3, 4, 5, 6, 7. */
  method WriteAspects(process: AeroProcess, ids: seq<int>)
    modifies process`parameters
    ensures process.parameters == ApplyLevers(old(process.parameters), AspectLevers(ids), true)
  {
    if 2 in ids {
      process.WriteSobriety();
    }
    if 3 in ids {
      process.WriteEmissionsCompensation();
    }
    if 4 in ids {
      process.WriteNewEnergies();
    }
    if 5 in ids {
      process.WriteModalShift(2 in ids);
    }
    if 6 in ids {
      process.WriteOperationsEfficiency();
    }
    if 7 in ids {
      process.WriteTechnology(true);
    }
  }

  /** The parameters `compute_process(process, ids)` computes with. */
  function AspectsParams(ids: Option<seq<int>>): Params {
    if Selected(ids) then ApplyLevers(FullBaseline(), AspectLevers(ids.value), true) else FullBaseline()
  }

  /** The `lru_cache` table of `compute_process`, keyed by the process object
      and the ids tuple. */
  class ComputeProcessCache {
    var entries: map<(AeroProcess, Option<seq<int>>), Bundle>

    /** Each cached entry is what its process computes for its ids alone: the
        full baseline leaves nothing behind from earlier calls. */
    ghost predicate Coherent()
      reads this
    {
      forall key :: key in entries ==> entries[key] == key.0.simulate(AspectsParams(key.1))
    }

    constructor ()
      ensures entries == map[] && Coherent()
    {
      entries := map[];
    }

    /** `compute_process(process, aspects_ids)` behind its cache. */
    method ComputeProcess(process: AeroProcess, ids: Option<seq<int>>) returns (data: Bundle)
      requires Coherent()
      modifies this, process
      ensures Coherent()
      ensures data == process.simulate(AspectsParams(ids))
      ensures (process, ids) in old(entries) ==> entries == old(entries) && unchanged(process)
      ensures (process, ids) !in old(entries) ==>
                && entries == old(entries)[(process, ids) := data]
                && process.parameters == AspectsParams(ids)
                && process.data == data
    {
      if (process, ids) in entries {
        return entries[(process, ids)];
      }
      WriteFullBaseline(process);
      if Selected(ids) {
        WriteAspects(process, ids.value);
      }
      process.Compute();
      data := process.data;
      entries := entries[(process, ids) := data];
    }
  }

  class ProcessEngine {
    const process: AeroProcess

    /** `ProcessEngine()`: a new process from the simulator's defaults. */
    constructor (defaults: Params, simulate: Params -> Bundle)
      ensures fresh(process)
      ensures process.parameters == defaults && process.data == map[] && process.simulate == simulate
    {
      process := new AeroProcess(defaults, simulate);
    }

    /** `ProcessEngine.compute(aspects_ids)`: the cached computation for the
        ids as a tuple, or for None when there are none. */
    method Compute(cache: ComputeProcessCache, ids: Option<seq<int>>) returns (data: Bundle)
      requires cache.Coherent()
      modifies cache, process
      ensures cache.Coherent()
      ensures data == process.simulate(AspectsParams(ids))
      ensures (process, CacheKey(ids)) in old(cache.entries) ==> cache.entries == old(cache.entries) && unchanged(process)
      ensures (process, CacheKey(ids)) !in old(cache.entries) ==>
                cache.entries == old(cache.entries)[(process, CacheKey(ids)) := data]
    {
      data := cache.ComputeProcess(process, CacheKey(ids));
    }
  }

  /** The parameters depend on which ids occur, not on their order or
      repetitions. */
  lemma AspectsOrderFree(a: seq<int>, b: seq<int>)
    requires a != [] && b != []
    requires forall x :: x in a <==> x in b
    ensures AspectsParams(Some(a)) == AspectsParams(Some(b))
  {
  }

  /** No aspect and the empty list give the reference scenario. */
  lemma NoAspectIsReference()
    ensures AspectsParams(None) == FullBaseline()
    ensures AspectsParams(Some([])) == FullBaseline()
    ensures CacheKey<int>(Some([])) == CacheKey<int>(None) == None
  {
  }

  /** Ids other than 2 to 7 are neither validated nor acted upon. */
  lemma OtherIdsIgnored(ids: seq<int>, x: int)
    requires x < 2 || x > 7
    ensures AspectsParams(Some(ids + [x])) == AspectsParams(Some(ids))
  {
    if ids == [] {
      NoLeversWriteNothing(FullBaseline(), true);
      assert AspectLevers([x]) == NoLevers;
      assert ids + [x] == [x];
    } else {
      assert forall y :: y in ids + [x] && 2 <= y <= 7 <==> y in ids && 2 <= y <= 7;
    }
  }

  /** Two orders of the same aspects compute the same parameters under two
      distinct cache entries. */
  lemma ReorderedIdsAreDistinctKeys()
    ensures AspectsParams(Some([2, 5])) == AspectsParams(Some([5, 2]))
    ensures CacheKey(Some([2, 5])) != CacheKey(Some([5, 2]))
  {
    AspectsOrderFree([2, 5], [5, 2]);
  }

  /** Aspect 5 with aspect 2 zeroes short-range growth; alone it sets one percent. */
  lemma ModalShiftWithSobriety()
    ensures AspectsParams(Some([5, 2])).levers.cagrPassengerShortRangeReferencePeriodsValues == [0.0, 0.0, 0.0]
    ensures AspectsParams(Some([5])).levers.cagrPassengerShortRangeReferencePeriodsValues == [1.0, 1.0, 1.0]
  {
  }
}
