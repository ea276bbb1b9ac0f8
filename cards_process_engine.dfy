/** `src/core/aeromaps_utils/process_engine.py`: the engine keyed by card
    ids. The card ids are validated against the cards file; the baseline
    writes only part of the reference scenario, so what a card call leaves
    on the shared process can outlive it. Two caches sit in front: one per
    (process, ids tuple), one per (engine, ids). */
module CardsProcessEngine {
  import opened ProcessData
  import opened Simulation
  import CrudCards
  import AspectsProcessEngine

  const Sobriety := "sobriety"
  const EmissionsCompensation := "emmissions_compensation"
  const NewEnergies := "new_energies"
  const ModalShift := "modal_shift"
  const OperationsEfficiency := "operations_efficiency"
  const Technology := "technology"
  /** The three cards that are checked for but write nothing yet. */
  const NotImplementedCards: set<string> := {"carbon_budget", "reglementations_and_economical_measures", "awareness_and_education"}

  /** The baseline of this generation: 40 fields of the reference scenario.
      The medium-range, long-range and freight growth values, the load factor
      and the other fields are left as the process holds them. */
  function CardsBaseline(p: Params): Params {
    p.(
      levers := p.levers.(
        cagrPassengerShortRangeReferencePeriodsValues := [3.0, 3.0, 3.0],
        fleetRenewalDuration := 20.0,
        energyPerAskShortRangeDropinFuelGainReferenceYearsValues := [0.5],
        energyPerAskMediumRangeDropinFuelGainReferenceYearsValues := [0.5],
        energyPerAskLongRangeDropinFuelGainReferenceYearsValues := [0.5],
        operationsFinalGain := 5.0,
        operationsStartYear := 2025,
        operationsDuration := 25.0,
        biofuelShareReferenceYearsValues := [0.0, 0.0, 0.0, 0.0],
        electrofuelShareReferenceYearsValues := [0.0, 0.0, 0.0, 0.0],
        residualCarbonOffsetShareReferenceYearsValues := [0.0, 0.0, 0.0, 0.0]),
      scenario := p.scenario.(
        cagrPassengerShortRangeReferencePeriods := [2020, 2030, 2040, 2050],
        biofuelShareReferenceYears := [2020, 2030, 2040, 2050],
        electrofuelShareReferenceYears := [2020, 2030, 2040, 2050],
        carbonOffsetBaselineLevelVs2019ReferencePeriods := [2020, 2024, 2050],
        carbonOffsetBaselineLevelVs2019ReferencePeriodsValues := [500.0, 500.0],
        residualCarbonOffsetShareReferenceYears := [2020, 2030, 2040, 2050],
        netCarbonBudget := 850.0,
        carbonDioxydeRemoval2100 := 280.0,
        availableElectricity := 250.0,
        aviationBiomassAllocatedShare := 5.0,
        aviationElectricityAllocatedShare := 5.0,
        biofuelHefaFogShareReferenceYears := [2020, 2030, 2040, 2050],
        biofuelHefaFogShareReferenceYearsValues := [100.0, 100.0, 0.7, 0.7],
        biofuelHefaOthersShareReferenceYears := [2020, 2030, 2040, 2050],
        biofuelHefaOthersShareReferenceYearsValues := [0.0, 0.0, 3.8, 3.8],
        biofuelFtOthersShareReferenceYears := [2020, 2030, 2040, 2050],
        biofuelFtOthersShareReferenceYearsValues := [0.0, 0.0, 76.3, 76.3],
        biofuelFtMswShareReferenceYears := [2020, 2030, 2040, 2050],
        biofuelFtMswShareReferenceYearsValues := [0.0, 0.0, 7.4, 7.4],
        electricityEmissionFactorReferenceYears := [2020, 2030, 2040, 2050],
        electricityEmissionFactorReferenceYearsValues := [429.0, 200.0, 100.0, 30.0],
        hydrogenElectrolysisShareReferenceYears := [2020, 2030, 2040, 2050],
        hydrogenElectrolysisShareReferenceYearsValues := [2.0, 100.0, 100.0, 100.0],
        hydrogenGasCcsShareReferenceYears := [2020, 2030, 2040, 2050],
        hydrogenGasCcsShareReferenceYearsValues := [0.0, 0.0, 0.0, 0.0],
        hydrogenCoalCcsShareReferenceYears := [2020, 2030, 2040, 2050],
        hydrogenCoalCcsShareReferenceYearsValues := [0.0, 0.0, 0.0, 0.0],
        hydrogenGasShareReferenceYears := [2020, 2030, 2040, 2050],
        hydrogenGasShareReferenceYearsValues := [71.0, 0.0, 0.0, 0.0]))
  }

  /** The baseline assignments, one field after the other. */
  method WriteCardsBaseline(process: AeroProcess)
    modifies process`parameters
    ensures process.parameters == CardsBaseline(old(process.parameters))
  {
    process.parameters := process.parameters.(scenario := process.parameters.scenario.(cagrPassengerShortRangeReferencePeriods := [2020, 2030, 2040, 2050]));
    process.parameters := process.parameters.(levers := process.parameters.levers.(cagrPassengerShortRangeReferencePeriodsValues := [3.0, 3.0, 3.0]));
    process.parameters := process.parameters.(levers := process.parameters.levers.(fleetRenewalDuration := 20.0));
    process.parameters := process.parameters.(levers := process.parameters.levers.(energyPerAskShortRangeDropinFuelGainReferenceYearsValues := [0.5]));
    process.parameters := process.parameters.(levers := process.parameters.levers.(energyPerAskMediumRangeDropinFuelGainReferenceYearsValues := [0.5]));
    process.parameters := process.parameters.(levers := process.parameters.levers.(energyPerAskLongRangeDropinFuelGainReferenceYearsValues := [0.5]));
    process.parameters := process.parameters.(levers := process.parameters.levers.(operationsFinalGain := 5.0));
    process.parameters := process.parameters.(levers := process.parameters.levers.(operationsStartYear := 2025));
    process.parameters := process.parameters.(levers := process.parameters.levers.(operationsDuration := 25.0));
    process.parameters := process.parameters.(scenario := process.parameters.scenario.(biofuelShareReferenceYears := [2020, 2030, 2040, 2050]));
    process.parameters := process.parameters.(levers := process.parameters.levers.(biofuelShareReferenceYearsValues := [0.0, 0.0, 0.0, 0.0]));
    process.parameters := process.parameters.(scenario := process.parameters.scenario.(electrofuelShareReferenceYears := [2020, 2030, 2040, 2050]));
    process.parameters := process.parameters.(levers := process.parameters.levers.(electrofuelShareReferenceYearsValues := [0.0, 0.0, 0.0, 0.0]));
    process.parameters := process.parameters.(scenario := process.parameters.scenario.(carbonOffsetBaselineLevelVs2019ReferencePeriods := [2020, 2024, 2050]));
    process.parameters := process.parameters.(scenario := process.parameters.scenario.(carbonOffsetBaselineLevelVs2019ReferencePeriodsValues := [500.0, 500.0]));
    process.parameters := process.parameters.(scenario := process.parameters.scenario.(residualCarbonOffsetShareReferenceYears := [2020, 2030, 2040, 2050]));
    process.parameters := process.parameters.(levers := process.parameters.levers.(residualCarbonOffsetShareReferenceYearsValues := [0.0, 0.0, 0.0, 0.0]));
    process.parameters := process.parameters.(scenario := process.parameters.scenario.(netCarbonBudget := 850.0));
    process.parameters := process.parameters.(scenario := process.parameters.scenario.(carbonDioxydeRemoval2100 := 280.0));
    process.parameters := process.parameters.(scenario := process.parameters.scenario.(availableElectricity := 250.0));
    process.parameters := process.parameters.(scenario := process.parameters.scenario.(aviationBiomassAllocatedShare := 5.0));
    process.parameters := process.parameters.(scenario := process.parameters.scenario.(aviationElectricityAllocatedShare := 5.0));
    process.parameters := process.parameters.(scenario := process.parameters.scenario.(biofuelHefaFogShareReferenceYears := [2020, 2030, 2040, 2050]));
    process.parameters := process.parameters.(scenario := process.parameters.scenario.(biofuelHefaFogShareReferenceYearsValues := [100.0, 100.0, 0.7, 0.7]));
    process.parameters := process.parameters.(scenario := process.parameters.scenario.(biofuelHefaOthersShareReferenceYears := [2020, 2030, 2040, 2050]));
    process.parameters := process.parameters.(scenario := process.parameters.scenario.(biofuelHefaOthersShareReferenceYearsValues := [0.0, 0.0, 3.8, 3.8]));
    process.parameters := process.parameters.(scenario := process.parameters.scenario.(biofuelFtOthersShareReferenceYears := [2020, 2030, 2040, 2050]));
    process.parameters := process.parameters.(scenario := process.parameters.scenario.(biofuelFtOthersShareReferenceYearsValues := [0.0, 0.0, 76.3, 76.3]));
    process.parameters := process.parameters.(scenario := process.parameters.scenario.(biofuelFtMswShareReferenceYears := [2020, 2030, 2040, 2050]));
    process.parameters := process.parameters.(scenario := process.parameters.scenario.(biofuelFtMswShareReferenceYearsValues := [0.0, 0.0, 7.4, 7.4]));
    process.parameters := process.parameters.(scenario := process.parameters.scenario.(electricityEmissionFactorReferenceYears := [2020, 2030, 2040, 2050]));
    process.parameters := process.parameters.(scenario := process.parameters.scenario.(electricityEmissionFactorReferenceYearsValues := [429.0, 200.0, 100.0, 30.0]));
    process.parameters := process.parameters.(scenario := process.parameters.scenario.(hydrogenElectrolysisShareReferenceYears := [2020, 2030, 2040, 2050]));
    process.parameters := process.parameters.(scenario := process.parameters.scenario.(hydrogenElectrolysisShareReferenceYearsValues := [2.0, 100.0, 100.0, 100.0]));
    process.parameters := process.parameters.(scenario := process.parameters.scenario.(hydrogenGasCcsShareReferenceYears := [2020, 2030, 2040, 2050]));
    process.parameters := process.parameters.(scenario := process.parameters.scenario.(hydrogenGasCcsShareReferenceYearsValues := [0.0, 0.0, 0.0, 0.0]));
    process.parameters := process.parameters.(scenario := process.parameters.scenario.(hydrogenCoalCcsShareReferenceYears := [2020, 2030, 2040, 2050]));
    process.parameters := process.parameters.(scenario := process.parameters.scenario.(hydrogenCoalCcsShareReferenceYearsValues := [0.0, 0.0, 0.0, 0.0]));
    process.parameters := process.parameters.(scenario := process.parameters.scenario.(hydrogenGasShareReferenceYears := [2020, 2030, 2040, 2050]));
    process.parameters := process.parameters.(scenario := process.parameters.scenario.(hydrogenGasShareReferenceYearsValues := [71.0, 0.0, 0.0, 0.0]));
  }

  /** Which levers a list of card ids pulls, by membership. */
  function CardLevers(ids: seq<string>): (l: Levers)
    ensures l.sobriety <==> exists k :: 0 <= k < |ids| && ids[k] == Sobriety
    ensures l.emissionsCompensation <==> exists k :: 0 <= k < |ids| && ids[k] == EmissionsCompensation
    ensures l.newEnergies <==> exists k :: 0 <= k < |ids| && ids[k] == NewEnergies
    ensures l.modalShift <==> exists k :: 0 <= k < |ids| && ids[k] == ModalShift
    ensures l.operationsEfficiency <==> exists k :: 0 <= k < |ids| && ids[k] == OperationsEfficiency
    ensures l.technology <==> exists k :: 0 <= k < |ids| && ids[k] == Technology
  {
    Levers(Sobriety in ids, EmissionsCompensation in ids, NewEnergies in ids,
           ModalShift in ids, OperationsEfficiency in ids, Technology in ids)
  }

  /** The card writes, checked in source order; the technology card no
      longer introduces hydrogen. */
  method WriteCards(process: AeroProcess, ids: seq<string>)
    modifies process`parameters
    ensures process.parameters == ApplyLevers(old(process.parameters), CardLevers(ids), false)
  {
    if Sobriety in ids {
      process.WriteSobriety();
    }
    if EmissionsCompensation in ids {
      process.WriteEmissionsCompensation();
    }
    if NewEnergies in ids {
      process.WriteNewEnergies();
    }
    if ModalShift in ids {
      process.WriteModalShift(Sobriety in ids);
    }
    if OperationsEfficiency in ids {
      process.WriteOperationsEfficiency();
    }
    if Technology in ids {
      process.WriteTechnology(false);
    }
    // the cards of NotImplementedCards are checked for and write nothing
  }

  /** The ids pass validation: none given, or every one of them known. */
  predicate ValidIds(ids: Option<seq<string>>, known: seq<string>) {
    !Selected(ids) || forall k :: 0 <= k < |ids.value| ==> ids.value[k] in known
  }

  /** The parameters `compute_process(process, cards_ids)` computes with,
      starting from the parameters `p` the process holds. */
  function CardsParams(p: Params, ids: Option<seq<string>>): Params {
    var b := CardsBaseline(p);
    if Selected(ids) then ApplyLevers(b, CardLevers(ids.value), false) else b
  }

  /** The `lru_cache` table of `compute_process`, keyed by the process object
      and the ids tuple. A call that raises is not cached. */
  class ComputeProcessCache {
    var entries: map<(AeroProcess, Option<seq<string>>), Bundle>

    constructor ()
      ensures entries == map[]
    {
      entries := map[];
    }

    /** `compute_process(process, cards_ids)` behind its cache. */
    method ComputeProcess(process: AeroProcess, ids: Option<seq<string>>, cards: seq<CrudCards.Card>)
      returns (r: Result<Bundle>)
      modifies this, process
      ensures (process, ids) in old(entries) ==>
                r == Ok(old(entries)[(process, ids)]) && unchanged(this) && unchanged(process)
      ensures (process, ids) !in old(entries) && !ValidIds(ids, CrudCards.CardsIds(cards)) ==>
                r == Err(ValueError(InvalidCardIds)) && unchanged(this) && unchanged(process)
      ensures (process, ids) !in old(entries) && ValidIds(ids, CrudCards.CardsIds(cards)) ==>
                && process.parameters == CardsParams(old(process.parameters), ids)
                && r == Ok(process.simulate(process.parameters))
                && process.data == r.value
                && entries == old(entries)[(process, ids) := r.value]
    {
      if (process, ids) in entries {
        return Ok(entries[(process, ids)]);
      }
      if Selected(ids) {
        var known := CrudCards.CardsIds(cards);
        var k := 0;
        while k < |ids.value|
          invariant 0 <= k <= |ids.value|
          invariant forall j :: 0 <= j < k ==> ids.value[j] in known
        {
          if ids.value[k] !in known {
            return Err(ValueError(InvalidCardIds));
          }
          k := k + 1;
        }
      }
      WriteCardsBaseline(process);
      if Selected(ids) {
        WriteCards(process, ids.value);
      }
      process.Compute();
      r := Ok(process.data);
      entries := entries[(process, ids) := process.data];
    }
  }

  class ProcessEngine {
    const process: AeroProcess
    /** The `lru_cache` of `compute` for this engine, keyed by the ids as given. */
    var memo: map<Option<seq<string>>, Bundle>

    /** `ProcessEngine()`: a new process from the simulator's defaults. */
    constructor (defaults: Params, simulate: Params -> Bundle)
      ensures fresh(process) && memo == map[]
      ensures process.parameters == defaults && process.data == map[] && process.simulate == simulate
    {
      process := new AeroProcess(defaults, simulate);
      memo := map[];
    }

    /** `get_process`. */
    method GetProcess() returns (p: AeroProcess)
      ensures p == process
    {
      p := process;
    }

    /** `ProcessEngine.compute(cards_ids)`: answered from the memo when the
        ids were seen before; otherwise `compute_process` on the ids as a
        tuple, or on None when there are none. */
    method Compute(cache: ComputeProcessCache, ids: Option<seq<string>>, cards: seq<CrudCards.Card>)
      returns (r: Result<Bundle>)
      modifies this`memo, cache, process
      ensures ids in old(memo) ==>
                r == Ok(old(memo)[ids]) && memo == old(memo) && unchanged(cache, process)
      ensures ids !in old(memo) ==>
                var key := (process, CacheKey(ids));
                && (key in old(cache.entries) ==>
                      r == Ok(old(cache.entries)[key]) && unchanged(cache, process))
                && (key !in old(cache.entries) && !ValidIds(ids, CrudCards.CardsIds(cards)) ==>
                      r == Err(ValueError(InvalidCardIds)) && unchanged(cache, process))
                && (key !in old(cache.entries) && ValidIds(ids, CrudCards.CardsIds(cards)) ==>
                      && process.parameters == CardsParams(old(process.parameters), ids)
                      && r == Ok(process.simulate(process.parameters))
                      && cache.entries == old(cache.entries)[key := r.value])
                && memo == if r.Ok? then old(memo)[ids := r.value] else old(memo)
    {
      if ids in memo {
        return Ok(memo[ids]);
      }
      r := cache.ComputeProcess(process, CacheKey(ids), cards);
      if r.Ok? {
        memo := memo[ids := r.value];
      }
    }
  }

  /** The parameters depend on which ids occur, not on their order or
      repetitions, and so does validation. */
  lemma CardsOrderFree(p: Params, a: seq<string>, b: seq<string>, known: seq<string>)
    requires forall x :: x in a <==> x in b
    ensures CardsParams(p, Some(a)) == CardsParams(p, Some(b))
    ensures ValidIds(Some(a), known) <==> ValidIds(Some(b), known)
  {
    assert a == [] <==> b == [] by {
      if a != [] { assert a[0] in b; }
      if b != [] { assert b[0] in a; }
    }
    if a != [] && b != [] {
      assert CardLevers(a) == CardLevers(b);
    }
    if ValidIds(Some(a), known) {
      forall k | 0 <= k < |b| ensures b[k] in known {
        assert b[k] in a;
        var j :| 0 <= j < |a| && a[j] == b[k];
      }
    }
    if ValidIds(Some(b), known) {
      forall k | 0 <= k < |a| ensures a[k] in known {
        assert a[k] in b;
        var j :| 0 <= j < |b| && b[j] == a[k];
      }
    }
  }

  /** The three cards not yet implemented write nothing beyond the baseline. */
  lemma NotImplementedCardsWriteNothing(p: Params, ids: seq<string>)
    requires forall k :: 0 <= k < |ids| ==> ids[k] in NotImplementedCards
    ensures CardsParams(p, Some(ids)) == CardsParams(p, None)
  {
    if ids != [] {
      assert CardLevers(ids) == NoLevers;
      NoLeversWriteNothing(CardsBaseline(p), false);
    }
  }

  /** With no card, the baseline's values: short-range growth of three
      percent and no biofuel; on the reference scenario the baseline of this
      generation changes nothing. */
  lemma NoCardIsBaseline(p: Params)
    ensures CardsParams(p, None) == CardsParams(p, Some([])) == CardsBaseline(p)
    ensures CardsParams(p, None).levers.cagrPassengerShortRangeReferencePeriodsValues == [3.0, 3.0, 3.0]
    ensures CardsParams(p, None).levers.biofuelShareReferenceYearsValues == [0.0, 0.0, 0.0, 0.0]
    ensures CardsBaseline(AspectsProcessEngine.FullBaseline()) == AspectsProcessEngine.FullBaseline()
  {
  }

  /** `p` and `q` agree on every field except the four a card writes and the
      baseline does not reset. */
  predicate AgreeOutsideResidue(p: Params, q: Params) {
    p == q.(
      levers := q.levers.(
        cagrPassengerMediumRangeReferencePeriodsValues := p.levers.cagrPassengerMediumRangeReferencePeriodsValues,
        cagrPassengerLongRangeReferencePeriodsValues := p.levers.cagrPassengerLongRangeReferencePeriodsValues,
        cagrFreightReferencePeriodsValues := p.levers.cagrFreightReferencePeriodsValues,
        loadFactorEndYear := p.levers.loadFactorEndYear))
  }

  lemma BaselineKeepsAgreement(p: Params, q: Params)
    requires AgreeOutsideResidue(p, q)
    ensures AgreeOutsideResidue(CardsBaseline(p), CardsBaseline(q))
  {
  }

  lemma LeversKeepAgreement(p: Params, q: Params, l: Levers)
    requires AgreeOutsideResidue(p, q)
    ensures AgreeOutsideResidue(ApplyLevers(p, l, false), ApplyLevers(q, l, false))
  {
  }

  /** What earlier calls leave behind is confined to the three growth values
      of sobriety and the load factor of operations efficiency: they are
      reset only by their own card, and otherwise carried over as the
      process held them. */
  lemma ResidueConfined(p: Params, q: Params, ids: Option<seq<string>>)
    requires AgreeOutsideResidue(p, q)
    ensures AgreeOutsideResidue(CardsParams(p, ids), CardsParams(q, ids))
  {
    BaselineKeepsAgreement(p, q);
    if Selected(ids) {
      LeversKeepAgreement(CardsBaseline(p), CardsBaseline(q), CardLevers(ids.value));
    }
  }

  /** Sobriety's growth values are reset only by the sobriety card. */
  lemma SobrietyResidue(p: Params, ids: Option<seq<string>>)
    ensures var r := CardsParams(p, ids);
            SobrietyGrowth(r) == if Selected(ids) && Sobriety in ids.value then [[1.5], [1.5], [1.5]] else SobrietyGrowth(p)
  {
    var b := CardsBaseline(p);
    assert SobrietyGrowth(b) == SobrietyGrowth(p);
    if Selected(ids) {
      SobrietyLeverGrowth(b, CardLevers(ids.value), false);
    }
  }

  /** The load factor is reset only by the operations-efficiency card. */
  lemma LoadFactorResidue(p: Params, ids: Option<seq<string>>)
    ensures CardsParams(p, ids).levers.loadFactorEndYear ==
              if Selected(ids) && OperationsEfficiency in ids.value then 90.0 else p.levers.loadFactorEndYear
  {
    var b := CardsBaseline(p);
    assert b.levers.loadFactorEndYear == p.levers.loadFactorEndYear;
    if Selected(ids) {
      OperationsEfficiencyLeverLoadFactor(b, CardLevers(ids.value), false);
    }
  }

  /** On a process that starts from the reference scenario, the reference
      computed after a sobriety call keeps sobriety's growth values, while
      the reference computed first does not. */
  lemma ReferenceAfterSobrietyDiffers()
    ensures var reference := AspectsProcessEngine.FullBaseline();
            var afterSobriety := CardsParams(reference, Some([Sobriety]));
            && CardsParams(afterSobriety, None).levers.cagrPassengerMediumRangeReferencePeriodsValues == [1.5]
            && CardsParams(reference, None).levers.cagrPassengerMediumRangeReferencePeriodsValues == [3.0]
  {
    var reference := AspectsProcessEngine.FullBaseline();
    SobrietyResidue(reference, Some([Sobriety]));
    SobrietyResidue(CardsParams(reference, Some([Sobriety])), None);
  }
}
