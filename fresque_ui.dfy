/** `src/ui/fresque_aeromaps_UI.py`: the main interface's bookkeeping of
    groups. Per group it keeps a list of checkboxes (one per card name) and
    a process engine, and the data each engine computed for its group's
    checked cards; the multidisciplinary figures are laid out two by two. */
module FresqueUI {
  import opened ProcessData
  import opened Simulation
  import opened CrudCards
  import CardsProcessEngine
  import UIFigures
  import UIConstants

  function Min(a: int, b: int): int {
    if a <= b then a else b
  }

  /** `Box(xs[index : index + 2])` for index = 0, 2, 4, …: consecutive
      pairs, the last one single when |xs| is odd. */
  function Pairs<F>(xs: seq<F>): seq<seq<F>>
    decreases |xs|
  {
    if |xs| <= 2 then (if xs == [] then [] else [xs])
    else [xs[..2]] + Pairs(xs[2..])
  }

  /** The figures of the boxes, box after box. */
  function Flatten<F>(boxes: seq<seq<F>>): seq<F> {
    if boxes == [] then [] else boxes[0] + Flatten(boxes[1..])
  }

  /** The boxes of `create_multidisciplinary_boxes`: for an even group
      count, the reference alone then the figures by pairs; for an odd
      count, the reference and the figures by pairs. */
  function Boxes<F>(numberOfGroups: int, reference: F, figures: seq<F>): seq<seq<F>> {
    if numberOfGroups % 2 == 0 then [[reference]] + Pairs(figures) else Pairs([reference] + figures)
  }

  lemma PairsStep<F>(xs: seq<F>, index: nat)
    requires index < |xs|
    ensures Pairs(xs[index..]) == [xs[index..Min(index + 2, |xs|)]] + Pairs(xs[Min(index + 2, |xs|)..])
  {
    var rest := xs[index..];
    if |rest| > 2 {
      assert rest[..2] == xs[index..index + 2];
      assert rest[2..] == xs[index + 2..];
    } else {
      assert rest == xs[index..|xs|];
      assert xs[|xs|..] == [];
    }
  }

  /** Appends the pairs of `xs` to `boxes`, as the loop over
      `range(0, len(xs), 2)` does. */
  method AppendPairs<F>(boxes: seq<seq<F>>, xs: seq<F>) returns (r: seq<seq<F>>)
    ensures r == boxes + Pairs(xs)
  {
    r := boxes;
    var index := 0;
    while index < |xs|
      invariant 0 <= index
      invariant r + Pairs(xs[Min(index, |xs|)..]) == boxes + Pairs(xs)
    {
      PairsStep(xs, index);
      r := r + [xs[index..Min(index + 2, |xs|)]];
      index := index + 2;
    }
    assert xs[Min(index, |xs|)..] == [];
  }

  /** `create_multidisciplinary_boxes`. */
  method CreateMultidisciplinaryBoxes<F>(numberOfGroups: int, reference: F, figures: seq<F>) returns (boxes: seq<seq<F>>)
    ensures boxes == Boxes(numberOfGroups, reference, figures)
  {
    boxes := [];
    if numberOfGroups % 2 == 0 {
      boxes := boxes + [[reference]];
      boxes := AppendPairs(boxes, figures);
    } else {
      var allFigures := [reference] + figures;
      boxes := AppendPairs(boxes, allFigures);
    }
  }

  /** Pairing loses and reorders nothing, and makes boxes of one or two. */
  lemma {:induction false} PairsFlatten<F>(xs: seq<F>)
    ensures Flatten(Pairs(xs)) == xs
    ensures forall k :: 0 <= k < |Pairs(xs)| ==> 1 <= |Pairs(xs)[k]| <= 2
    ensures |Pairs(xs)| == (|xs| + 1) / 2
    decreases |xs|
  {
    if |xs| > 2 {
      PairsFlatten(xs[2..]);
      assert Pairs(xs)[1..] == Pairs(xs[2..]);
      assert xs[..2] + xs[2..] == xs;
    } else if xs != [] {
      assert Pairs(xs)[1..] == [];
    }
  }

  /** Box after box, the boxes hold the reference then the figures in
      order, none more than two; with one figure per group there are
      `number_of_groups // 2 + 1` boxes whatever the parity. */
  lemma BoxesLayout<F>(numberOfGroups: int, reference: F, figures: seq<F>)
    ensures Flatten(Boxes(numberOfGroups, reference, figures)) == [reference] + figures
    ensures forall k :: 0 <= k < |Boxes(numberOfGroups, reference, figures)| ==>
              1 <= |Boxes(numberOfGroups, reference, figures)[k]| <= 2
    ensures numberOfGroups == |figures| ==> |Boxes(numberOfGroups, reference, figures)| == numberOfGroups / 2 + 1
  {
    if numberOfGroups % 2 == 0 {
      PairsFlatten(figures);
      assert ([[reference]] + Pairs(figures))[1..] == Pairs(figures);
    } else {
      PairsFlatten([reference] + figures);
    }
  }

  /** A new group's checkboxes: one per card name, none checked. */
  function Unchecked(cards: seq<Card>): (boxes: seq<bool>)
    ensures |boxes| == |CardsNames(cards)|
    ensures forall i :: 0 <= i < |boxes| ==> !boxes[i]
  {
    seq(|CardsNames(cards)|, _ => false)
  }

  class FresqueAeroMapsUI {
    /** The cards file, whose names label the checkboxes. */
    const cards: seq<Card>
    /** What `create_process()` and `compute()` stand for in every engine. */
    const defaults: Params
    const simulate: Params -> Bundle
    /** The cache shared by every engine's `compute_process`. */
    const cache: CardsProcessEngine.ComputeProcessCache
    const referenceEngine: CardsProcessEngine.ProcessEngine

    var numberOfGroups: nat
    var checkboxesLists: seq<seq<bool>>
    var processEngines: seq<CardsProcessEngine.ProcessEngine>
    var referenceData: Bundle
    var processEnginesData: seq<Bundle>

    ghost function Engines(): set<CardsProcessEngine.ProcessEngine>
      reads this
    {
      set i | 0 <= i < |processEngines| :: processEngines[i]
    }

    ghost function Processes(): set<AeroProcess>
      reads this
    {
      set i | 0 <= i < |processEngines| :: processEngines[i].process
    }

    /** Each group has an engine of its own, distinct from the reference one. */
    ghost predicate DistinctEngines()
      reads this
    {
      && (forall i, j :: 0 <= i < j < |processEngines| ==> processEngines[i] != processEngines[j])
      && referenceEngine !in processEngines
    }

    /** Every group has one checkbox per card name. */
    ghost predicate ListsWellFormed()
      reads this
    {
      forall i :: 0 <= i < |checkboxesLists| ==> |checkboxesLists[i]| == |CardsNames(cards)|
    }

    /** One checkbox list and one engine per group. */
    ghost predicate Valid()
      reads this
    {
      && DistinctEngines()
      && ListsWellFormed()
      && |checkboxesLists| == |processEngines| == numberOfGroups
    }

    /** The data of every group is what its engine holds for its current
        checked cards. */
    ghost predicate DataCurrent()
      reads this, Engines()
    {
      && |processEnginesData| == Min(|processEngines|, |checkboxesLists|)
      && forall i :: 0 <= i < |processEnginesData| ==>
           var key := UIFigures.GroupKey(checkboxesLists[i], cards);
           key.Ok? && key.value in processEngines[i].memo && processEnginesData[i] == processEngines[i].memo[key.value]
    }

    /** The reference data is what the reference engine holds for no card. */
    ghost predicate ReferenceCurrent()
      reads this, referenceEngine
    {
      None in referenceEngine.memo && referenceData == referenceEngine.memo[None]
    }

    /** The interface for a valid group count: the checkbox lists, the
        reference engine and one engine per group, then the data of all of
        them. */
    constructor (numberOfGroups: nat, cards: seq<Card>, defaults: Params, simulate: Params -> Bundle,
                 cache: CardsProcessEngine.ComputeProcessCache)
      requires UIConstants.MinNumberOfGroups <= numberOfGroups <= UIConstants.MaxNumberOfGroups
      modifies cache
      ensures Valid() && DataCurrent() && ReferenceCurrent()
      ensures this.numberOfGroups == numberOfGroups && this.cards == cards && this.cache == cache
      ensures checkboxesLists == seq(numberOfGroups, _ => Unchecked(cards))
      ensures fresh(referenceEngine) && forall i :: 0 <= i < numberOfGroups ==> fresh(processEngines[i])
    {
      this.numberOfGroups := numberOfGroups;
      this.cards := cards;
      this.defaults := defaults;
      this.simulate := simulate;
      this.cache := cache;
      var lists: seq<seq<bool>> := [];
      for k := 0 to numberOfGroups
        invariant lists == seq(k, _ => Unchecked(cards))
      {
        lists := lists + [Unchecked(cards)];
      }
      checkboxesLists := lists;
      var reference := new CardsProcessEngine.ProcessEngine(defaults, simulate);
      referenceEngine := reference;
      var engines: seq<CardsProcessEngine.ProcessEngine> := [];
      for k := 0 to numberOfGroups
        invariant |engines| == k
        invariant forall i :: 0 <= i < k ==> fresh(engines[i]) && fresh(engines[i].process) && engines[i] != reference
        invariant forall i, j :: 0 <= i < j < k ==> engines[i] != engines[j]
      {
        var engine := new CardsProcessEngine.ProcessEngine(defaults, simulate);
        engines := engines + [engine];
      }
      processEngines := engines;
      referenceData := map[];
      processEnginesData := [];
      new;
      ComputeProcessEngines(true);
    }

    /** `_compute_process_engines`: the reference data when asked, then the
        data of every group from its engine and its checkboxes, in order. A
        key built from well-formed checkboxes never fails. */
    method ComputeProcessEngines(computeReference: bool)
      requires DistinctEngines() && ListsWellFormed()
      modifies this`referenceData, this`processEnginesData, cache, referenceEngine, referenceEngine.process,
               Engines(), Processes()
      ensures DistinctEngines() && DataCurrent()
      ensures computeReference ==> ReferenceCurrent()
      ensures !computeReference ==> referenceData == old(referenceData) && referenceEngine.memo == old(referenceEngine.memo)
    {
      if computeReference {
        UIFigures.NoCheckedBoxIsReference([], cards);
        var data := UIFigures.ComputeProcessEngine(referenceEngine, cache, [], cards);
        referenceData := data.value;
      }
      processEnginesData := [];
      var n := Min(|processEngines|, |checkboxesLists|);
      for i := 0 to n
        invariant |processEnginesData| == i
        invariant forall j :: 0 <= j < i ==>
                    var key := UIFigures.GroupKey(checkboxesLists[j], cards);
                    key.Ok? && key.value in processEngines[j].memo && processEnginesData[j] == processEngines[j].memo[key.value]
        invariant computeReference ==> ReferenceCurrent()
        invariant !computeReference ==> referenceData == old(referenceData) && referenceEngine.memo == old(referenceEngine.memo)
      {
        UIFigures.NoCheckedBoxIsReference(checkboxesLists[i], cards);
        var data := UIFigures.ComputeProcessEngine(processEngines[i], cache, checkboxesLists[i], cards);
        processEnginesData := processEnginesData + [data.value];
      }
    }

    /** `_update_checkboxes_lists`: grows the lists with new unchecked
        groups, or keeps the first `number_of_groups` of them. */
    method UpdateCheckboxesLists(oldNumberOfGroups: nat)
      modifies this`checkboxesLists
      ensures oldNumberOfGroups == numberOfGroups ==> checkboxesLists == old(checkboxesLists)
      ensures numberOfGroups > oldNumberOfGroups ==>
                checkboxesLists == old(checkboxesLists) + seq(numberOfGroups - oldNumberOfGroups, _ => Unchecked(cards))
      ensures numberOfGroups < oldNumberOfGroups ==>
                checkboxesLists == old(checkboxesLists)[..Min(numberOfGroups, |old(checkboxesLists)|)]
    {
      if oldNumberOfGroups == numberOfGroups {
        return;
      }
      if numberOfGroups > oldNumberOfGroups {
        for k := 0 to numberOfGroups - oldNumberOfGroups
          invariant checkboxesLists == old(checkboxesLists) + seq(k, _ => Unchecked(cards))
        {
          checkboxesLists := checkboxesLists + [Unchecked(cards)];
        }
      } else {
        checkboxesLists := checkboxesLists[..Min(numberOfGroups, |checkboxesLists|)];
      }
    }

    /** `_update_process_engines`: grows the engines with new ones, or keeps
        the first `number_of_groups` of them, then recomputes the data of
        every group. */
    method UpdateProcessEngines(oldNumberOfGroups: nat)
      requires DistinctEngines() && ListsWellFormed()
      modifies this`processEngines, this`processEnginesData, this`referenceData, cache, referenceEngine,
               referenceEngine.process, Engines(), Processes()
      ensures DistinctEngines() && referenceData == old(referenceData) && referenceEngine.memo == old(referenceEngine.memo)
      ensures oldNumberOfGroups == numberOfGroups ==> unchanged(this)
      ensures numberOfGroups > oldNumberOfGroups ==>
                && |processEngines| == |old(processEngines)| + (numberOfGroups - oldNumberOfGroups)
                && processEngines[..|old(processEngines)|] == old(processEngines)
                && forall i :: |old(processEngines)| <= i < |processEngines| ==> fresh(processEngines[i])
      ensures numberOfGroups < oldNumberOfGroups ==>
                processEngines == old(processEngines)[..Min(numberOfGroups, |old(processEngines)|)]
      ensures oldNumberOfGroups != numberOfGroups ==> DataCurrent()
    {
      if oldNumberOfGroups == numberOfGroups {
        return;
      }
      if numberOfGroups > oldNumberOfGroups {
        for k := 0 to numberOfGroups - oldNumberOfGroups
          invariant |processEngines| == |old(processEngines)| + k
          invariant processEngines[..|old(processEngines)|] == old(processEngines)
          invariant forall i :: |old(processEngines)| <= i < |processEngines| ==>
                      fresh(processEngines[i]) && fresh(processEngines[i].process)
          invariant DistinctEngines()
          invariant unchanged(old(Engines())) && unchanged(old(Processes())) && unchanged(referenceEngine)
          invariant referenceData == old(referenceData)
        {
          var engine := new CardsProcessEngine.ProcessEngine(defaults, simulate);
          processEngines := processEngines + [engine];
        }
      } else {
        processEngines := processEngines[..Min(numberOfGroups, |processEngines|)];
      }
      ComputeProcessEngines(false);
    }

    /** `_on_group_selector_change`: records the new count and, when it
        changed, updates the checkbox lists and the engines; afterwards
        there is again one list, one engine and one datum per group, the
        groups that remain keeping their lists and engines. */
    method OnGroupSelectorChange(value: nat)
      requires Valid()
      modifies this, cache, referenceEngine, referenceEngine.process, Engines(), Processes()
      ensures Valid() && numberOfGroups == value
      ensures value == old(numberOfGroups) ==>
                checkboxesLists == old(checkboxesLists) && processEngines == old(processEngines) &&
                processEnginesData == old(processEnginesData)
      ensures value != old(numberOfGroups) ==>
                && checkboxesLists[..Min(value, old(numberOfGroups))] == old(checkboxesLists)[..Min(value, old(numberOfGroups))]
                && processEngines[..Min(value, old(numberOfGroups))] == old(processEngines)[..Min(value, old(numberOfGroups))]
                && DataCurrent()
    {
      var oldNumberOfGroups := numberOfGroups;
      numberOfGroups := value;
      if oldNumberOfGroups == numberOfGroups {
        return;
      }
      UpdateCheckboxesLists(oldNumberOfGroups);
      UpdateProcessEngines(oldNumberOfGroups);
    }
  }

  /** `FresqueAeroMapsUI(default_number_of_groups)`: a group count outside
      [1, 10] is a ValueError. */
  method NewInterface(numberOfGroups: int, cards: seq<Card>, defaults: Params, simulate: Params -> Bundle,
                      cache: CardsProcessEngine.ComputeProcessCache)
    returns (r: Result<FresqueAeroMapsUI>)
    modifies cache
    ensures r.Err? <==> !(UIConstants.MinNumberOfGroups <= numberOfGroups <= UIConstants.MaxNumberOfGroups)
    ensures r.Err? ==> r.error == ValueError(GroupCountOutOfRange) && unchanged(cache)
    ensures r.Ok? ==> fresh(r.value) && r.value.Valid() && r.value.numberOfGroups == numberOfGroups
  {
    if !(1 <= numberOfGroups <= 10) {
      return Err(ValueError(GroupCountOutOfRange));
    }
    var ui := new FresqueAeroMapsUI(numberOfGroups, cards, defaults, simulate, cache);
    return Ok(ui);
  }
}
