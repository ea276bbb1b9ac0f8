/** `src/ui/utils/fresque_aeromaps_UI_figures.py`: turning a group's
    checkboxes into the key its engine computes with, the items of the
    multidisciplinary legend, and the palette of the comparison graph. */
module UIFigures {
  import opened ProcessData
  import opened CrudCards
  import CardsProcessEngine
  import Simulation
  import UIConstants

  /** The ids collected for the checked boxes among the first |checked|:
      box i stands for the i-th card name, whose id is looked up by name; a
      checked box past the last name is an IndexError. */
  function SelectedIds(checked: seq<bool>, cards: seq<Card>): Result<seq<string>> {
    if checked == [] then Ok([])
    else
      var ids :- SelectedIds(checked[..|checked| - 1], cards);
      var i := |checked| - 1;
      if !checked[i] then Ok(ids)
      else if i >= |CardsNames(cards)| then Err(IndexError)
      else
        var id :- IdByName(cards, CardsNames(cards)[i]);
        Ok(ids + [id])
  }

  /** `tuple(selected_ids) if selected_ids else None`. */
  function EngineKey(ids: seq<string>): (key: Option<seq<string>>)
    ensures key.None? <==> ids == []
  {
    if ids == [] then None else Some(ids)
  }

  /** The key `compute_process_engine` passes to the engine. */
  function GroupKey(checked: seq<bool>, cards: seq<Card>): Result<Option<seq<string>>> {
    var ids :- SelectedIds(checked, cards);
    Ok(EngineKey(ids))
  }

  /** A failure on a prefix of the boxes is the final outcome. */
  lemma {:induction false} SelectedIdsFailureSticks(checked: seq<bool>, cards: seq<Card>, j: nat)
    requires j <= |checked| && SelectedIds(checked[..j], cards).Err?
    ensures SelectedIds(checked, cards) == SelectedIds(checked[..j], cards)
    decreases |checked| - j
  {
    if j < |checked| {
      assert checked[..j + 1][..j] == checked[..j];
      SelectedIdsFailureSticks(checked, cards, j + 1);
    } else {
      assert checked[..j] == checked;
    }
  }

  /** `compute_process_engine`: collects the ids of the checked boxes in
      order, then asks the engine for the data of that key. The key is
      answered from the engine's memo when it was asked before, and the
      memo then holds the data returned. */
  method ComputeProcessEngine(engine: CardsProcessEngine.ProcessEngine, cache: CardsProcessEngine.ComputeProcessCache,
                              checked: seq<bool>, cards: seq<Card>)
    returns (r: Result<Bundle>)
    modifies engine`memo, cache, engine.process
    ensures GroupKey(checked, cards).Err? ==>
              r == Err(GroupKey(checked, cards).error) && unchanged(engine, cache, engine.process)
    ensures GroupKey(checked, cards).Ok? ==>
              var key := GroupKey(checked, cards).value;
              && r.Ok?
              && (key in old(engine.memo) ==> r == Ok(old(engine.memo)[key]) && unchanged(cache, engine.process))
              && (key !in old(engine.memo) ==>
                    var cacheKey := (engine.process, Simulation.CacheKey(key));
                    && (cacheKey in old(cache.entries) ==>
                          r == Ok(old(cache.entries)[cacheKey]) && unchanged(cache, engine.process))
                    && (cacheKey !in old(cache.entries) ==>
                          && engine.process.parameters == CardsProcessEngine.CardsParams(old(engine.process.parameters), key)
                          && r == Ok(engine.process.simulate(engine.process.parameters))
                          && cache.entries == old(cache.entries)[cacheKey := r.value]))
              && engine.memo == old(engine.memo)[key := r.value]
  {
    var names := CardsNames(cards);
    var ids: seq<string> := [];
    var i := 0;
    while i < |checked|
      invariant 0 <= i <= |checked|
      invariant SelectedIds(checked[..i], cards) == Ok(ids)
      invariant unchanged(engine, cache, engine.process)
    {
      assert checked[..i + 1][..i] == checked[..i];
      if checked[i] {
        if i >= |names| {
          assert SelectedIds(checked[..i + 1], cards) == Err(IndexError);
          SelectedIdsFailureSticks(checked, cards, i + 1);
          return Err(IndexError);
        }
        assert names[i] in names;
        var id := CardIdByName(cards, names[i]);
        ids := ids + [id.value];
      }
      i := i + 1;
    }
    assert checked[..i] == checked;
    assert GroupKey(checked, cards) == Ok(EngineKey(ids));
    SelectedIdsAreKnown(checked, cards);
    r := engine.Compute(cache, EngineKey(ids), cards);
  }

  /** The positions of the checked boxes, in order. */
  function CheckedPositions(checked: seq<bool>): (ps: seq<nat>)
    ensures forall j :: 0 <= j < |ps| ==> ps[j] < |checked| && checked[ps[j]]
  {
    if checked == [] then []
    else
      var ps := CheckedPositions(checked[..|checked| - 1]);
      if checked[|checked| - 1] then ps + [|checked| - 1] else ps
  }

  /** Every collected id is the id of a card, so the engine's validation
      of a key built from the checkboxes never fails. */
  lemma {:induction false} SelectedIdsAreKnown(checked: seq<bool>, cards: seq<Card>)
    requires SelectedIds(checked, cards).Ok?
    ensures forall k :: 0 <= k < |SelectedIds(checked, cards).value| ==> SelectedIds(checked, cards).value[k] in CardsIds(cards)
    ensures CardsProcessEngine.ValidIds(EngineKey(SelectedIds(checked, cards).value), CardsIds(cards))
  {
    if checked != [] {
      var prefix := checked[..|checked| - 1];
      SelectedIdsAreKnown(prefix, cards);
      var i := |checked| - 1;
      if checked[i] {
        var r := IdByName(cards, CardsNames(cards)[i]);
        var c :| 0 <= c < |cards| && cards[c].name == CardsNames(cards)[i] && r.value == cards[c].id &&
                 forall j :: 0 <= j < c ==> cards[j].name != CardsNames(cards)[i];
        assert CardsIds(cards)[c] == r.value;
      }
    }
  }

  /** The ids found by name for the cards at positions `ps`. */
  function IdsByNameAt(cards: seq<Card>, ps: seq<nat>): (r: seq<string>)
    requires forall j :: 0 <= j < |ps| ==> ps[j] < |cards|
    ensures |r| == |ps|
    ensures forall j :: 0 <= j < |ps| ==> r[j] == IdByName(cards, cards[ps[j]].name).value
  {
    seq(|ps|, j requires 0 <= j < |ps| => IdByName(cards, cards[ps[j]].name).value)
  }

  /** Box by box, in checkbox order, the ids of the card names of the
      checked boxes, provided every checked box has a card name. */
  lemma {:induction false} SelectedIdsInCheckboxOrder(checked: seq<bool>, cards: seq<Card>)
    requires forall i :: 0 <= i < |checked| && checked[i] ==> i < |cards|
    ensures SelectedIds(checked, cards) == Ok(IdsByNameAt(cards, CheckedPositions(checked)))
  {
    if checked != [] {
      var prefix := checked[..|checked| - 1];
      SelectedIdsInCheckboxOrder(prefix, cards);
      var i := |checked| - 1;
      if checked[i] {
        assert CardsNames(cards)[i] == cards[i].name;
        assert CardsNames(cards)[i] in CardsNames(cards);
        var ps := CheckedPositions(prefix);
        assert IdsByNameAt(cards, ps + [i]) == IdsByNameAt(cards, ps) + [IdByName(cards, cards[i].name).value];
      }
    }
  }

  /** When no two cards share a name, the key lists the ids of the cards of
      the checked boxes in checkbox order. */
  lemma SelectedIdsOfDistinctNames(checked: seq<bool>, cards: seq<Card>)
    requires forall i :: 0 <= i < |checked| && checked[i] ==> i < |cards|
    requires forall i, j :: 0 <= i < j < |cards| ==> cards[i].name != cards[j].name
    ensures var ps := CheckedPositions(checked);
            && SelectedIds(checked, cards).Ok?
            && |SelectedIds(checked, cards).value| == |ps|
            && forall j :: 0 <= j < |ps| ==> SelectedIds(checked, cards).value[j] == cards[ps[j]].id
  {
    SelectedIdsInCheckboxOrder(checked, cards);
    var ps := CheckedPositions(checked);
    forall j | 0 <= j < |ps|
      ensures IdByName(cards, cards[ps[j]].name) == Ok(cards[ps[j]].id)
    {
      IdByNameOfCard(cards, ps[j]);
    }
  }

  /** The key is None (the reference scenario) exactly when no box is
      checked, in particular for the default empty list; a failure can only
      be a checked box past the card names. */
  lemma {:induction false} NoCheckedBoxIsReference(checked: seq<bool>, cards: seq<Card>)
    ensures GroupKey(checked, cards).Ok? <==> forall i :: 0 <= i < |checked| && checked[i] ==> i < |cards|
    ensures GroupKey(checked, cards).Err? ==> GroupKey(checked, cards).error == IndexError
    ensures GroupKey(checked, cards) == Ok(None) <==> forall i :: 0 <= i < |checked| ==> !checked[i]
  {
    if checked != [] {
      var prefix := checked[..|checked| - 1];
      NoCheckedBoxIsReference(prefix, cards);
      var i := |checked| - 1;
      assert forall k :: 0 <= k < i ==> prefix[k] == checked[k];
      if checked[i] && i < |cards| {
        assert CardsNames(cards)[i] in CardsNames(cards);
      }
      if SelectedIds(prefix, cards).Err? {
        SelectedIdsFailureSticks(checked, cards, i);
        assert checked[..i] == prefix;
      }
    }
  }

  /** An item of the multidisciplinary legend: a coloured square, a label,
      or the space between two entries. */
  datatype LegendItem = Swatch(colour: string, opacity: string) | Text(caption: string) | Spacer

  /** The items of the first k entries: a square and a label each, and a
      space after every entry whose label differs from the last label. */
  function LegendEntries(colours: seq<string>, labels: seq<string>, opacities: seq<string>, k: nat): seq<LegendItem>
    requires k <= |colours| == |labels| == |opacities|
  {
    if k == 0 then []
    else
      var spacer := if labels[k - 1] != labels[|labels| - 1] then [Spacer] else [];
      LegendEntries(colours, labels, opacities, k - 1) + [Swatch(colours[k - 1], opacities[k - 1]), Text(labels[k - 1])] + spacer
  }

  /** The items of `draw_multidisciplinary_graph_legend`, or the ValueError
      it raises for lists of different lengths. */
  function Legend(colours: seq<string>, labels: seq<string>, opacities: seq<string>): Result<seq<LegendItem>> {
    if |colours| != |labels| || |colours| != |opacities| then Err(ValueError(LegendLengthMismatch))
    else Ok(LegendEntries(colours, labels, opacities, |labels|))
  }

  /** `draw_multidisciplinary_graph_legend`: checks the lengths, then
      appends the items entry by entry. */
  method DrawLegend(colours: seq<string>, labels: seq<string>, opacities: seq<string>)
    returns (r: Result<seq<LegendItem>>)
    ensures r == Legend(colours, labels, opacities)
  {
    if |colours| != |labels| || |colours| != |opacities| {
      return Err(ValueError(LegendLengthMismatch));
    }
    var items: seq<LegendItem> := [];
    var k := 0;
    while k < |labels|
      invariant 0 <= k <= |labels|
      invariant items == LegendEntries(colours, labels, opacities, k)
    {
      items := items + [Swatch(colours[k], opacities[k]), Text(labels[k])];
      if labels[k] != labels[|labels| - 1] {
        items := items + [Spacer];
      }
      k := k + 1;
    }
    return Ok(items);
  }

  /** The items without the spaces. */
  function WithoutSpacers(items: seq<LegendItem>): (r: seq<LegendItem>)
    ensures |r| <= |items|
  {
    if items == [] then []
    else if items[|items| - 1] == Spacer then WithoutSpacers(items[..|items| - 1])
    else WithoutSpacers(items[..|items| - 1]) + [items[|items| - 1]]
  }

  lemma {:induction false} WithoutSpacersConcat(a: seq<LegendItem>, b: seq<LegendItem>)
    ensures WithoutSpacers(a + b) == WithoutSpacers(a) + WithoutSpacers(b)
    decreases |b|
  {
    if b == [] {
      assert a + b == a;
    } else {
      assert (a + b)[..|a + b| - 1] == a + b[..|b| - 1];
      WithoutSpacersConcat(a, b[..|b| - 1]);
    }
  }

  /** How many of the first k labels differ from `last`. */
  function CountDiffering(labels: seq<string>, last: string, k: nat): nat
    requires k <= |labels|
  {
    if k == 0 then 0 else CountDiffering(labels, last, k - 1) + (if labels[k - 1] != last then 1 else 0)
  }

  lemma NoSpacerKept(items: seq<LegendItem>)
    requires items == [] || items == [Spacer]
    ensures WithoutSpacers(items) == []
  {
    if items != [] {
      assert items[..0] == [];
    }
  }

  lemma WithoutSpacersOfPair(a: LegendItem, b: LegendItem)
    requires a != Spacer && b != Spacer
    ensures WithoutSpacers([a, b]) == [a, b]
  {
    assert [a, b][..1] == [a];
    assert [a][..0] == [];
  }

  /** Dropping the spaces from one more entry keeps its square and label. */
  lemma WithoutSpacersOfEntry(prev: seq<LegendItem>, a: LegendItem, b: LegendItem, spacer: seq<LegendItem>)
    requires a != Spacer && b != Spacer
    requires spacer == [] || spacer == [Spacer]
    ensures WithoutSpacers(prev + [a, b] + spacer) == WithoutSpacers(prev) + [a, b]
  {
    WithoutSpacersConcat(prev + [a, b], spacer);
    WithoutSpacersConcat(prev, [a, b]);
    NoSpacerKept(spacer);
    WithoutSpacersOfPair(a, b);
  }

  /** A square then a label for each of the first k entries, in order. */
  function SwatchesAndTexts(colours: seq<string>, labels: seq<string>, opacities: seq<string>, k: nat): (r: seq<LegendItem>)
    requires k <= |colours| == |labels| == |opacities|
    ensures |r| == 2 * k
  {
    if k == 0 then []
    else SwatchesAndTexts(colours, labels, opacities, k - 1) + [Swatch(colours[k - 1], opacities[k - 1]), Text(labels[k - 1])]
  }

  /** Without the spaces, the legend is a square then a label per entry,
      in order. */
  lemma {:induction false} LegendPairs(colours: seq<string>, labels: seq<string>, opacities: seq<string>, k: nat)
    requires k <= |colours| == |labels| == |opacities|
    ensures WithoutSpacers(LegendEntries(colours, labels, opacities, k)) == SwatchesAndTexts(colours, labels, opacities, k)
  {
    if k > 0 {
      LegendPairs(colours, labels, opacities, k - 1);
      var prev := LegendEntries(colours, labels, opacities, k - 1);
      var pair := [Swatch(colours[k - 1], opacities[k - 1]), Text(labels[k - 1])];
      var spacer := if labels[k - 1] != labels[|labels| - 1] then [Spacer] else [];
      assert LegendEntries(colours, labels, opacities, k) == prev + pair + spacer;
      WithoutSpacersOfEntry(prev, pair[0], pair[1], spacer);
      assert SwatchesAndTexts(colours, labels, opacities, k) == SwatchesAndTexts(colours, labels, opacities, k - 1) + pair;
    }
  }

  /** One space per entry whose label differs from the last label, so none
      after the last entry. */
  lemma {:induction false} LegendLength(colours: seq<string>, labels: seq<string>, opacities: seq<string>, k: nat)
    requires 0 < |labels| && k <= |colours| == |labels| == |opacities|
    ensures |LegendEntries(colours, labels, opacities, k)| == 2 * k + CountDiffering(labels, labels[|labels| - 1], k)
  {
    if k > 0 {
      LegendLength(colours, labels, opacities, k - 1);
    }
  }

  /** The legend ends with the last entry's label, never a space. */
  lemma LegendEndsWithLastLabel(colours: seq<string>, labels: seq<string>, opacities: seq<string>)
    requires Legend(colours, labels, opacities).Ok? && |labels| > 0
    ensures var items := Legend(colours, labels, opacities).value;
            |items| > 0 && items[|items| - 1] == Text(labels[|labels| - 1])
  {
  }

  /** `COLORS_PROSPECTIVE_SCENARIO_GROUP_COMPARISON[:number_of_groups + 3]`. */
  function ComparisonPalette(numberOfGroups: nat): seq<string> {
    var palette := UIConstants.GroupComparisonColours;
    if numberOfGroups + 3 <= |palette| then palette[..numberOfGroups + 3] else palette
  }

  /** For every allowed group count the slice holds exactly one colour per
      group plus three, the first colours of the palette. */
  lemma ComparisonPaletteFits(numberOfGroups: nat)
    requires UIConstants.MinNumberOfGroups <= numberOfGroups <= UIConstants.MaxNumberOfGroups
    ensures |ComparisonPalette(numberOfGroups)| == numberOfGroups + 3
    ensures ComparisonPalette(numberOfGroups) == UIConstants.GroupComparisonColours[..numberOfGroups + 3]
  {
  }
}
