/** `src/bqplot_figures/utils/prospective_scenario_graph_utils.py`: the
    series drawn on the prospective-scenario graph, the merging of equal
    group lines, their labels and the end-value labels. */
module ProspectiveScenarioGraphUtils {
  import opened ProcessData
  import opened EvaluateExpression
  import Strings
  import Utils

  /** An `output_formula` of the lines or aspects file: an expression and,
      when the entry gives one, a year range. */
  datatype OutputFormula = OutputFormula(expression: Expr, yearRange: Option<string>)

  /** One entry of the lines or aspects file. */
  datatype Line = Line(name: string, formula: OutputFormula)

  /** The lines file: the historic, the no-aspect and the all-aspects lines. */
  datatype LinesFile = LinesFile(historic: Line, noAspect: Line, allAspects: Line)

  /** `evaluate_expression_aeromaps(process_data, *formula.values())`: a
      formula without a range is evaluated over "full_years". */
  function EvaluateFormula(b: Bundle, f: OutputFormula): Result<Series> {
    Evaluate(b, f.expression, Some(if f.yearRange.Some? then f.yearRange.value else "full_years"))
  }

  /** `get_y_historic_line`, `get_y_no_aspect_line`, `get_y_all_aspects_line`. */
  function HistoricLine(b: Bundle, lines: LinesFile): Result<Series> {
    EvaluateFormula(b, lines.historic.formula)
  }

  function NoAspectLine(b: Bundle, lines: LinesFile): Result<Series> {
    EvaluateFormula(b, lines.noAspect.formula)
  }

  function AllAspectsLine(b: Bundle, lines: LinesFile): Result<Series> {
    EvaluateFormula(b, lines.allAspects.formula)
  }

  /** `get_y_prospective_lines`: the no-aspect line, then the all-aspects line. */
  function ProspectiveLines(b: Bundle, lines: LinesFile): (r: Result<seq<Series>>)
    ensures r.Ok? <==> NoAspectLine(b, lines).Ok? && AllAspectsLine(b, lines).Ok?
    ensures r.Ok? ==> r.value == [NoAspectLine(b, lines).value, AllAspectsLine(b, lines).value]
    ensures NoAspectLine(b, lines).Err? ==> r == Err(NoAspectLine(b, lines).error)
    ensures NoAspectLine(b, lines).Ok? && AllAspectsLine(b, lines).Err? ==> r == Err(AllAspectsLine(b, lines).error)
  {
    var noAspect :- NoAspectLine(b, lines);
    var allAspects :- AllAspectsLine(b, lines);
    Ok([noAspect, allAspects])
  }

  /** The formulas evaluated in order; the first failure is the outcome. */
  function EvaluateAll(b: Bundle, formulas: seq<OutputFormula>): (r: Result<seq<Series>>)
    ensures r.Ok? <==> forall i :: 0 <= i < |formulas| ==> EvaluateFormula(b, formulas[i]).Ok?
    ensures r.Ok? ==> |r.value| == |formulas| &&
                      forall i :: 0 <= i < |formulas| ==> r.value[i] == EvaluateFormula(b, formulas[i]).value
  {
    if formulas == [] then Ok([])
    else
      var first :- EvaluateFormula(b, formulas[0]);
      var rest :- EvaluateAll(b, formulas[1..]);
      assert forall i :: 1 <= i < |formulas| ==> formulas[i] == formulas[1..][i - 1];
      Ok([first] + rest)
  }

  /** `get_y_aspects_areas`: one series per aspect, then the all-aspects
      expression over "full_years" whatever range its entry gives. */
  function AspectsAreas(b: Bundle, aspects: seq<Line>, lines: LinesFile): (r: Result<seq<Series>>)
    ensures r.Ok? ==> |r.value| == |aspects| + 1
    ensures r.Ok? ==> forall i :: 0 <= i < |aspects| ==>
                        EvaluateFormula(b, aspects[i].formula) == Ok(r.value[i])
    ensures r.Ok? ==> Evaluate(b, lines.allAspects.formula.expression, Some("full_years")) == Ok(r.value[|aspects|])
  {
    var formulas := seq(|aspects|, i requires 0 <= i < |aspects| => aspects[i].formula);
    var areas :- EvaluateAll(b, formulas);
    var bottom :- Evaluate(b, lines.allAspects.formula.expression, Some("full_years"));
    Ok(areas + [bottom])
  }

  /** The first position of `line` in `lines`, or `|lines|`. */
  function Find(lines: seq<Series>, line: Series): (k: nat)
    ensures k <= |lines|
    ensures k < |lines| ==> lines[k] == line
    ensures forall m :: 0 <= m < k ==> lines[m] != line
  {
    if lines == [] then 0
    else if lines[0] == line then 0
    else 1 + Find(lines[1..], line)
  }

  /** One round of the merging: group `id` joins the unique line equal to
      `line`, or `line` becomes a new unique line. */
  function MergeOne(lines: seq<Series>, ids: seq<seq<nat>>, line: Series, id: nat): (seq<Series>, seq<seq<nat>>)
    requires |lines| == |ids|
  {
    var k := Find(lines, line);
    if k < |lines| then (lines, ids[k := ids[k] + [id]]) else (lines + [line], ids + [[id]])
  }

  /** The unique lines and their 1-based group lists after all rounds. */
  function Merge(all: seq<Series>): (r: (seq<Series>, seq<seq<nat>>))
    ensures |r.0| == |r.1|
  {
    if all == [] then ([], [])
    else
      var prefix := Merge(all[..|all| - 1]);
      MergeOne(prefix.0, prefix.1, all[|all| - 1], |all|)
  }

  predicate Ascending(s: seq<nat>) {
    forall a, b :: 0 <= a < b < |s| ==> s[a] < s[b]
  }

  predicate Distinct(lines: seq<Series>) {
    forall k, l :: 0 <= k < l < |lines| ==> lines[k] != lines[l]
  }

  predicate Covers(all: seq<Series>, lines: seq<Series>) {
    forall i :: 0 <= i < |all| ==> all[i] in lines
  }

  predicate ListsAscending(ids: seq<seq<nat>>) {
    forall k :: 0 <= k < |ids| ==> ids[k] != [] && Ascending(ids[k])
  }

  /** Every id listed with a unique line names a group whose line it is. */
  predicate ListedMatch(all: seq<Series>, lines: seq<Series>, ids: seq<seq<nat>>)
    requires |lines| == |ids|
  {
    forall k, m :: 0 <= k < |ids| && 0 <= m < |ids[k]| ==>
      1 <= ids[k][m] <= |all| && all[ids[k][m] - 1] == lines[k]
  }

  /** Every group is listed with the unique line equal to its line. */
  predicate ListedComplete(all: seq<Series>, lines: seq<Series>, ids: seq<seq<nat>>)
    requires |lines| == |ids|
  {
    forall k, i :: 0 <= k < |lines| && 0 <= i < |all| && all[i] == lines[k] ==> i + 1 in ids[k]
  }

  predicate FirstOccurrenceOrder(ids: seq<seq<nat>>)
    requires ListsAscending(ids)
  {
    forall k :: 0 <= k < |ids| - 1 ==> ids[k][0] < ids[k + 1][0]
  }

  /** `lines` and `ids` group the lines `all`: the unique lines are pairwise
      different and cover `all`; group `i + 1` is listed with the unique
      line equal to `all[i]` and with no other; every list is non-empty and
      ascending; the unique lines come in order of first occurrence. */
  predicate Grouping(all: seq<Series>, lines: seq<Series>, ids: seq<seq<nat>>) {
    && |lines| == |ids|
    && Distinct(lines)
    && Covers(all, lines)
    && ListsAscending(ids)
    && ListedMatch(all, lines, ids)
    && ListedComplete(all, lines, ids)
    && FirstOccurrenceOrder(ids)
  }

  /** A group whose line is already a unique line joins that line's list. */
  lemma MergeJoinsGrouping(all: seq<Series>, lines: seq<Series>, ids: seq<seq<nat>>, k: nat)
    requires all != [] && Grouping(all[..|all| - 1], lines, ids)
    requires k < |lines| && lines[k] == all[|all| - 1]
    ensures Grouping(all, lines, ids[k := ids[k] + [|all|]])
  {
    var n := |all|;
    var prev := all[..n - 1];
    var ids' := ids[k := ids[k] + [n]];
    forall i | 0 <= i < n ensures all[i] in lines {
      if i < n - 1 {
        assert all[i] == prev[i];
      }
    }
    forall m | 0 <= m < |ids[k]| ensures ids[k][m] < n {
    }
    assert Ascending(ids'[k]);
    JoinKeepsMatch(all, lines, ids, k);
    JoinKeepsComplete(all, lines, ids, k);
  }

  lemma JoinKeepsMatch(all: seq<Series>, lines: seq<Series>, ids: seq<seq<nat>>, k: nat)
    requires all != [] && |lines| == |ids| && ListedMatch(all[..|all| - 1], lines, ids)
    requires k < |lines| && lines[k] == all[|all| - 1]
    ensures ListedMatch(all, lines, ids[k := ids[k] + [|all|]])
  {
    var n := |all|;
    var prev := all[..n - 1];
    var ids' := ids[k := ids[k] + [n]];
    forall j, m | 0 <= j < |ids'| && 0 <= m < |ids'[j]|
      ensures 1 <= ids'[j][m] <= n && all[ids'[j][m] - 1] == lines[j]
    {
      if j != k || m < |ids[k]| {
        assert ids'[j][m] == ids[j][m];
        assert prev[ids[j][m] - 1] == all[ids[j][m] - 1];
      }
    }
  }

  lemma JoinKeepsComplete(all: seq<Series>, lines: seq<Series>, ids: seq<seq<nat>>, k: nat)
    requires all != [] && |lines| == |ids| && Distinct(lines) && ListedComplete(all[..|all| - 1], lines, ids)
    requires k < |lines| && lines[k] == all[|all| - 1]
    ensures ListedComplete(all, lines, ids[k := ids[k] + [|all|]])
  {
    var n := |all|;
    var prev := all[..n - 1];
    var ids' := ids[k := ids[k] + [n]];
    forall j, i | 0 <= j < |lines| && 0 <= i < n && all[i] == lines[j] ensures i + 1 in ids'[j] {
      if i < n - 1 {
        assert prev[i] == lines[j];
        assert i + 1 in ids[j];
      } else if j != k {
        assert false;
      }
    }
  }

  /** A group whose line is new starts a unique line of its own. */
  lemma MergeAddsGrouping(all: seq<Series>, lines: seq<Series>, ids: seq<seq<nat>>)
    requires all != [] && Grouping(all[..|all| - 1], lines, ids)
    requires all[|all| - 1] !in lines
    ensures Grouping(all, lines + [all[|all| - 1]], ids + [[|all|]])
  {
    var n := |all|;
    var lines', ids' := lines + [all[n - 1]], ids + [[n]];
    AddKeepsCover(all, lines);
    AddKeepsMatch(all, lines, ids);
    AddKeepsComplete(all, lines, ids);
    forall j | 0 <= j < |ids| ensures ids[j][0] < n {
    }
    assert ListsAscending(ids');
    assert FirstOccurrenceOrder(ids');
  }

  lemma AddKeepsCover(all: seq<Series>, lines: seq<Series>)
    requires all != [] && Distinct(lines) && Covers(all[..|all| - 1], lines)
    requires all[|all| - 1] !in lines
    ensures Distinct(lines + [all[|all| - 1]]) && Covers(all, lines + [all[|all| - 1]])
  {
    var n := |all|;
    var prev := all[..n - 1];
    var lines' := lines + [all[n - 1]];
    forall i | 0 <= i < n ensures all[i] in lines' {
      if i < n - 1 {
        assert prev[i] == all[i];
      }
    }
  }

  lemma AddKeepsMatch(all: seq<Series>, lines: seq<Series>, ids: seq<seq<nat>>)
    requires all != [] && |lines| == |ids| && ListedMatch(all[..|all| - 1], lines, ids)
    ensures ListedMatch(all, lines + [all[|all| - 1]], ids + [[|all|]])
  {
    var n := |all|;
    var prev := all[..n - 1];
    var lines', ids' := lines + [all[n - 1]], ids + [[n]];
    forall j, m | 0 <= j < |ids'| && 0 <= m < |ids'[j]|
      ensures 1 <= ids'[j][m] <= n && all[ids'[j][m] - 1] == lines'[j]
    {
      if j < |ids| {
        assert prev[ids[j][m] - 1] == all[ids[j][m] - 1];
      }
    }
  }

  lemma AddKeepsComplete(all: seq<Series>, lines: seq<Series>, ids: seq<seq<nat>>)
    requires all != [] && |lines| == |ids| && ListedComplete(all[..|all| - 1], lines, ids)
    requires Covers(all[..|all| - 1], lines) && all[|all| - 1] !in lines
    ensures ListedComplete(all, lines + [all[|all| - 1]], ids + [[|all|]])
  {
    var n := |all|;
    var prev := all[..n - 1];
    var lines', ids' := lines + [all[n - 1]], ids + [[n]];
    forall j, i | 0 <= j < |lines'| && 0 <= i < n && all[i] == lines'[j] ensures i + 1 in ids'[j] {
      if i < n - 1 {
        assert prev[i] == all[i];
        if j < |lines| {
          assert i + 1 in ids[j];
        }
      }
    }
  }

  /** The merging groups the lines. */
  lemma {:induction false} MergeIsGrouping(all: seq<Series>)
    ensures Grouping(all, Merge(all).0, Merge(all).1)
  {
    if all != [] {
      var prefix := Merge(all[..|all| - 1]);
      MergeIsGrouping(all[..|all| - 1]);
      var k := Find(prefix.0, all[|all| - 1]);
      if k < |prefix.0| {
        MergeJoinsGrouping(all, prefix.0, prefix.1, k);
      } else {
        MergeAddsGrouping(all, prefix.0, prefix.1);
      }
    }
  }

  /** The merging loop of `get_y_prospective_lines_groups_comparison`: for
      each group line, a search among the unique lines so far (the inner
      `for`), then either an extra id or a new unique line (the `else`). */
  method MergeGroupsLines(allGroupsLines: seq<Series>) returns (groupsLines: seq<Series>, groupsIds: seq<seq<nat>>)
    ensures (groupsLines, groupsIds) == Merge(allGroupsLines)
  {
    groupsLines, groupsIds := [], [];
    var indexLine := 0;
    while indexLine < |allGroupsLines|
      invariant 0 <= indexLine <= |allGroupsLines|
      invariant (groupsLines, groupsIds) == Merge(allGroupsLines[..indexLine])
    {
      var groupLine := allGroupsLines[indexLine];
      assert allGroupsLines[..indexLine + 1][..indexLine] == allGroupsLines[..indexLine];
      var indexUniqueLine := 0;
      while indexUniqueLine < |groupsLines| && groupsLines[indexUniqueLine] != groupLine
        invariant 0 <= indexUniqueLine <= |groupsLines|
        invariant forall m :: 0 <= m < indexUniqueLine ==> groupsLines[m] != groupLine
      {
        indexUniqueLine := indexUniqueLine + 1;
      }
      assert indexUniqueLine == Find(groupsLines, groupLine);
      if indexUniqueLine < |groupsLines| {
        groupsIds := groupsIds[indexUniqueLine := groupsIds[indexUniqueLine] + [indexLine + 1]];
      } else {
        groupsLines := groupsLines + [groupLine];
        groupsIds := groupsIds + [[indexLine + 1]];
      }
      indexLine := indexLine + 1;
    }
    assert allGroupsLines[..indexLine] == allGroupsLines;
  }

  /** The part of the grouping the labels rely on: every list of ids is non-empty. */
  lemma MergeListsAscending(all: seq<Series>)
    ensures |Merge(all).0| == |Merge(all).1| && ListsAscending(Merge(all).1)
  {
    MergeIsGrouping(all);
  }

  /** `get_y_all_aspects_line` for each group, in order. */
  function AllAspectsLines(groups: seq<Bundle>, lines: LinesFile): (r: Result<seq<Series>>)
    ensures r.Ok? ==> |r.value| == |groups| &&
                      forall i :: 0 <= i < |groups| ==> AllAspectsLine(groups[i], lines) == Ok(r.value[i])
  {
    if groups == [] then Ok([])
    else
      var first :- AllAspectsLine(groups[0], lines);
      var rest :- AllAspectsLines(groups[1..], lines);
      assert forall i :: 1 <= i < |groups| ==> groups[i] == groups[1..][i - 1];
      Ok([first] + rest)
  }

  const ReferenceSuffix := " (Identique au scénario de référence)"

  /** `str(i)` of each id. */
  function Numbers(ids: seq<nat>): (r: seq<string>)
    ensures |r| == |ids|
    ensures forall i :: 0 <= i < |ids| ==> r[i] == Strings.NatToString(ids[i])
  {
    seq(|ids|, i requires 0 <= i < |ids| => Strings.NatToString(ids[i]))
  }

  /** The group part of a label: "Scénario du groupe k", or "Scénario des
      groupes a, b et c". */
  function GroupsName(ids: seq<nat>): string
    requires ids != []
  {
    if |ids| == 1 then "Scénario du groupe " + Strings.NatToString(ids[0])
    else "Scénario des groupes " + Strings.Join(Numbers(ids[..|ids| - 1]), ", ") + " et " + Strings.NatToString(ids[|ids| - 1])
  }

  /** The label of a unique line, with the suffix when it is the reference
      all-aspects line. */
  function GroupLabel(line: Series, ids: seq<nat>, reference: Series): string
    requires ids != []
  {
    if line == reference then GroupsName(ids) + ReferenceSuffix else GroupsName(ids)
  }

  /** One label per unique line. */
  function GroupLabels(lines: seq<Series>, ids: seq<seq<nat>>, reference: Series): (r: seq<string>)
    requires |lines| == |ids| && ListsAscending(ids)
    ensures |r| == |lines|
    ensures forall k :: 0 <= k < |lines| ==> r[k] == GroupLabel(lines[k], ids[k], reference)
  {
    seq(|lines|, k requires 0 <= k < |lines| => GroupLabel(lines[k], ids[k], reference))
  }

  /** The labels of the reference lines. */
  function ReferenceLabels(lines: LinesFile): seq<string> {
    [lines.noAspect.name + " (Scénario de référence)",
     "Émissions restantes en n'appliquant aucune carte" + " (Scénario de référence)"]
  }

  /** What `get_y_prospective_lines_groups_comparison` returns or raises. */
  function GroupsComparison(reference: Bundle, groups: seq<Bundle>, lines: LinesFile): Result<(seq<Series>, seq<string>)> {
    var referenceLines :- ProspectiveLines(reference, lines);
    var allGroupsLines :- AllAspectsLines(groups, lines);
    var merged := Merge(allGroupsLines);
    MergeListsAscending(allGroupsLines);
    Ok((referenceLines + merged.0, ReferenceLabels(lines) + GroupLabels(merged.0, merged.1, referenceLines[1])))
  }

  /** The labelling loop of `get_y_prospective_lines_groups_comparison`:
      one label per unique line, in order. */
  method LabelGroupsLines(groupsLines: seq<Series>, groupsIds: seq<seq<nat>>, reference: Series)
    returns (groupsLabels: seq<string>)
    requires |groupsLines| == |groupsIds| && ListsAscending(groupsIds)
    ensures groupsLabels == GroupLabels(groupsLines, groupsIds, reference)
  {
    groupsLabels := [];
    var k := 0;
    while k < |groupsLines|
      invariant 0 <= k <= |groupsLines|
      invariant |groupsLabels| == k
      invariant forall j :: 0 <= j < k ==> groupsLabels[j] == GroupLabel(groupsLines[j], groupsIds[j], reference)
    {
      var title := GroupsName(groupsIds[k]);
      if groupsLines[k] == reference {
        title := title + ReferenceSuffix;
      }
      groupsLabels := groupsLabels + [title];
      k := k + 1;
    }
  }

  /** `get_y_prospective_lines_groups_comparison`: the reference lines, the
      group lines, the merging, then one label per unique line. */
  method ProspectiveLinesGroupsComparison(reference: Bundle, groups: seq<Bundle>, lines: LinesFile)
    returns (r: Result<(seq<Series>, seq<string>)>)
    ensures r == GroupsComparison(reference, groups, lines)
  {
    var referenceLines := ProspectiveLines(reference, lines);
    if referenceLines.Err? {
      return Err(referenceLines.error);
    }
    var allGroupsLines := AllAspectsLines(groups, lines);
    if allGroupsLines.Err? {
      return Err(allGroupsLines.error);
    }
    var groupsLines, groupsIds := MergeGroupsLines(allGroupsLines.value);
    MergeListsAscending(allGroupsLines.value);
    var groupsLabels := LabelGroupsLines(groupsLines, groupsIds, referenceLines.value[1]);
    return Ok((referenceLines.value + groupsLines, ReferenceLabels(lines) + groupsLabels));
  }

  /** Lines and labels line up: the two reference entries first, then one
      per unique group line, labelled with the groups whose line it is. */
  lemma GroupsComparisonShape(reference: Bundle, groups: seq<Bundle>, lines: LinesFile)
    requires GroupsComparison(reference, groups, lines).Ok?
    ensures var result := GroupsComparison(reference, groups, lines).value;
            var merged := Merge(AllAspectsLines(groups, lines).value);
            && |result.0| == |result.1| == 2 + |merged.0|
            && result.0[..2] == ProspectiveLines(reference, lines).value
            && result.1[..2] == ReferenceLabels(lines)
            && forall k :: 0 <= k < |merged.0| ==>
                 merged.1[k] != [] && result.1[2 + k] == GroupLabel(result.0[2 + k], merged.1[k], result.0[1])
  {
    var all := AllAspectsLines(groups, lines).value;
    MergeIsGrouping(all);
  }

  /** Each unique group line is the line of every group its label names. */
  lemma GroupsComparisonLinesMatch(reference: Bundle, groups: seq<Bundle>, lines: LinesFile, k: nat, m: nat)
    requires GroupsComparison(reference, groups, lines).Ok?
    requires var merged := Merge(AllAspectsLines(groups, lines).value);
             k < |merged.1| && m < |merged.1[k]|
    ensures var result := GroupsComparison(reference, groups, lines).value;
            var id := Merge(AllAspectsLines(groups, lines).value).1[k][m];
            1 <= id <= |groups| && AllAspectsLine(groups[id - 1], lines) == Ok(result.0[2 + k])
  {
    var all := AllAspectsLines(groups, lines).value;
    MergeIsGrouping(all);
  }

  /** A name ends with a digit: the last group's number. */
  lemma GroupsNameEndsWithDigit(ids: seq<nat>)
    requires ids != []
    ensures var name := GroupsName(ids); |name| > 0 && Strings.IsDigit(name[|name| - 1])
  {
    var last := Strings.NatToString(ids[|ids| - 1]);
    assert last[|last| - 1] in last;
  }

  /** A label carries the suffix exactly when its line is the reference
      all-aspects line: only then does it end with ')'. */
  lemma LabelSuffixIffReference(line: Series, ids: seq<nat>, reference: Series)
    requires ids != []
    ensures var text := GroupLabel(line, ids, reference);
            |text| > 0 && (text[|text| - 1] == ')' <==> line == reference)
  {
    GroupsNameEndsWithDigit(ids);
    var suffix := ReferenceSuffix;
    assert suffix[|suffix| - 1] == ')';
  }

  /** `", ".join(...)` of numbers holds one comma fewer than there are numbers. */
  lemma {:induction false} JoinedNumbersCommas(parts: seq<string>)
    requires parts != [] && forall i :: 0 <= i < |parts| ==> Strings.AllDigits(parts[i])
    ensures Strings.CountChar(Strings.Join(parts, ", "), ',') == |parts| - 1
  {
    Strings.CountCharAbsent(parts[0], ',');
    if |parts| > 1 {
      JoinedNumbersCommas(parts[1..]);
      Strings.CountCharConcat(parts[0], ", ", ',');
      Strings.CountCharConcat(parts[0] + ", ", Strings.Join(parts[1..], ", "), ',');
      assert Strings.CountChar(", ", ',') == 1 by {
        assert ", "[1..] == " ";
        assert " "[1..] == "";
      }
    }
  }

  /** The fixed words of a label hold no comma. */
  lemma NoCommaInHead()
    ensures Strings.CountChar("Scénario des groupes ", ',') == 0
  {
    var head := "Scénario des groupes ";
    assert forall i :: 0 <= i < |head| ==> head[i] != ',';
    Strings.CountCharAbsent(head, ',');
  }

  /** The word joining the last group holds no comma. */
  lemma NoCommaInAnd()
    ensures Strings.CountChar(" et ", ',') == 0
  {
    var and := " et ";
    assert forall i :: 0 <= i < |and| ==> and[i] != ',';
    Strings.CountCharAbsent(and, ',');
  }

  /** A label naming several groups lists all but the last separated by
      ", ", so it holds one comma fewer than the groups before " et ". */
  lemma GroupsNameCommas(ids: seq<nat>)
    requires |ids| >= 2
    ensures Strings.CountChar(GroupsName(ids), ',') == |ids| - 2
  {
    var remaining := Numbers(ids[..|ids| - 1]);
    var head := "Scénario des groupes ";
    var last := Strings.NatToString(ids[|ids| - 1]);
    JoinedNumbersCommas(remaining);
    NoCommaInHead();
    NoCommaInAnd();
    Strings.CountCharAbsent(last, ',');
    var joined := Strings.Join(remaining, ", ");
    Strings.CountCharConcat(head, joined, ',');
    Strings.CountCharConcat(head + joined, " et ", ',');
    Strings.CountCharConcat(head + joined + " et ", last, ',');
    assert GroupsName(ids) == head + joined + " et " + last;
  }

  /** Python's `int(x)`: truncation toward zero. */
  function Truncate(x: real): (t: int)
    ensures x >= 0.0 ==> 0 <= t && t as real <= x < t as real + 1.0
    ensures x < 0.0 ==> t <= 0 && t as real - 1.0 < x <= t as real
  {
    if x >= 0.0 then x.Floor else -((-x).Floor)
  }

  const Unit := " Mt CO₂"

  /** `format_final_value`. */
  function FormatFinalValue(x: real): string {
    Strings.IntToString(Truncate(x)) + Unit
  }

  /** The label reads back as the integer part of the value, less than one
      away from it and on the same side of zero. */
  lemma FormatFinalValueReadsBack(x: real)
    ensures var s := FormatFinalValue(x);
            && |s| > |Unit| && s[|s| - |Unit|..] == Unit
            && Strings.ParseNumber(s[..|s| - |Unit|]) == Some(Truncate(x) as real)
            && -1.0 < x - Truncate(x) as real < 1.0
  {
    var digits := Strings.IntToString(Truncate(x));
    assert FormatFinalValue(x)[..|digits|] == digits;
    Strings.IntToStringParses(Truncate(x));
  }

  /** `prospective_line.iloc[-1]` for each line; an empty series is an IndexError. */
  function LastValues(lines: seq<Series>): (r: Result<seq<real>>)
    ensures r.Ok? <==> forall i :: 0 <= i < |lines| ==> lines[i].values != []
    ensures r.Ok? ==> |r.value| == |lines| &&
                      forall i :: 0 <= i < |lines| ==> r.value[i] == lines[i].values[|lines[i].values| - 1]
    ensures r.Err? ==> r.error == IndexError
  {
    if lines == [] then Ok([])
    else if lines[0].values == [] then Err(IndexError)
    else
      var rest :- LastValues(lines[1..]);
      assert forall i :: 1 <= i < |lines| ==> lines[i] == lines[1..][i - 1];
      Ok([lines[0].values[|lines[0].values| - 1]] + rest)
  }

  /** The default `minimal_distance`. */
  const DefaultMinimalDistance: real := 100.0

  /** `get_y_prospective_labels_groups_comparison`: the end values, and
      their formatted labels unless two of them are too close. */
  function ProspectiveLabels(lines: seq<Series>, minimalDistance: real): Result<(seq<real>, seq<string>)> {
    var ys :- LastValues(lines);
    var d := Utils.FirstPositiveMinimalDistance(ys);
    if 0.0 < d <= minimalDistance then Ok((ys, seq(|ys|, _ => "")))
    else Ok((ys, seq(|ys|, i requires 0 <= i < |ys| => FormatFinalValue(ys[i]))))
  }

  /** Two different end values lie within `minimalDistance` of each other. */
  predicate TooClose(ys: seq<real>, minimalDistance: real) {
    exists a, b :: 0 <= a < b < |ys| && ys[a] != ys[b] && Utils.Abs(ys[a] - ys[b]) <= minimalDistance
  }

  /** The blanking test of the labels is exactly `TooClose`. */
  lemma BlankingTestIsTooClose(ys: seq<real>, minimalDistance: real)
    ensures var d := Utils.FirstPositiveMinimalDistance(ys);
            0.0 < d <= minimalDistance <==> TooClose(ys, minimalDistance)
  {
    Utils.FirstPositiveMinimalDistanceIsLeast(ys);
    var d := Utils.FirstPositiveMinimalDistance(ys);
    if TooClose(ys, minimalDistance) {
      var a, b :| 0 <= a < b < |ys| && ys[a] != ys[b] && Utils.Abs(ys[a] - ys[b]) <= minimalDistance;
      assert d > 0.0;
    }
    if 0.0 < d <= minimalDistance {
      var a, b :| 0 <= a < b < |ys| && d == Utils.Abs(ys[a] - ys[b]);
      assert ys[a] != ys[b];
    }
  }

  /** One label per line. Every label is blank exactly when two different
      end values lie within `minimalDistance` of each other; otherwise each
      is its end value formatted. */
  lemma ProspectiveLabelsBlanking(lines: seq<Series>, minimalDistance: real)
    requires ProspectiveLabels(lines, minimalDistance).Ok?
    ensures var result := ProspectiveLabels(lines, minimalDistance).value;
            && result.0 == LastValues(lines).value
            && |result.1| == |lines|
            && (TooClose(result.0, minimalDistance) ==> forall i :: 0 <= i < |lines| ==> result.1[i] == "")
            && (!TooClose(result.0, minimalDistance) ==> forall i :: 0 <= i < |lines| ==> result.1[i] == FormatFinalValue(result.0[i]))
  {
    BlankingTestIsTooClose(LastValues(lines).value, minimalDistance);
  }
}
