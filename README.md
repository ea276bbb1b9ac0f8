# fresqu-aeromaps, modelled in Dafny

fresqu-aeromaps is a notebook dashboard for a "climate fresco" workshop built
around the AeroMAPS aviation-climate simulator. Groups of players tick cards
(levers such as sobriety, modal shift or new energies). The dashboard turns the
ticked cards into a parameter configuration of an AeroMAPS process, runs the
simulation, and draws the results: prospective CO2 lines compared between
groups, and bars of budgets and consumptions.

This project models the logic under the widgets:

- **The formula evaluators.**
  - The token-list evaluator `calculate_aspect_output_value` is modelled as
    methods with loops, each proved against a recursive specification.
  - The string-expression evaluator `evaluate_expression_aeromaps` is modelled
    on a small expression datatype, which stands in for Python's `eval`.
- **The result-bundle accessors:** `get_years` and `get_dataframe_*`.
- **The three generations of the scenario engine:**
  - `Setup_des_process.py`: checkbox flags on a fresh process.
  - `src/core/process_engine.py`: aspect ids, full baseline.
  - `src/core/aeromaps_utils/process_engine.py`: card ids, a partial baseline
    on a shared process, two caches.

  The AeroMAPS process is a class whose parameter record the methods assign
  field by field. `compute()` is an arbitrary function from parameters to data.
  The `lru_cache` tables are explicit maps held in classes.
- **The group-comparison merging and labelling** of the prospective graph.
- **The multidisciplinary budgets and consumptions:** `M_plot_*` and
  `plot_multi`.
- **The small utilities:** distances, palette length, card and aspect lookups,
  and CSS style strings.
- **The group-count bookkeeping** of the `FresqueAeroMapsUI` class.

One module per source file:

- ProcessData: Python values, tables and exceptions
- Strings: Python's `str(int)`, `float(str)`, `str.join`, `str.replace`
- ParseProcessData: `src/core/parse_process_data.py`
- EvaluateExpression: `src/core/aeromaps_utils/evaluate_expression.py`
- ExtractProcessedData: `src/core/aeromaps_utils/extract_processed_data.py`
- Simulation: the AeroMAPS process and the lever writes the engines share
- AspectsProcessEngine: `src/core/process_engine.py`
- CardsProcessEngine: `src/core/aeromaps_utils/process_engine.py`
- SetupProcess: `Setup_des_process.py`
- ProspectiveScenarioGraphUtils: `src/bqplot_figures/utils/prospective_scenario_graph_utils.py`
- Utils: `src/utils.py`
- MultidisciplinaryGraphUtils: `src/core/aeromaps_utils/TEMPORARY_FILE_multidisciplinary_graph_utils.py`
- SetupGraphsV1: `plot_multi` of `Setup_des_graphs_v1.py`
- CrudCards: `src/crud/crud_cards.py`
- CoreCrudCards, CoreCrudAspects: `src/core/crud_cards.py`, `src/core/crud_aspects.py`
- UIConstants: `src/ui/utils/fresque_aeromaps_UI_constants.py`
- UIFigures: `src/ui/utils/fresque_aeromaps_UI_figures.py`
- FresqueUI: `src/ui/fresque_aeromaps_UI.py`

Some behaviour of the code is easy to misread; the model keeps it as the
code has it, and the lemmas named below state it:

- **Cache keys.** Both engines cache on the ids as a tuple in caller order,
  without sorting or removing duplicates. Two orders of the same cards are
  two cache entries with equal parameters
  (`AspectsProcessEngine.ReorderedIdsAreDistinctKeys`).
- **Baseline reset.** The newest engine does not reset every parameter on a
  cache miss. Sobriety's three growth values and the load factor survive from
  earlier calls on the shared process (`CardsProcessEngine.ResidueConfined`,
  `CardsProcessEngine.ReferenceAfterSobrietyDiffers`).
- **Unknown ids.**
  - `src/core/process_engine.py` validates nothing and ignores ids outside
    2 to 7 (`AspectsProcessEngine.OtherIdsIgnored`).
  - The card engine raises one ValueError that names no id
    (`CardsProcessEngine.ComputeProcessCache.ComputeProcess`).
- **Absent year range.** `evaluate_expression_aeromaps` rejects a year range
  of `None` like any other unknown range, before it looks at the expression
  (`EvaluateExpression.YearRangeCheckedFirst`). There is no single-year range.
- **Division by zero in string expressions.** On series, pandas yields an
  infinity or a NaN instead of raising. The model marks this with the error
  `NonFinite`.
- **Malformed year lists.** `get_years` raises ValueError for a missing key
  and TypeError for a value that is not a list of ints. Building the
  TypeError's message indexes the value first, so an empty string escapes as
  IndexError (`ExtractProcessedData.EmptyStringYearsIsIndexError`).

## Model

| member | source | states |
|---|---|---|
| ProcessData.Combine | src/core/parse_process_data.py:172-181 | a pandas operator between two series over the same years yields one value per year: the operator applied to the two values of that year |
| ProcessData.Loc | src/core/parse_process_data.py:151-153 | `table.loc[years, name]` succeeds exactly when the column and every requested year exist; it then holds the column's value at each year, in the order asked; otherwise KeyError |
| ProcessData.Constant | src/core/parse_process_data.py:163 | a constant token's series holds the constant once per selected year |
| Strings.NatToString | src/bqplot_figures/utils/prospective_scenario_graph_utils.py:230 | `str(n)` is a non-empty string of digits without a leading zero |
| Strings.IntToString | src/bqplot_figures/utils/prospective_scenario_graph_utils.py:230 | `str(i)` starts with '-' exactly for negative numbers and is digits otherwise |
| Strings.DigitsOfNatToString | src/bqplot_figures/utils/prospective_scenario_graph_utils.py:230 | reading the digits of `str(n)` back gives n |
| Strings.ScanDigits | src/core/parse_process_data.py:134-137 | a string of digits scans as the number it denotes, without a decimal point |
| Strings.ParseDigits | src/core/parse_process_data.py:134-137 | `float(s)` of a non-empty digit string, and of its negation, is that number |
| Strings.IntToStringParses | src/bqplot_figures/utils/prospective_scenario_graph_utils.py:230 | `float(str(i)) == i` for every integer |
| Strings.ReplaceChar | src/ui/utils/fresque_aeromaps_UI_constants.py:43 | `replace` of one character keeps the length and substitutes at exactly the positions holding it |
| Strings.ReplaceCharConcat | src/ui/utils/fresque_aeromaps_UI_constants.py:43 | replacing in a concatenation is concatenating the replaced parts |
| Strings.CountCharConcat | src/bqplot_figures/utils/prospective_scenario_graph_utils.py:169-170 | occurrences of a character add up over a concatenation |
| Strings.CountCharAbsent | src/bqplot_figures/utils/prospective_scenario_graph_utils.py:169-170 | a string without the character holds zero occurrences of it |
| Strings.IndexOf | src/core/crud_cards.py:38 | `list.index(x)` is the first position holding x, and None (ValueError) exactly when x is absent |
| ExtractProcessedData.YearList | src/core/aeromaps_utils/extract_processed_data.py:27-30 | a year entry is accepted exactly when it is a list of ints, and then returned unchanged |
| ExtractProcessedData.YearsFromFailureSticks | src/core/aeromaps_utils/extract_processed_data.py:21-28 | the first key that fails decides the outcome; later keys are not looked at |
| ExtractProcessedData.GetYears | src/core/aeromaps_utils/extract_processed_data.py:8-32 | the loop over the three keys returns exactly what the specification of `get_years` returns or raises (`src/core/parse_process_data.py:17-41` is the same code) |
| ExtractProcessedData.YearsOf | src/core/aeromaps_utils/extract_processed_data.py:8-32 | the specification of `get_years`: the three year lists, or the error of the first malformed key; characterised by `YearsOfWellFormed` and `MissingFullYearsFirst` |
| ExtractProcessedData.YearsFromIsChain | src/core/aeromaps_utils/extract_processed_data.py:18-30 | the loop's dictionary is the three checks made in the order full, historic, prospective |
| ExtractProcessedData.YearsOfWellFormed | src/core/aeromaps_utils/extract_processed_data.py:18-32 | `get_years` succeeds exactly on well-formed years; the result then has exactly the three keys, each holding the bundle's own list |
| ExtractProcessedData.MissingFullYearsFirst | src/core/aeromaps_utils/extract_processed_data.py:22-23 | a missing "full_years" raises the ValueError naming that key, whatever else is wrong |
| ExtractProcessedData.EmptyStringYearsIsIndexError | src/core/aeromaps_utils/extract_processed_data.py:27-28 | an empty string as a year list escapes as IndexError, raised while the TypeError's message is built |
| ExtractProcessedData.GetDataframe | src/core/aeromaps_utils/extract_processed_data.py:35-53 | a missing key is a ValueError and a non-table value a TypeError; otherwise the stored table itself |
| ParseProcessData.Operand | src/core/parse_process_data.py:148-163 | an operand series has one value per selected year |
| ParseProcessData.Operands | src/core/parse_process_data.py:146-163 | every operand series has one value per selected year |
| ParseProcessData.Fold | src/core/parse_process_data.py:169-183 | the left-to-right fold keeps the length of the first operand |
| ParseProcessData.ValidatedTokensWellFormed | src/core/parse_process_data.py:117-131 | after the checks pass, every list token is three strings, so the splitting loop can unpack it |
| ParseProcessData.ValidateFailureSticks | src/core/parse_process_data.py:117-139 | the first rejected token decides the error |
| ParseProcessData.OperandsFailureSticks | src/core/parse_process_data.py:146-155 | the first operand that cannot be read decides the error |
| ParseProcessData.FoldFailureSticks | src/core/parse_process_data.py:171-181 | the first zero divisor decides the outcome |
| ParseProcessData.CheckOneToken | src/core/parse_process_data.py:118-139 | one token's checks, in source order: shape, output type, year section known, allowed and shared; operator or number; else TypeError |
| ParseProcessData.CheckToken | src/core/parse_process_data.py:118-139 | the specification of one token's checks, in source order; characterised by `CheckTokenAccepted` and `CheckTokenAccepts` |
| ParseProcessData.ValidateFormula | src/core/parse_process_data.py:114-139 | the checking loop returns the formula's year section, or the first token's error |
| ParseProcessData.Validate | src/core/parse_process_data.py:114-139 | the specification of the checking loop: the variables' shared year section, or the first rejected token's error; characterised by `ValidateCharacterized` |
| ParseProcessData.SplitStep | src/core/parse_process_data.py:146-163 | one more token extends either the operators or the operands, never both |
| ParseProcessData.ReadOperand | src/core/parse_process_data.py:148-163 | a variable is read from its table at the selected years; a constant becomes a constant series |
| ParseProcessData.SplitFormula | src/core/parse_process_data.py:143-163 | the splitting loop yields the operand series and the operators, each in formula order |
| ParseProcessData.FoldFormula | src/core/parse_process_data.py:169-183 | the folding loop computes `((o0 op0 o1) op1 o2)...` from a copy of the first operand, raising on a zero divisor |
| ParseProcessData.CalculateAspectOutputValue | src/core/parse_process_data.py:86-186 | the whole function: table and year reads, checks, split, count check, fold |
| ParseProcessData.AspectOutputValue | src/core/parse_process_data.py:86-186 | the specification of `calculate_aspect_output_value`: read the tables and the years, check the tokens, split, compare the counts, fold; characterised by `ValidateCharacterized`, `FoldFailsOnZeroDivisor`, `FoldIsPointwise` and `ResultIndexedBySection` |
| ParseProcessData.FoldFailsOnZeroDivisor | src/core/parse_process_data.py:178-181 | the fold fails exactly when some division's divisor holds a zero, and then with ZeroDivisionError |
| ParseProcessData.FoldIsPointwise | src/core/parse_process_data.py:170-181 | year by year, the series fold is the scalar left fold without precedence |
| ParseProcessData.CheckTokenAccepted | src/core/parse_process_data.py:118-139 | an accepted token is acceptable on its own; a variable fixes or repeats the section |
| ParseProcessData.CheckTokenAccepts | src/core/parse_process_data.py:118-139 | an acceptable token whose section agrees with the one so far is accepted |
| ParseProcessData.ValidateSound | src/core/parse_process_data.py:117-139 | an accepted formula has only acceptable tokens, and the returned section is every variable's section |
| ParseProcessData.ValidateComplete | src/core/parse_process_data.py:117-139 | acceptable tokens whose variables share one section pass the checks |
| ParseProcessData.ValidateCharacterized | src/core/parse_process_data.py:117-139 | the checks pass if and only if every token is acceptable and all variables use one year section |
| ParseProcessData.ResultIndexedBySection | src/core/parse_process_data.py:141-163 | the result is indexed by the variables' shared section, or by full_years when there is no variable, with one value per year |
| ParseProcessData.EmptyFormulaRejected | src/core/parse_process_data.py:166-167 | the empty formula raises the operand-count ValueError |
| ParseProcessData.DigitParses | src/core/parse_process_data.py:132-137 | a one-digit constant token parses to its digit |
| ParseProcessData.DigitTokens | src/core/parse_process_data.py:158-163 | "+" and "*" are operators; "2", "3" and "4" become constant series |
| ParseProcessData.OperatorStep | src/core/parse_process_data.py:158-159 | an operator token adds to the operators only |
| ParseProcessData.OperandStep | src/core/parse_process_data.py:148-163 | an operand token appends its series to the operands only |
| ParseProcessData.OperandsOfThree | src/core/parse_process_data.py:146-163 | operand, operator, operand splits into two operands and one operator |
| ParseProcessData.OperandsOfFive | src/core/parse_process_data.py:146-163 | an alternating five-token formula splits into three operands and two operators, in order |
| ParseProcessData.ConstantOperands | src/core/parse_process_data.py:146-163 | "2 + 3 * 4" splits into the series 2, 3, 4 and the operators +, * |
| ParseProcessData.ConstantTokensAccepted | src/core/parse_process_data.py:132-137 | "2 + 3 * 4" passes the checks with no year section |
| ParseProcessData.LeftToRightFold | src/core/parse_process_data.py:170-181 | the fold of 2, +3, *4 is 20 at every year |
| ParseProcessData.NoOperatorPrecedence | src/core/parse_process_data.py:141-186 | on well-formed data, "2 + 3 * 4" yields 20 (not 14) at every full year, indexed by full_years |
| EvaluateExpression.Broadcast | src/core/aeromaps_utils/evaluate_expression.py:76-77 | a scalar is spread over the selected years and a series kept; one value per year |
| EvaluateExpression.Accessor | src/core/aeromaps_utils/evaluate_expression.py:44-58 | an absent column raises ValueError naming the table and the column; it succeeds exactly when the column exists and holds every selected year, and then value `k` is the column's value at the `k`-th selected year |
| EvaluateExpression.ApplyBinary | src/core/aeromaps_utils/evaluate_expression.py:69-73 | two numbers combine as numbers, a division by zero raising ZeroDivisionError; with a series involved, a zero divisor gives a non-finite result and otherwise value `k` is the operator applied to the two operands' `k`-th values, a number standing for every year |
| EvaluateExpression.ApplyExtreme | src/core/aeromaps_utils/evaluate_expression.py:63-64 | two numbers go to the builtin `max`/`min`; a number first with a series second raises AttributeError; a series first gives value `k` as the max/min of its `k`-th value and the other operand's |
| EvaluateExpression.Extreme | src/core/aeromaps_utils/evaluate_expression.py:63-64 | the builtin returns one of its two arguments, at least (max) or at most (min) both |
| EvaluateExpression.Eval | src/core/aeromaps_utils/evaluate_expression.py:69-73 | any series an expression evaluates to has one value per selected year |
| EvaluateExpression.Evaluate | src/core/aeromaps_utils/evaluate_expression.py:15-79 | success needs an allowed year range present in the data's years, and the returned series is indexed by exactly those years, one value per year |
| EvaluateExpression.EvaluateIsEval | src/core/aeromaps_utils/evaluate_expression.py:60-79 | on well-formed data and an allowed range, it fails exactly when evaluating the expression fails: any failure is re-raised as ValueError naming its cause (a series zero divisor gives the non-finite result); a value is returned as a series over the selected years, a number spread over them |
| EvaluateExpression.SelectedYears | src/core/aeromaps_utils/evaluate_expression.py:37 | on well-formed data, an allowed range selects the bundle's list of that name |
| EvaluateExpression.YearRangeCheckedFirst | src/core/aeromaps_utils/evaluate_expression.py:35-36 | a range outside the three names, `None` included, is a ValueError whatever the data |
| EvaluateExpression.UnknownNameFails | src/core/aeromaps_utils/evaluate_expression.py:61-67 | an expression naming anything outside `min`, `max` and the two accessors never yields a value |
| EvaluateExpression.UnknownNameRejected | src/core/aeromaps_utils/evaluate_expression.py:61-73 | such an expression makes the whole evaluation raise the wrapped ValueError (or the non-finite result of an earlier zero divisor in a series) |
| EvaluateExpression.NoTableIsScalar | src/core/aeromaps_utils/evaluate_expression.py:75-77 | an expression reading no table evaluates to a number |
| EvaluateExpression.ScalarIsBroadcast | src/core/aeromaps_utils/evaluate_expression.py:76-77 | an expression reading no table evaluates to a number, and the result is that number at every selected year, indexed by the selected years |
| EvaluateExpression.UnknownVariableRejected | src/core/aeromaps_utils/evaluate_expression.py:48-49 | an absent vector column is reported as a ValueError naming the variable |
| EvaluateExpression.SumOfOutputs | src/core/aeromaps_utils/evaluate_expression.py:44-58 | `vector_outputs(x) + climate_outputs(y)` is the year-by-year sum of the two columns over the selected years |
| EvaluateExpression.MaxWithZeroClamps | src/core/aeromaps_utils/evaluate_expression.py:63 | `max(series, 0)` is, year by year, the value where it is non-negative and 0 where it is negative |
| EvaluateExpression.ScalarThenSeriesFails | src/core/aeromaps_utils/evaluate_expression.py:63-64 | `min`/`max` of a number followed by a series fails, since a number has no `combine` |
| Simulation.ModalShiftConditionedOnSobriety | src/core/process_engine.py:150-151 | modal shift sets short-range growth to [0,0,0] with sobriety and to [1,1,1] without; otherwise the growth is untouched |
| Simulation.SobrietyLeverGrowth | src/core/process_engine.py:141-144 | only sobriety writes the medium-range, long-range and freight growth, to [1.5] each |
| Simulation.OperationsEfficiencyLeverLoadFactor | src/core/process_engine.py:152-156 | only operations efficiency writes the load factor, to 90 |
| Simulation.NoLeversWriteNothing | src/core/process_engine.py:140-163 | no lever, no write |
| Simulation.AllLeversOverwriteTheirFields | src/core/process_engine.py:141-163 | with every lever, the lever values are written whatever was there; hydrogen only in the generations that write it |
| Simulation.ApplyLevers | src/core/process_engine.py:140-163 | the lever writes shared by the three engines, in source order; characterised by `NoLeversWriteNothing`, `AllLeversOverwriteTheirFields`, `SobrietyLeverGrowth`, `ModalShiftConditionedOnSobriety` and `OperationsEfficiencyLeverLoadFactor` |
| Simulation.AeroProcess.constructor | src/core/process_engine.py:183 | `create_process()`: the simulator's default parameters and no data yet |
| Simulation.AeroProcess.Compute | src/core/process_engine.py:165-166 | `process.compute()` sets the data to the simulation of the current parameters |
| Simulation.AeroProcess.WriteSobriety | src/core/process_engine.py:141-144 | the three sobriety assignments and nothing else |
| Simulation.AeroProcess.WriteEmissionsCompensation | src/core/process_engine.py:145-146 | the offset-share assignment and nothing else |
| Simulation.AeroProcess.WriteNewEnergies | src/core/process_engine.py:147-149 | the biofuel and electrofuel share assignments and nothing else |
| Simulation.AeroProcess.WriteModalShift | src/core/process_engine.py:150-151 | the short-range growth assignment, conditioned on sobriety |
| Simulation.AeroProcess.WriteOperationsEfficiency | src/core/process_engine.py:152-156 | the four operations assignments and nothing else |
| Simulation.AeroProcess.WriteTechnology | src/core/process_engine.py:157-163 | the energy-gain and fleet-renewal assignments, plus hydrogen when asked |
| AspectsProcessEngine.WriteFullBaseline | src/core/process_engine.py:33-137 | after the baseline assignments the parameters are the reference scenario, whatever the process held before |
| AspectsProcessEngine.AspectLevers | src/core/process_engine.py:140-163 | each of the six levers is pulled exactly when its id (2 sobriety, 3 emissions compensation, 4 new energies, 5 modal shift, 6 operations efficiency, 7 technology) occurs in the list |
| AspectsProcessEngine.WriteAspects | src/core/process_engine.py:140-163 | the aspect writes are the levers of the ids applied in the order 2 to 7 |
| Simulation.CacheKey | src/core/process_engine.py:199 | `tuple(ids) if ids else None`, as both engines write it (also `src/core/aeromaps_utils/process_engine.py:202`): None exactly for None or no ids, else the ids in caller order |
| AspectsProcessEngine.ComputeProcessCache.constructor | src/core/process_engine.py:10 | the `lru_cache` starts empty |
| AspectsProcessEngine.ComputeProcessCache.ComputeProcess | src/core/process_engine.py:10-166 | a hit returns the cached data untouched; a miss computes the reference scenario with the aspects and caches it; every entry stays the simulation of its own ids |
| AspectsProcessEngine.ProcessEngine.constructor | src/core/process_engine.py:173-183 | a new engine owns a new process |
| AspectsProcessEngine.ProcessEngine.Compute | src/core/process_engine.py:186-199 | the data are the simulation of the ids' parameters, cached under the tuple or None |
| AspectsProcessEngine.AspectsOrderFree | src/core/process_engine.py:140-163 | the parameters depend only on which ids occur |
| AspectsProcessEngine.NoAspectIsReference | src/core/process_engine.py:140 | None and the empty list both give the reference scenario and the key None |
| AspectsProcessEngine.OtherIdsIgnored | src/core/process_engine.py:141-163 | an id outside 2 to 7 changes nothing |
| AspectsProcessEngine.ReorderedIdsAreDistinctKeys | src/core/process_engine.py:199 | [2, 5] and [5, 2] give equal parameters under different cache keys |
| AspectsProcessEngine.ModalShiftWithSobriety | src/core/process_engine.py:150-151 | aspect 5 with aspect 2 sets short-range growth to [0, 0, 0]; aspect 5 alone sets [1, 1, 1] |
| CardsProcessEngine.WriteCardsBaseline | src/core/aeromaps_utils/process_engine.py:44-110 | the newest baseline's assignments, which leave the other fields as they were |
| CardsProcessEngine.CardsBaseline | src/core/aeromaps_utils/process_engine.py:44-110 | the newest baseline's assignments on the parameters the process holds; characterised by `NoCardIsBaseline` and `BaselineKeepsAgreement` |
| CardsProcessEngine.CardLevers | src/core/aeromaps_utils/process_engine.py:113-148 | each of the six levers is pulled exactly when its card id occurs in the list |
| CardsProcessEngine.ValidIds | src/core/aeromaps_utils/process_engine.py:40-41 | the ids pass validation when none are given or every one is a card id |
| CardsProcessEngine.WriteCards | src/core/aeromaps_utils/process_engine.py:113-160 | the card writes are the levers applied in source order; technology does not introduce hydrogen; the three unimplemented cards write nothing |
| CardsProcessEngine.CardsParams | src/core/aeromaps_utils/process_engine.py:44-160 | the parameters a cache miss computes with; characterised by `ResidueConfined`, `SobrietyResidue`, `LoadFactorResidue` and `CardsOrderFree` |
| CardsProcessEngine.ComputeProcessCache.constructor | src/core/aeromaps_utils/process_engine.py:16 | the `lru_cache` starts empty |
| CardsProcessEngine.ComputeProcessCache.ComputeProcess | src/core/aeromaps_utils/process_engine.py:16-163 | hit: the cached data, nothing changed; unknown id: ValueError before any write, nothing cached; miss: the baseline and card writes on the process's current parameters, computed and cached |
| CardsProcessEngine.ProcessEngine.constructor | src/core/aeromaps_utils/process_engine.py:170-174 | a new engine owns a new process and an empty memo |
| CardsProcessEngine.ProcessEngine.GetProcess | src/core/aeromaps_utils/process_engine.py:177-185 | the engine's own process |
| CardsProcessEngine.ProcessEngine.Compute | src/core/aeromaps_utils/process_engine.py:188-204 | the memo of seen ids answers first, then the shared cache under (process, tuple or None); a failure is not memoised |
| CardsProcessEngine.CardsOrderFree | src/core/aeromaps_utils/process_engine.py:40-148 | parameters and validation depend only on which card ids occur |
| CardsProcessEngine.NotImplementedCardsWriteNothing | src/core/aeromaps_utils/process_engine.py:150-160 | carbon budget, regulations and awareness write nothing beyond the baseline |
| CardsProcessEngine.NoCardIsBaseline | src/core/aeromaps_utils/process_engine.py:48-113 | no card gives the baseline: short-range growth [3,3,3] and no biofuel; on the reference scenario this baseline changes nothing |
| CardsProcessEngine.BaselineKeepsAgreement | src/core/aeromaps_utils/process_engine.py:44-110 | the baseline maps records that differ only in the four residue fields to records that differ only there |
| CardsProcessEngine.LeversKeepAgreement | src/core/aeromaps_utils/process_engine.py:113-148 | so do the card writes |
| CardsProcessEngine.ResidueConfined | src/core/aeromaps_utils/process_engine.py:44-148 | whatever earlier calls left behind, the parameters differ at most in the three sobriety growth values and the load factor |
| CardsProcessEngine.SobrietyResidue | src/core/aeromaps_utils/process_engine.py:115-118 | the sobriety growth values are [1.5] with the sobriety card and otherwise what the process held before the call |
| CardsProcessEngine.LoadFactorResidue | src/core/aeromaps_utils/process_engine.py:137-141 | the load factor is 90 with operations efficiency and otherwise what the process held |
| CardsProcessEngine.ReferenceAfterSobrietyDiffers | src/core/aeromaps_utils/process_engine.py:44-118 | a reference computed after a sobriety call keeps medium-range growth [1.5]; computed first it has [3.0] |
| SetupProcess.WriteWidgets | Setup_des_process.py:170-193 | reads checkboxes 2 to 7 in order; succeeds exactly for eight or more, then with the checked levers applied |
| SetupProcess.ComputeProcess | Setup_des_process.py:63-196 | a fresh process, the reference scenario, the checked levers, `compute`; a non-empty list shorter than eight raises IndexError |
| SetupProcess.ShortWidgetListFails | Setup_des_process.py:170-187 | a call fails exactly when the list is non-empty and shorter than eight, with IndexError |
| SetupProcess.WidgetsMatchAspects | Setup_des_process.py:171-193 | checkboxes 0 and 1 change nothing, and the checked levers set the same parameters as the matching aspect ids set in `src/core/process_engine.py` |
| ProspectiveScenarioGraphUtils.ProspectiveLines | src/bqplot_figures/utils/prospective_scenario_graph_utils.py:77-90 | exactly two series, the no-aspect line then the all-aspects line, when both evaluate; otherwise the no-aspect line's error, or else the all-aspects line's |
| ProspectiveScenarioGraphUtils.EvaluateAll | src/bqplot_figures/utils/prospective_scenario_graph_utils.py:103-105 | one series per formula in order, or the first failure |
| ProspectiveScenarioGraphUtils.AspectsAreas | src/bqplot_figures/utils/prospective_scenario_graph_utils.py:93-108 | one series per aspect plus a last one: the all-aspects expression over full_years |
| ProspectiveScenarioGraphUtils.Find | src/bqplot_figures/utils/prospective_scenario_graph_utils.py:145-148 | the first unique line equal to the group line, or none |
| ProspectiveScenarioGraphUtils.Merge | src/bqplot_figures/utils/prospective_scenario_graph_utils.py:141-151 | as many id lists as unique lines |
| ProspectiveScenarioGraphUtils.MergeJoinsGrouping | src/bqplot_figures/utils/prospective_scenario_graph_utils.py:145-148 | a group equal to a unique line joins that line's list, and the grouping holds |
| ProspectiveScenarioGraphUtils.JoinKeepsMatch | src/bqplot_figures/utils/prospective_scenario_graph_utils.py:147 | after joining, every listed id still names a group with that line |
| ProspectiveScenarioGraphUtils.JoinKeepsComplete | src/bqplot_figures/utils/prospective_scenario_graph_utils.py:147 | after joining, every group is listed with its line |
| ProspectiveScenarioGraphUtils.MergeAddsGrouping | src/bqplot_figures/utils/prospective_scenario_graph_utils.py:149-151 | a group with a new line starts a unique line of its own, and the grouping holds |
| ProspectiveScenarioGraphUtils.AddKeepsCover | src/bqplot_figures/utils/prospective_scenario_graph_utils.py:150 | the unique lines stay pairwise different and cover every group line |
| ProspectiveScenarioGraphUtils.AddKeepsMatch | src/bqplot_figures/utils/prospective_scenario_graph_utils.py:151 | the new list names only its group |
| ProspectiveScenarioGraphUtils.AddKeepsComplete | src/bqplot_figures/utils/prospective_scenario_graph_utils.py:150-151 | every group stays listed with its line |
| ProspectiveScenarioGraphUtils.MergeIsGrouping | src/bqplot_figures/utils/prospective_scenario_graph_utils.py:141-151 | unique lines pairwise different, in first-occurrence order; the 1-based ascending id lists partition 1..n; each id is listed with the line equal to its group's |
| ProspectiveScenarioGraphUtils.MergeGroupsLines | src/bqplot_figures/utils/prospective_scenario_graph_utils.py:141-151 | the nested for-else loop computes the merging |
| ProspectiveScenarioGraphUtils.MergeListsAscending | src/bqplot_figures/utils/prospective_scenario_graph_utils.py:143-151 | every id list is non-empty and ascending |
| ProspectiveScenarioGraphUtils.AllAspectsLines | src/bqplot_figures/utils/prospective_scenario_graph_utils.py:132-135 | one all-aspects line per group, in order |
| ProspectiveScenarioGraphUtils.Numbers | src/bqplot_figures/utils/prospective_scenario_graph_utils.py:169 | `str(index)` of each id, in order |
| ProspectiveScenarioGraphUtils.GroupLabels | src/bqplot_figures/utils/prospective_scenario_graph_utils.py:163-174 | one label per unique line, each its line's label |
| ProspectiveScenarioGraphUtils.LabelGroupsLines | src/bqplot_figures/utils/prospective_scenario_graph_utils.py:163-174 | the labelling loop appends one label per unique line, in order |
| ProspectiveScenarioGraphUtils.ProspectiveLinesGroupsComparison | src/bqplot_figures/utils/prospective_scenario_graph_utils.py:111-182 | the whole function: reference lines, group lines, merging, labels |
| ProspectiveScenarioGraphUtils.GroupsComparison | src/bqplot_figures/utils/prospective_scenario_graph_utils.py:111-182 | the specification of `get_y_prospective_lines_groups_comparison`; characterised by `GroupsComparisonShape`, `GroupsComparisonLinesMatch` and `LabelSuffixIffReference` |
| ProspectiveScenarioGraphUtils.GroupsComparisonShape | src/bqplot_figures/utils/prospective_scenario_graph_utils.py:156-182 | lines and labels have equal length, 2 plus the unique lines; the reference entries come first; each group label is built from its non-empty id list |
| ProspectiveScenarioGraphUtils.GroupsComparisonLinesMatch | src/bqplot_figures/utils/prospective_scenario_graph_utils.py:141-151 | every group a label names is a real group (1..n) whose all-aspects line is that line |
| ProspectiveScenarioGraphUtils.GroupsNameEndsWithDigit | src/bqplot_figures/utils/prospective_scenario_graph_utils.py:166-170 | a group name ends with the last group's number |
| ProspectiveScenarioGraphUtils.LabelSuffixIffReference | src/bqplot_figures/utils/prospective_scenario_graph_utils.py:172-174 | a label ends with ')' exactly when its line equals the reference all-aspects line, i.e. when it carries the suffix |
| ProspectiveScenarioGraphUtils.JoinedNumbersCommas | src/bqplot_figures/utils/prospective_scenario_graph_utils.py:169 | `", ".join` of n numbers holds n - 1 commas |
| ProspectiveScenarioGraphUtils.NoCommaInHead | src/bqplot_figures/utils/prospective_scenario_graph_utils.py:170 | the fixed words "Scénario des groupes " hold no comma |
| ProspectiveScenarioGraphUtils.NoCommaInAnd | src/bqplot_figures/utils/prospective_scenario_graph_utils.py:170 | " et " holds no comma |
| ProspectiveScenarioGraphUtils.GroupsNameCommas | src/bqplot_figures/utils/prospective_scenario_graph_utils.py:169-170 | a name of k >= 2 groups holds k - 2 commas: all but the last joined by ", ", then " et " and the last |
| ProspectiveScenarioGraphUtils.Truncate | src/bqplot_figures/utils/prospective_scenario_graph_utils.py:230 | `int(x)` truncates toward zero: less than one away, on the same side |
| ProspectiveScenarioGraphUtils.FormatFinalValueReadsBack | src/bqplot_figures/utils/prospective_scenario_graph_utils.py:218-230 | the label ends with " Mt CO₂" and its number reads back as the truncated value |
| ProspectiveScenarioGraphUtils.FormatFinalValue | src/bqplot_figures/utils/prospective_scenario_graph_utils.py:218-230 | the label `f"{int(x)} Mt CO₂"`; characterised by `FormatFinalValueReadsBack` |
| ProspectiveScenarioGraphUtils.LastValues | src/bqplot_figures/utils/prospective_scenario_graph_utils.py:201-203 | the last value of each line, in order; an empty line is an IndexError |
| ProspectiveScenarioGraphUtils.BlankingTestIsTooClose | src/bqplot_figures/utils/prospective_scenario_graph_utils.py:206-207 | `0 < d <= minimal_distance` holds exactly when two different end values lie within minimal_distance |
| ProspectiveScenarioGraphUtils.ProspectiveLabelsBlanking | src/bqplot_figures/utils/prospective_scenario_graph_utils.py:185-215 | one label per line; all blank when two different end values are too close, else each end value formatted |
| ProspectiveScenarioGraphUtils.ProspectiveLabels | src/bqplot_figures/utils/prospective_scenario_graph_utils.py:185-215 | the specification of `get_y_prospective_labels_groups_comparison`: the end values and one label per line; characterised by `ProspectiveLabelsBlanking` |
| Utils.Abs | src/utils.py:70 | `abs` is non-negative and equals x or -x |
| Utils.GeneratePastelPalette | src/utils.py:21-49 | [] for fewer than one colour, else exactly n colours, the i-th of hue i/n |
| Utils.Row | src/utils.py:68-70 | the inner loop appends the distance to each later value, in order |
| Utils.Insert | src/utils.py:73 | inserting keeps the list sorted and adds exactly one element |
| Utils.Sort | src/utils.py:73 | `list.sort()`: same length, sorted, a permutation |
| Utils.GetAllDistances | src/utils.py:52-75 | the nested loops and the sort yield the sorted distances of all pairs |
| Utils.PairDistances | src/utils.py:60-70 | the distances of all pairs, row by row, before the sort; characterised by `DistancesMembers` and `PairDistancesLength` |
| Utils.FewValuesNoDistances | src/utils.py:62-64 | fewer than two values have no distance |
| Utils.RowsLength | src/utils.py:66-70 | the first i rounds append i(2n - i - 1)/2 distances |
| Utils.PairDistancesLength | src/utils.py:60-73 | n values have n(n - 1)/2 distances, before and after sorting |
| Utils.RowsMembers | src/utils.py:66-70 | the first i rounds hold exactly the distances of pairs starting before i |
| Utils.DistancesMembers | src/utils.py:66-73 | the result holds exactly the distances `abs(values[a] - values[b])` for a < b |
| Utils.Positives | src/utils.py:92 | the strictly positive distances and only those |
| Utils.Min | src/utils.py:94 | `min` of a non-empty list is an element no larger than any other |
| Utils.FirstPositiveMinimalDistanceIsLeast | src/utils.py:78-94 | the result is >= 0; it is 0 exactly when all values are equal (or fewer than two); otherwise it is the least distance between two different values |
| Utils.FirstPositiveMinimalDistance | src/utils.py:78-94 | the specification of `get_first_positive_minimal_distance`; characterised by `FirstPositiveMinimalDistanceIsLeast` |
| MultidisciplinaryGraphUtils.Number | src/core/aeromaps_utils/TEMPORARY_FILE_multidisciplinary_graph_utils.py:17-29 | a number read succeeds exactly on a dictionary holding a number under the key |
| MultidisciplinaryGraphUtils.At2050 | src/core/aeromaps_utils/TEMPORARY_FILE_multidisciplinary_graph_utils.py:18 | `float(df.loc[2050, name])` succeeds exactly when the cell exists, and is its value |
| MultidisciplinaryGraphUtils.Percent | src/core/aeromaps_utils/TEMPORARY_FILE_multidisciplinary_graph_utils.py:37 | `part / total * 100`: ZeroDivisionError exactly on a zero total, else value × total = part × 100 |
| MultidisciplinaryGraphUtils.Percentages | src/core/aeromaps_utils/TEMPORARY_FILE_multidisciplinary_graph_utils.py:63-68 | each ratio's percentage in order; fails exactly when some total is zero |
| MultidisciplinaryGraphUtils.AtLeastZero | src/core/aeromaps_utils/TEMPORARY_FILE_multidisciplinary_graph_utils.py:33-36 | `max(x, 0)` is x or 0, and at least both |
| MultidisciplinaryGraphUtils.RatioOf | src/core/aeromaps_utils/TEMPORARY_FILE_multidisciplinary_graph_utils.py:16-30 | a bar's two reads succeed exactly when both do; the first failure is raised |
| MultidisciplinaryGraphUtils.ConsumptionReads | src/core/aeromaps_utils/TEMPORARY_FILE_multidisciplinary_graph_utils.py:16-30 | four ratios, in the order forcing, CO2, biomass, electricity |
| MultidisciplinaryGraphUtils.ConsumptionRatios | src/core/aeromaps_utils/TEMPORARY_FILE_multidisciplinary_graph_utils.py:10-30 | the reads of `M_plot_consumptions` yield four ratios |
| MultidisciplinaryGraphUtils.BudgetReads | src/core/aeromaps_utils/TEMPORARY_FILE_multidisciplinary_graph_utils.py:47-61 | four ratios, in the same order |
| MultidisciplinaryGraphUtils.BudgetRatios | src/core/aeromaps_utils/TEMPORARY_FILE_multidisciplinary_graph_utils.py:43-61 | the reads of `M_plot_budgets` yield four ratios |
| MultidisciplinaryGraphUtils.ConsumptionsOfMeaning | src/core/aeromaps_utils/TEMPORARY_FILE_multidisciplinary_graph_utils.py:32-40 | the first consumption is >= 0, is its percentage whenever that is non-negative, and is 0 otherwise; the others are plain percentages |
| MultidisciplinaryGraphUtils.PercentSign | src/core/aeromaps_utils/TEMPORARY_FILE_multidisciplinary_graph_utils.py:33-36 | a percentage is non-negative when part × total is |
| MultidisciplinaryGraphUtils.ConsumptionsOfFailure | src/core/aeromaps_utils/TEMPORARY_FILE_multidisciplinary_graph_utils.py:32-40 | the consumptions fail exactly on a zero total, with ZeroDivisionError |
| MultidisciplinaryGraphUtils.ConsumptionsMeaning | src/core/aeromaps_utils/TEMPORARY_FILE_multidisciplinary_graph_utils.py:10-40 | four consumptions in order, the first clamped at zero, the electricity total read from `float_inputs["available_electricity"]` |
| MultidisciplinaryGraphUtils.Consumptions | src/core/aeromaps_utils/TEMPORARY_FILE_multidisciplinary_graph_utils.py:10-40 | the specification of `M_plot_consumptions`; characterised by `ConsumptionsMeaning`, `ConsumptionTotals` and `ConsumptionsFailOnZeroTotal` |
| MultidisciplinaryGraphUtils.ConsumptionsFailOnZeroTotal | src/core/aeromaps_utils/TEMPORARY_FILE_multidisciplinary_graph_utils.py:32-40 | once every value is read, `M_plot_consumptions` fails only on a zero total |
| MultidisciplinaryGraphUtils.ConsumptionTotals | src/core/aeromaps_utils/TEMPORARY_FILE_multidisciplinary_graph_utils.py:17-29 | the four parts are the 2050 cumulative equivalent emissions, the 2050 cumulative CO2 emissions, and the end-year biomass and electricity consumptions; the four totals are the equivalent gross budget, the gross budget, the available biomass and the input electricity |
| MultidisciplinaryGraphUtils.BudgetTotals | src/core/aeromaps_utils/TEMPORARY_FILE_multidisciplinary_graph_utils.py:48-61 | the budgets divide aviation's equivalent carbon budget, carbon budget, available biomass and available electricity by the same four totals, electricity from `float_inputs` |
| MultidisciplinaryGraphUtils.BudgetsShareTotals | src/core/aeromaps_utils/TEMPORARY_FILE_multidisciplinary_graph_utils.py:43-68 | four budgets, each the percentage of its `aviation_*` share over the total its consumption uses |
| MultidisciplinaryGraphUtils.Budgets | src/core/aeromaps_utils/TEMPORARY_FILE_multidisciplinary_graph_utils.py:43-68 | the specification of `M_plot_budgets`; characterised by `BudgetsShareTotals` and `BudgetTotals` |
| SetupGraphsV1.GroupReads | Setup_des_graphs_v1.py:71-89 | one group's three reads succeed exactly when all do; the first failure is raised; they give the consumption and the budget ratio |
| SetupGraphsV1.GroupsRatios | Setup_des_graphs_v1.py:71-89 | four consumption and four budget ratios |
| SetupGraphsV1.PlotMultiRatios | Setup_des_graphs_v1.py:62-89 | the reads of `plot_multi` yield four ratios of each kind |
| SetupGraphsV1.GroupsConsumptions | Setup_des_graphs_v1.py:71-89 | from the same containers, `plot_multi` reads the consumption ratios `M_plot_consumptions` reads |
| SetupGraphsV1.GroupsBudgets | Setup_des_graphs_v1.py:71-89 | and the budget ratios `M_plot_budgets` reads |
| SetupGraphsV1.PlotMultiReadsAgree | Setup_des_graphs_v1.py:62-89 | wherever `plot_multi` reads everything, the other two read the same ratios |
| SetupGraphsV1.PlotMultiAgrees | Setup_des_graphs_v1.py:62-103 | `plot_multi` returns `[consumptions, budgets]`, four each, equal to the two `M_plot_*` results, the first consumption >= 0 |
| SetupGraphsV1.PlotMulti | Setup_des_graphs_v1.py:62-103 | the specification of `plot_multi`; characterised by `PlotMultiAgrees` |
| CrudCards.CardsNames | src/crud/crud_cards.py:15-23 | one name per card, in file order |
| CrudCards.CardsIds | src/crud/crud_cards.py:26-34 | one id per card, in file order |
| CrudCards.IdByName | src/crud/crud_cards.py:37-53 | the id of the first card with that name; ValueError exactly when no card has it |
| CrudCards.CardIdByName | src/crud/crud_cards.py:47-53 | the search loop with early return computes that |
| CrudCards.IdByNameOfCard | src/crud/crud_cards.py:49-51 | a card's name gives its own id when no earlier card shares the name |
| CrudCards.NamesAndIdsAlign | src/crud/crud_cards.py:15-34 | names and ids have equal length and line up card by card |
| CoreCrudCards.GetCards | src/core/crud_cards.py:17-24 | eight names, exactly the first two tagged "[NI] " |
| CoreCrudCards.GetCardId | src/core/crud_cards.py:27-40 | the least index holding the name; ValueError exactly when absent |
| CoreCrudCards.CardsDistinct | src/core/crud_cards.py:1-10 | the eight names are pairwise different |
| CoreCrudCards.CardIdsRoundTrip | src/core/crud_cards.py:35-38 | each name gives back its own position |
| CoreCrudAspects.GetAspects | src/core/crud_aspects.py:15-22 | eight names, "Sobriété" at 2 and "Technologie" at 7 |
| CoreCrudAspects.GetAspectId | src/core/crud_aspects.py:25-38 | the least index holding the name; ValueError exactly when absent |
| CoreCrudAspects.AspectsDistinct | src/core/crud_aspects.py:1-10 | the eight names are pairwise different |
| CoreCrudAspects.AspectIdsRoundTrip | src/core/crud_aspects.py:35-36 | each name gives back its own position |
| UIConstants.Declarations | src/ui/utils/fresque_aeromaps_UI_constants.py:43 | one "key: value" per entry, in mapping order |
| UIConstants.StyleStringHasNoUnderscore | src/ui/utils/fresque_aeromaps_UI_constants.py:43 | no '_' survives, in keys or values |
| UIConstants.EmptyStyleString | src/ui/utils/fresque_aeromaps_UI_constants.py:43 | an empty mapping gives "" |
| UIConstants.StyleStringEntrywise | src/ui/utils/fresque_aeromaps_UI_constants.py:43 | the style string is the "; "-join of the declarations with '_' replaced by '-' in every key and value |
| UIConstants.StyleString | src/ui/utils/fresque_aeromaps_UI_constants.py:43 | the specification of `get_style_string`; characterised by `StyleStringEntrywise`, `StyleStringHasNoUnderscore` and `EmptyStyleString` |
| UIConstants.Replaced | src/ui/utils/fresque_aeromaps_UI_constants.py:43 | each part with '_' replaced by '-' |
| UIConstants.ReplacedJoin | src/ui/utils/fresque_aeromaps_UI_constants.py:43 | replacing after joining is joining the replaced parts |
| UIConstants.GroupCountBounds | src/ui/utils/fresque_aeromaps_UI_constants.py:11-26 | 1 <= 3 <= 10, and the comparison palette has 10 + 3 colours |
| UIFigures.EngineKey | src/ui/utils/fresque_aeromaps_UI_figures.py:63-65 | None exactly when no id was collected, else the ids as a tuple |
| UIFigures.SelectedIdsFailureSticks | src/ui/utils/fresque_aeromaps_UI_figures.py:56-60 | the first failing box decides the outcome |
| UIFigures.ComputeProcessEngine | src/ui/utils/fresque_aeromaps_UI_figures.py:41-65 | a box past the card names fails before the engine is called; otherwise the engine's memo answers for the key, holding the result afterwards; on a memo miss the shared cache's entry is returned with cache and process untouched, or else the engine's parameters become the baseline with the key's levers, the result is their simulation and the cache stores it under (process, key) |
| UIFigures.CheckedPositions | src/ui/utils/fresque_aeromaps_UI_figures.py:57-58 | the positions of checked boxes, each a checked box |
| UIFigures.SelectedIdsAreKnown | src/ui/utils/fresque_aeromaps_UI_figures.py:56-60 | every collected id is a card id, so the engine's validation passes |
| UIFigures.IdsByNameAt | src/ui/utils/fresque_aeromaps_UI_figures.py:60 | the id found by name for each position |
| UIFigures.SelectedIdsInCheckboxOrder | src/ui/utils/fresque_aeromaps_UI_figures.py:56-60 | the ids are those of `CARDS_NAMES[i]` for each checked i, in checkbox order |
| UIFigures.SelectedIdsOfDistinctNames | src/ui/utils/fresque_aeromaps_UI_figures.py:56-60 | with distinct names, the ids are the checked cards' own ids |
| UIFigures.SelectedIds | src/ui/utils/fresque_aeromaps_UI_figures.py:56-60 | the ids collected for the checked boxes; characterised by `SelectedIdsInCheckboxOrder`, `SelectedIdsAreKnown` and `NoCheckedBoxIsReference` |
| UIFigures.NoCheckedBoxIsReference | src/ui/utils/fresque_aeromaps_UI_figures.py:41-65 | the key is None (the reference) exactly when no box is checked, the default empty list included; IndexError exactly for a checked box past the names |
| UIFigures.GroupKey | src/ui/utils/fresque_aeromaps_UI_figures.py:56-65 | the key `compute_process_engine` passes to the engine; characterised by `NoCheckedBoxIsReference` |
| UIFigures.DrawLegend | src/ui/utils/fresque_aeromaps_UI_figures.py:170-215 | the length check, then the loop's items |
| UIFigures.Legend | src/ui/utils/fresque_aeromaps_UI_figures.py:170-215 | the specification of `draw_multidisciplinary_graph_legend`; characterised by `LegendPairs`, `LegendLength` and `LegendEndsWithLastLabel` |
| UIFigures.WithoutSpacers | src/ui/utils/fresque_aeromaps_UI_figures.py:204-210 | dropping the spacers shortens or keeps the item list |
| UIFigures.WithoutSpacersConcat | src/ui/utils/fresque_aeromaps_UI_figures.py:186-210 | dropping spacers distributes over concatenation |
| UIFigures.NoSpacerKept | src/ui/utils/fresque_aeromaps_UI_figures.py:204-210 | nothing of a lone spacer is kept |
| UIFigures.WithoutSpacersOfPair | src/ui/utils/fresque_aeromaps_UI_figures.py:188-202 | a square and a label are both kept |
| UIFigures.WithoutSpacersOfEntry | src/ui/utils/fresque_aeromaps_UI_figures.py:186-210 | one more entry adds its square and label |
| UIFigures.SwatchesAndTexts | src/ui/utils/fresque_aeromaps_UI_figures.py:188-202 | two items per entry |
| UIFigures.LegendPairs | src/ui/utils/fresque_aeromaps_UI_figures.py:186-210 | without spacers, the legend is a square then a label per entry, in order |
| UIFigures.LegendLength | src/ui/utils/fresque_aeromaps_UI_figures.py:186-210 | two items per entry plus one spacer per label that differs from the last label |
| UIFigures.LegendEndsWithLastLabel | src/ui/utils/fresque_aeromaps_UI_figures.py:204-210 | the legend ends with the last label, never a spacer |
| UIFigures.ComparisonPaletteFits | src/ui/utils/fresque_aeromaps_UI_figures.py:95-99 | for every allowed group count the slice holds exactly count + 3 colours |
| FresqueUI.PairsStep | src/ui/fresque_aeromaps_UI.py:84-90 | one step of the pairing loop takes the next one or two figures |
| FresqueUI.AppendPairs | src/ui/fresque_aeromaps_UI.py:84-90 | the loop over even indices appends the pairs in order |
| FresqueUI.CreateMultidisciplinaryBoxes | src/ui/fresque_aeromaps_UI.py:60-104 | even count: the reference alone, then pairs of figures; odd: pairs of reference-then-figures |
| FresqueUI.PairsFlatten | src/ui/fresque_aeromaps_UI.py:84-102 | pairing loses and reorders nothing and makes ceil(n/2) boxes of one or two |
| FresqueUI.Pairs | src/ui/fresque_aeromaps_UI.py:84-90 | `xs[index : index + 2]` for index = 0, 2, 4, …; characterised by `PairsFlatten` |
| FresqueUI.BoxesLayout | src/ui/fresque_aeromaps_UI.py:74-104 | the boxes hold the reference then the figures in order, one or two each; with one figure per group, count // 2 + 1 boxes |
| FresqueUI.Boxes | src/ui/fresque_aeromaps_UI.py:74-104 | the boxes of `create_multidisciplinary_boxes`; characterised by `BoxesLayout` |
| FresqueUI.Unchecked | src/ui/fresque_aeromaps_UI.py:161-167 | a new group has one unchecked box per card name |
| FresqueUI.FresqueAeroMapsUI.constructor | src/ui/fresque_aeromaps_UI.py:108-135 | unchecked lists and fresh engines, one per group; reference and group data computed |
| FresqueUI.FresqueAeroMapsUI.ComputeProcessEngines | src/ui/fresque_aeromaps_UI.py:138-154 | the data are rebuilt with one entry per (engine, checkbox list) pair in order; the reference only when asked |
| FresqueUI.FresqueAeroMapsUI.UpdateCheckboxesLists | src/ui/fresque_aeromaps_UI.py:170-192 | growing appends unchecked lists; shrinking keeps the first lists unchanged |
| FresqueUI.FresqueAeroMapsUI.UpdateProcessEngines | src/ui/fresque_aeromaps_UI.py:214-235 | growing appends fresh engines; shrinking keeps a prefix; then every group's data is recomputed |
| FresqueUI.FresqueAeroMapsUI.OnGroupSelectorChange | src/ui/fresque_aeromaps_UI.py:631-645 | nothing changes for the same count; otherwise lists and engines match the new count, earlier groups are kept, and the data are current |
| FresqueUI.NewInterface | src/ui/fresque_aeromaps_UI.py:119-121 | ValueError exactly for a count outside [1, 10]; otherwise a valid interface with that count |

## Left out

- I/O and the simulator:
  - widgets, bqplot figures, Panel templates and markdown rendering are not modelled;
  - JSON file loads are not modelled: the cards are passed in as a list;
  - `create_process()` is not modelled: the simulator's defaults are a parameter;
  - `process.compute()` is an arbitrary function of the parameters.
- SetupProcess.WidgetsMatchAspects: `Setup_des_process.py:63` builds its process with `create_default_models()` while `src/core/process_engine.py:183` calls `create_process()` with no models; the lemma proves equal parameters only, not equal data, since the two model sets are not part of this model.
- Python `eval`: the string expressions are a small datatype (numbers, the two accessors, the four operators, `min`, `max`, any other name). General Python evaluation, parsing the expression text, and attribute access are not modelled.
- IEEE floating point: numbers are `real`. pandas' infinities and NaNs on a zero divisor are the error `NonFinite`. The HSV colour maths of `generate_pastel_palette` is a parameter; only the palette's length and order are kept.
- `float(s)`: only decimal literals (sign, digits, one optional point) are modelled. Exponents, "inf", "nan", underscores and surrounding whitespace are not.
- AeroMAPS parameters: only the fields the engines assign are modelled. They are grouped into lever and scenario records, which changes nothing about which values are written. Integer literals assigned to float fields (such as `[71, 0, 0, 0]`) are written as reals.
- pandas label alignment: a table is a map from column to year-indexed values, and a series is a sequence aligned to its year list.
- `copy.deepcopy` and object identity of the results: data are values, so a deep copy is the value itself. The `lru_cache` hashing is modelled as maps keyed on the process object and the ids.
- MultidisciplinaryGraphUtils.Number: every read accepts only a Python int or float and rejects anything else with a TypeError. This includes a numeric string such as "12.5", which the reads wrapped in `float()` would accept (and a non-numeric string, on which `float()` raises ValueError). The reads without `float()` fail with TypeError at the division.
- ParseProcessData.Operand: the source's unreachable error branch (src/core/parse_process_data.py:154-155) and the unreachable unknown-operator branch (src/core/parse_process_data.py:182-183) are not modelled, because the checks before them exclude both.
- A "years" value that is not a dictionary is modelled as a TypeError. Python would test membership in whatever the value is.
- The remaining UI methods (`_update_prospective_scenario_graphs`, `_update_multidisciplinary_graphs` and the section builders) only build widgets and are not modelled.
- FresqueUI.FresqueAeroMapsUI.constructor: the constructor's type check of the group count is modelled as a range check on a `nat`. A non-int argument cannot be expressed.
