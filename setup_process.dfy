/** `Setup_des_process.py`: the first generation, driven by the values of
    eight checkboxes. Every call works on a process of its own, so nothing
    carries over from one call to the next. */
module SetupProcess {
  import opened ProcessData
  import opened Simulation
  import AspectsProcessEngine

  /** Which levers checkboxes 2 to 7 pull; 0 and 1 are never read. */
  function WidgetLevers(widgets: seq<bool>): Levers
    requires |widgets| >= 8
  {
    Levers(widgets[2], widgets[3], widgets[4], widgets[5], widgets[6], widgets[7])
  }

  /** What `compute_process(widgets)` returns or raises: the data the
      simulator computes for the reference scenario with the checked levers.
      A non-empty list shorter than eight fails on its first missing index. */
  function SetupResult(simulate: Params -> Bundle, widgets: Option<seq<bool>>): Result<Bundle> {
    if widgets.None? || widgets.value == [] then
      Ok(simulate(AspectsProcessEngine.FullBaseline()))
    else if |widgets.value| < 8 then
      Err(IndexError)
    else
      Ok(simulate(ApplyLevers(AspectsProcessEngine.FullBaseline(), WidgetLevers(widgets.value), true)))
  }

  /** The widget reads of `compute_process(widgets)`: checkboxes 2 to 7 in
      order, each pulling its lever when checked; indexing past the end of
      the list stops the reads with `ok` false, after the writes before it. */
  method WriteWidgets(process: AeroProcess, w: seq<bool>) returns (ok: bool)
    modifies process`parameters
    ensures ok <==> |w| >= 8
    ensures ok ==> process.parameters == ApplyLevers(old(process.parameters), WidgetLevers(w), true)
  {
    if |w| <= 2 {
      return false;
    }
    if w[2] {
      process.WriteSobriety();
    }
    if |w| <= 3 {
      return false;
    }
    if w[3] {
      process.WriteEmissionsCompensation();
    }
    if |w| <= 4 {
      return false;
    }
    if w[4] {
      process.WriteNewEnergies();
    }
    if |w| <= 5 {
      return false;
    }
    if w[5] {
      process.WriteModalShift(w[2]);
    }
    if |w| <= 6 {
      return false;
    }
    if w[6] {
      process.WriteOperationsEfficiency();
    }
    if |w| <= 7 {
      return false;
    }
    if w[7] {
      process.WriteTechnology(true);
    }
    return true;
  }

  /** `compute_process(widgets)`: a new process, the reference scenario, the
      checked levers read in order, then `compute`. The result does not
      depend on the simulator's defaults. */
  method ComputeProcess(defaults: Params, simulate: Params -> Bundle, widgets: Option<seq<bool>>)
    returns (r: Result<Bundle>)
    ensures r == SetupResult(simulate, widgets)
  {
    var process := new AeroProcess(defaults, simulate);
    AspectsProcessEngine.WriteFullBaseline(process);
    if widgets.Some? && widgets.value != [] {
      var ok := WriteWidgets(process, widgets.value);
      if !ok {
        return Err(IndexError);
      }
    }
    process.Compute();
    return Ok(process.data);
  }

  /** A call fails exactly when the list is non-empty and shorter than eight. */
  lemma ShortWidgetListFails(simulate: Params -> Bundle, widgets: seq<bool>)
    ensures SetupResult(simulate, Some(widgets)).Err? <==> 0 < |widgets| < 8
    ensures SetupResult(simulate, Some(widgets)).Err? ==> SetupResult(simulate, Some(widgets)).error == IndexError
  {
  }

  /** Checkboxes 0 and 1 change nothing, and the checked levers set the
      same parameters as the same aspect ids set in the next generation. */
  lemma WidgetsMatchAspects(simulate: Params -> Bundle, widgets: seq<bool>, ids: seq<int>)
    requires |widgets| >= 8 && ids != []
    requires forall a :: 2 <= a <= 7 ==> (widgets[a] <==> a in ids)
    ensures ApplyLevers(AspectsProcessEngine.FullBaseline(), WidgetLevers(widgets), true) ==
            AspectsProcessEngine.AspectsParams(Some(ids))
    ensures SetupResult(simulate, Some(widgets)) ==
            SetupResult(simulate, Some([!widgets[0], !widgets[1]] + widgets[2..]))
  {
    assert WidgetLevers(widgets) == AspectsProcessEngine.AspectLevers(ids);
    var flipped := [!widgets[0], !widgets[1]] + widgets[2..];
    assert WidgetLevers(flipped) == WidgetLevers(widgets);
  }
}
