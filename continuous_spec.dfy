/** What one call of a registered `simulate_*` method of the continuous simulator
    (abtoolkit/continuous/simulation.py) computes, as a function of the data, the
    generator position and the effect. */
module ContinuousSpec {
  import opened Common
  import opened Resampling
  import opened EngineSpec
  import ST = ContinuousStatTests

  /** The six bound methods of `stattests_func_map`. */
  datatype ContinuousTest = Ttest | DiffTtest | CupedTtest | Regression | DidRegression | AdditionalVarsRegression

  /** `stattests_func_map`: test name to simulation method. */
  function Registry(): (r: map<string, ContinuousTest>)
    ensures r.Keys == {"ttest", "diff_ttest", "cuped_ttest", "regression_test",
                       "did_regression_test", "additional_vars_regression_test"}
  {
    map["ttest" := Ttest, "diff_ttest" := DiffTtest, "cuped_ttest" := CupedTtest,
        "regression_test" := Regression, "did_regression_test" := DidRegression,
        "additional_vars_regression_test" := AdditionalVarsRegression]
  }

  /** The series a simulator resamples from, read as values; `None` is Python's `None`. */
  datatype Dataset = Dataset(
    variable: seq<real>,
    previousValues: Option<seq<real>>,
    cupedCovariant: Option<seq<real>>,
    additionalVars: Option<seq<ST.Series>>)

  /** `aux.loc[positions]` on an optional series: `None` has no `.loc`, and a position
      the series does not have is a missing key. */
  function AuxSample(aux: Option<seq<real>>, parameter: string, idx: seq<nat>): (r: Result<seq<real>>)
    ensures r.Ok? <==> aux.Some? && InRange(idx, |aux.value|)
    ensures r.Ok? ==> r.value == GatherSeq(aux.value, idx)
    ensures aux.None? ==> r == Err(MissingSeries(parameter))
    ensures aux.Some? && !InRange(idx, |aux.value|) ==> r == Err(KeyNotFound(parameter))
  {
    if aux.None? then Err(MissingSeries(parameter))
    else if !InRange(idx, |aux.value|) then Err(KeyNotFound(parameter))
    else Ok(GatherSeq(aux.value, idx))
  }

  /** `[a.loc[positions] for a in additional_vars]`: each series resampled, names kept. */
  function GatherVars(vars: seq<ST.Series>, idx: seq<nat>): (r: Result<seq<ST.Series>>)
    ensures r.Ok? <==> forall j :: 0 <= j < |vars| ==> InRange(idx, |vars[j].values|)
    ensures r.Err? ==> r.error == KeyNotFound("additional_vars")
    ensures r.Ok? ==> |r.value| == |vars|
    ensures r.Ok? ==> forall j :: 0 <= j < |vars| ==>
      r.value[j] == ST.Series(vars[j].name, GatherSeq(vars[j].values, idx))
  {
    if vars == [] then Ok([])
    else if !InRange(idx, |vars[0].values|) then Err(KeyNotFound("additional_vars"))
    else
      var rest := GatherVars(vars[1..], idx);
      if rest.Err? then rest
      else Ok([ST.Series(vars[0].name, GatherSeq(vars[0].values, idx))] + rest.value)
  }

  /** One call of a simulation method at generator position `k`: both groups draw
      `size` positions of `variable`, the test group's copy is shifted by `mde`, the
      auxiliary series are read at the same positions, and the test runs.
      Drawing positions from an empty `variable` raises, unless no position is drawn:
      neither `np.random.randint` nor `Series.sample` complains about a draw of size 0.
      As written, `simulate_difference_ttest` reads the test group's previous values
      from `variable` and calls `cuped_ttest`. */
  function SimulateProcedure(d: Dataset, rng: Rng, n: ST.Numerics, alternative: string, size: nat,
                             test: ContinuousTest, k: nat, mde: real): (r: Result<real>)
    ensures |d.variable| == 0 && size > 0 ==> r == Err(EmptyVariable)
    ensures |d.variable| == 0 && size == 0
            && (test == Ttest || (test == DiffTtest && d.previousValues.Some?)
                || (test == CupedTtest && d.cupedCovariant.Some?))
            ==> r == Err(TooFewSamples(-2))
    ensures (|d.variable| > 0 || size == 0) && (test == DiffTtest || test == DidRegression) && d.previousValues.None?
            ==> r == Err(MissingSeries("previous_values"))
    ensures (|d.variable| > 0 || size == 0) && test == CupedTtest && d.cupedCovariant.None?
            ==> r == Err(MissingSeries("cuped_covariant"))
    ensures (|d.variable| > 0 || size == 0) && test == AdditionalVarsRegression && d.additionalVars.None?
            ==> r == Err(MissingSeries("additional_vars"))
  {
    if |d.variable| == 0 && size > 0 then Err(EmptyVariable)
    else
      var controlIdx := DrawIndices(rng, k, Control, size, |d.variable|);
      var testIdx := DrawIndices(rng, k, Treatment, size, |d.variable|);
      var control := GatherSeq(d.variable, controlIdx);
      var unshifted := GatherSeq(d.variable, testIdx);
      var treated := Shifted(unshifted, mde);
      match test
      case Ttest => ST.TTest(control, treated, alternative, n.t)
      case Regression => Ok(ST.RegressionTest(control, treated, alternative, n.fit))
      case DiffTtest =>
        var controlPre := AuxSample(d.previousValues, "previous_values", controlIdx);
        if controlPre.Err? then Err(controlPre.error)
        else ST.CupedTTest(control, controlPre.value, treated, unshifted, alternative, n)
      case CupedTtest =>
        var controlCov := AuxSample(d.cupedCovariant, "cuped_covariant", controlIdx);
        var testCov := AuxSample(d.cupedCovariant, "cuped_covariant", testIdx);
        if controlCov.Err? then Err(controlCov.error)
        else if testCov.Err? then Err(testCov.error)
        else ST.CupedTTest(control, controlCov.value, treated, testCov.value, alternative, n)
      case DidRegression =>
        var controlPre := AuxSample(d.previousValues, "previous_values", controlIdx);
        var testPre := AuxSample(d.previousValues, "previous_values", testIdx);
        if controlPre.Err? then Err(controlPre.error)
        else if testPre.Err? then Err(testPre.error)
        else Ok(ST.DidRegressionTest(control, controlPre.value, treated, testPre.value, alternative, n.fit))
      case AdditionalVarsRegression =>
        if d.additionalVars.None? then Err(MissingSeries("additional_vars"))
        else
          var controlVars := GatherVars(d.additionalVars.value, controlIdx);
          var testVars := GatherVars(d.additionalVars.value, testIdx);
          if controlVars.Err? then Err(controlVars.error)
          else if testVars.Err? then Err(testVars.error)
          else ST.AdditionalVarsRegressionTest(control, controlVars.value, treated, testVars.value, alternative, n.fit)
  }

  /** One simulation method as an engine procedure over fixed data. */
  function AsProcedure(d: Dataset, rng: Rng, n: ST.Numerics, alternative: string, size: nat,
                       test: ContinuousTest): Procedure
  {
    (k: nat, mde: real) => SimulateProcedure(d, rng, n, alternative, size, test, k, mde)
  }

  /** The registry as engine procedures over fixed data. */
  function Procedures(registry: map<string, ContinuousTest>, d: Dataset, rng: Rng, n: ST.Numerics,
                      alternative: string, size: nat): (r: map<string, Procedure>)
    ensures r.Keys == registry.Keys
    ensures forall name :: name in registry ==> r[name] == AsProcedure(d, rng, n, alternative, size, registry[name])
  {
    map name | name in registry :: AsProcedure(d, rng, n, alternative, size, registry[name])
  }

  /** With a genuine t distribution every p-value a simulation method returns is a
      probability. */
  lemma ProcedureInUnitInterval(d: Dataset, rng: Rng, n: ST.Numerics, alternative: string, size: nat,
                                test: ContinuousTest, k: nat, mde: real)
    requires ST.IsCdf(n.t.cdf)
    ensures var r := SimulateProcedure(d, rng, n, alternative, size, test, k, mde);
      r.Ok? ==> 0.0 <= r.value <= 1.0
  {
    if |d.variable| > 0 {
      var controlIdx := DrawIndices(rng, k, Control, size, |d.variable|);
      var testIdx := DrawIndices(rng, k, Treatment, size, |d.variable|);
      var control := GatherSeq(d.variable, controlIdx);
      var unshifted := GatherSeq(d.variable, testIdx);
      var treated := Shifted(unshifted, mde);
      match test {
        case Ttest =>
          ST.TTestInUnitInterval(control, treated, alternative, n.t);
        case DiffTtest =>
          var controlPre := AuxSample(d.previousValues, "previous_values", controlIdx);
          if controlPre.Ok? {
            var theta := n.theta(controlPre.value + unshifted, control + treated);
            ST.TTestInUnitInterval(ST.CupedAdjust(control, controlPre.value, theta),
                                   ST.CupedAdjust(treated, unshifted, theta), alternative, n.t);
          }
        case CupedTtest =>
          var controlCov := AuxSample(d.cupedCovariant, "cuped_covariant", controlIdx);
          var testCov := AuxSample(d.cupedCovariant, "cuped_covariant", testIdx);
          if controlCov.Ok? && testCov.Ok? {
            var theta := n.theta(controlCov.value + testCov.value, control + treated);
            ST.TTestInUnitInterval(ST.CupedAdjust(control, controlCov.value, theta),
                                   ST.CupedAdjust(treated, testCov.value, theta), alternative, n.t);
          }
        case Regression =>
        case DidRegression =>
        case AdditionalVarsRegression =>
      }
    }
  }

  /** The difference-test simulation as written: the test group's "previous" sample is
      the test sample itself before the shift, and the samples go to the CUPED test.
      In the test group every difference against that previous sample is exactly `mde`,
      and previous values at the test positions are never read. */
  lemma DiffTtestAsWritten(d: Dataset, rng: Rng, n: ST.Numerics, alternative: string, size: nat, k: nat, mde: real)
    requires |d.variable| > 0 && d.previousValues.Some?
    requires InRange(DrawIndices(rng, k, Control, size, |d.variable|), |d.previousValues.value|)
    ensures var controlIdx := DrawIndices(rng, k, Control, size, |d.variable|);
      var testIdx := DrawIndices(rng, k, Treatment, size, |d.variable|);
      var unshifted := GatherSeq(d.variable, testIdx);
      var treated := Shifted(unshifted, mde);
      && SimulateProcedure(d, rng, n, alternative, size, DiffTtest, k, mde)
         == ST.CupedTTest(GatherSeq(d.variable, controlIdx), GatherSeq(d.previousValues.value, controlIdx),
                          treated, unshifted, alternative, n)
      && forall i :: 0 <= i < size ==> ST.Differences(treated, unshifted)[i] == mde
  {
  }

  /** Two data sets that agree on `variable` and on the previous values at the control
      positions give the same difference-test result, whatever their previous values
      elsewhere. */
  lemma DiffTtestIgnoresTestPrevious(d: Dataset, d': Dataset, rng: Rng, n: ST.Numerics, alternative: string,
                                     size: nat, k: nat, mde: real)
    requires d.variable == d'.variable && |d.variable| > 0
    requires d.previousValues.Some? && d'.previousValues.Some?
    requires var controlIdx := DrawIndices(rng, k, Control, size, |d.variable|);
      && InRange(controlIdx, |d.previousValues.value|) && InRange(controlIdx, |d'.previousValues.value|)
      && GatherSeq(d.previousValues.value, controlIdx) == GatherSeq(d'.previousValues.value, controlIdx)
    ensures SimulateProcedure(d, rng, n, alternative, size, DiffTtest, k, mde)
         == SimulateProcedure(d', rng, n, alternative, size, DiffTtest, k, mde)
  {
    DiffTtestAsWritten(d, rng, n, alternative, size, k, mde);
    DiffTtestAsWritten(d', rng, n, alternative, size, k, mde);
  }

  lemma {:induction false} GatherVarsNames(vars: seq<ST.Series>, idx: seq<nat>)
    requires GatherVars(vars, idx).Ok?
    ensures ST.NameSet(GatherVars(vars, idx).value) == ST.NameSet(vars)
  {
    var r := GatherVars(vars, idx).value;
    forall x | x in ST.NameSet(r) ensures x in ST.NameSet(vars) {
      var v :| v in r && v.name == x;
      var j :| 0 <= j < |r| && r[j] == v;
      assert vars[j].name == x;
    }
    forall x | x in ST.NameSet(vars) ensures x in ST.NameSet(r) {
      var v :| v in vars && v.name == x;
      var j :| 0 <= j < |vars| && vars[j] == v;
      assert r[j].name == x;
    }
  }

  /** Both groups resample the same list of additional variables, so the name check of
      the regression test can only fail on an empty list, and the row counts always
      agree. */
  lemma AdditionalVarsSimulationGuards(d: Dataset, rng: Rng, n: ST.Numerics, alternative: string,
                                       size: nat, k: nat, mde: real)
    ensures var r := SimulateProcedure(d, rng, n, alternative, size, AdditionalVarsRegression, k, mde);
      && (r.Err? ==> !r.error.AdditionalVarsMismatch? && !r.error.LengthMismatch? && !r.error.DuplicateLabels?)
      && ((|d.variable| > 0 || size == 0) && d.additionalVars == Some([]) ==> r == Err(NoAdditionalVars))
  {
    if (|d.variable| > 0 || size == 0) && d.additionalVars.Some? {
      var vars := d.additionalVars.value;
      var controlIdx := DrawIndices(rng, k, Control, size, |d.variable|);
      var testIdx := DrawIndices(rng, k, Treatment, size, |d.variable|);
      var controlVars := GatherVars(vars, controlIdx);
      var testVars := GatherVars(vars, testIdx);
      if controlVars.Ok? && testVars.Ok? {
        GatherVarsNames(vars, controlIdx);
        GatherVarsNames(vars, testIdx);
      }
    }
  }
}
