/** `StatTestsSimulation` of abtoolkit/continuous/simulation.py: a self-contained copy of
    the simulation engine whose registry resamples the simulator's own series. */
module ContinuousSimulation {
  import opened Common
  import opened Resampling
  import opened EngineSpec
  import opened ContinuousSpec
  import ST = ContinuousStatTests
  import OD = OrderedDict

  class StatTestsSimulation {
    const variable: seq<real>
    const alternative: string
    const stattestsList: seq<string>
    const experimentsNum: int
    const sampleSize: nat
    const mde: real
    const alphaLevel: real
    const power: real
    const stattestsFuncMap: map<string, ContinuousTest>
    const previousValues: Option<seq<real>>
    const cupedCovariant: Option<seq<real>>
    const additionalVars: Option<seq<ST.Series>>
    /** The global generator's draws, the numerics of the tests and `estimate_ci_binomial`. */
    const rng: Rng
    const numerics: ST.Numerics
    const ci: CiEstimator

    var info: Info
    /** Position of the global random generator, counted in simulation calls. */
    var position: nat

    /** The series the simulator resamples from. */
    function Data(): Dataset
    {
      Dataset(variable, previousValues, cupedCovariant, additionalVars)
    }

    /** The registry's methods as engine procedures over this simulator's data. */
    ghost const procedures: map<string, Procedure>

    /** Each registered name's procedure is its simulation method; the quantifier is
        instantiated only where a simulation method has just been run. */
    ghost predicate Wired()
    {
      && procedures.Keys == stattestsFuncMap.Keys
      && forall name, k: nat, mde: real
           {:trigger SimulateProcedure(Data(), rng, numerics, alternative, sampleSize, stattestsFuncMap[name], k, mde)}
           :: name in stattestsFuncMap ==>
                procedures[name](k, mde) == SimulateProcedure(Data(), rng, numerics, alternative, sampleSize, stattestsFuncMap[name], k, mde)
    }

    function Config(): Settings
    {
      Settings(experimentsNum, mde, alphaLevel, ci)
    }

    function State(): EngineState
      reads this`info, this`position
    {
      EngineState(info, position)
    }

    constructor (variable: seq<real>, alternative: string, stattestsList: seq<string>, sampleSize: nat,
                 experimentsNum: int, mde: real, alphaLevel: real := 0.05, power: real := 0.8,
                 previousValues: Option<seq<real>> := None, cupedCovariant: Option<seq<real>> := None,
                 additionalVars: Option<seq<ST.Series>> := None,
                 rng: Rng, numerics: ST.Numerics, ci: CiEstimator, position: nat)
      ensures this.variable == variable && this.alternative == alternative
      ensures this.stattestsList == stattestsList && this.experimentsNum == experimentsNum
      ensures this.sampleSize == sampleSize && this.mde == mde
      ensures this.alphaLevel == alphaLevel && this.power == power
      ensures stattestsFuncMap == Registry() && info == []
      ensures procedures == Procedures(Registry(), Data(), rng, numerics, alternative, sampleSize) && Wired()
      ensures this.previousValues == previousValues && this.cupedCovariant == cupedCovariant
      ensures this.additionalVars == additionalVars
      ensures this.rng == rng && this.numerics == numerics && this.ci == ci && this.position == position
    {
      this.variable := variable;
      this.alternative := alternative;
      this.stattestsList := stattestsList;
      this.experimentsNum := experimentsNum;
      this.sampleSize := sampleSize;
      this.mde := mde;
      this.alphaLevel := alphaLevel;
      this.power := power;
      this.stattestsFuncMap := Registry();
      this.info := [];
      this.previousValues := previousValues;
      this.cupedCovariant := cupedCovariant;
      this.additionalVars := additionalVars;
      this.rng := rng;
      this.numerics := numerics;
      this.ci := ci;
      this.position := position;
      this.procedures := Procedures(Registry(), Dataset(variable, previousValues, cupedCovariant, additionalVars),
                                    rng, numerics, alternative, sampleSize);
    }

    /** `run()`: resets `info`, simulates every listed test in order and returns `info`;
        the first exception ends the run. */
    method Run() returns (r: Result<Info>)
      requires Wired()
      modifies this`info, this`position
      ensures var (o, s) := EngineSpec.Run(procedures, old(position), stattestsList, Config());
        && State() == s
        && (o.Pass? ==> r == Ok(info))
        && (o.Fail? ==> r == Err(o.error))
    {
      info := [];
      var j := 0;
      while j < |stattestsList|
        invariant 0 <= j <= |stattestsList|
        invariant EngineSpec.Run(procedures, old(position), stattestsList, Config())
               == RunAll(procedures, State(), stattestsList[j..], Config())
      {
        assert stattestsList[j..] == [stattestsList[j]] + stattestsList[j + 1..];
        var o := SimulateTestByName(stattestsList[j]);
        if o.Fail? {
          return Err(o.error);
        }
        j := j + 1;
      }
      return Ok(info);
    }

    /** `simulate_test_by_name(test_name)`. */
    method SimulateTestByName(testName: string) returns (outcome: Outcome)
      requires Wired()
      modifies this`info, this`position
      ensures (outcome, State()) == Step(procedures, old(State()), testName, Config())
    {
      if testName !in stattestsFuncMap {
        return Fail(UnknownTestName(testName));
      }
      var stattestFunc := stattestsFuncMap[testName];
      var failure, pvaluesNoEffect, pvaluesEffect, successNoEffectCnt, successEffectCnt := Trials(testName, stattestFunc);
      if failure.Some? {
        return Fail(failure.value);
      }
      outcome := StoreRecord(testName, pvaluesNoEffect, pvaluesEffect, successNoEffectCnt, successEffectCnt);
    }

    /** The loop of `simulate_test_by_name`: per trial a null pass and an effect pass of
        the registered method, their p-values collected and the hits below `alpha_level`
        counted; the first exception ends it. */
    method Trials(ghost testName: string, stattestFunc: ContinuousTest)
      returns (failure: Option<Error>, pvaluesNoEffect: seq<real>, pvaluesEffect: seq<real>,
               successNoEffectCnt: nat, successEffectCnt: nat)
      requires Wired() && testName in stattestsFuncMap && stattestsFuncMap[testName] == stattestFunc
      modifies this`position
      ensures failure.Some? ==>
                position > old(position)
                && RunTrials(procedures[testName], old(position), Iterations(experimentsNum), mde) == Aborted(failure.value, position - 1)
      ensures failure.None? ==>
                position == old(position) + 2 * Iterations(experimentsNum)
                && RunTrials(procedures[testName], old(position), Iterations(experimentsNum), mde) == Completed(pvaluesNoEffect, pvaluesEffect)
      ensures successNoEffectCnt == CountBelow(pvaluesNoEffect, alphaLevel)
      ensures successEffectCnt == CountBelow(pvaluesEffect, alphaLevel)
    {
      successNoEffectCnt, pvaluesNoEffect, successEffectCnt, pvaluesEffect := 0, [], 0, [];
      failure := None;
      ghost var proc := procedures[testName];
      ghost var start := position;
      ghost var n := Iterations(experimentsNum);
      var i := 0;
      while i < experimentsNum && failure.None?
        invariant 0 <= i <= n
        invariant successNoEffectCnt == CountBelow(pvaluesNoEffect, alphaLevel)
        invariant successEffectCnt == CountBelow(pvaluesEffect, alphaLevel)
        invariant failure.None? ==> position == start + 2 * i && RunTrials(proc, start, i, mde) == Completed(pvaluesNoEffect, pvaluesEffect)
        invariant failure.Some? ==> position > start && RunTrials(proc, start, n, mde) == Aborted(failure.value, position - 1)
      {
        var pNoEffect, pEffect;
        failure, pNoEffect, pEffect := Trial(testName, stattestFunc, start, i, pvaluesNoEffect, pvaluesEffect);
        if failure.Some? {
          TrialsAbortPersists(proc, start, i + 1, n, mde);
        } else {
          pvaluesNoEffect, successNoEffectCnt := Record(pvaluesNoEffect, successNoEffectCnt, pNoEffect);
          pvaluesEffect, successEffectCnt := Record(pvaluesEffect, successEffectCnt, pEffect);
        }
        i := i + 1;
      }
    }

    /** One iteration of that loop: the null pass, then the effect pass. */
    method Trial(ghost testName: string, stattestFunc: ContinuousTest, ghost start: nat, i: nat,
                 ghost aa: seq<real>, ghost ab: seq<real>)
      returns (failure: Option<Error>, pNoEffect: real, pEffect: real)
      requires Wired() && testName in stattestsFuncMap && stattestsFuncMap[testName] == stattestFunc
      requires position == start + 2 * i
      requires RunTrials(procedures[testName], start, i, mde) == Completed(aa, ab)
      modifies this`position
      ensures failure.Some? ==>
                position > old(position)
                && RunTrials(procedures[testName], start, i + 1, mde) == Aborted(failure.value, position - 1)
      ensures failure.None? ==>
                position == old(position) + 2
                && RunTrials(procedures[testName], start, i + 1, mde) == Completed(aa + [pNoEffect], ab + [pEffect])
    {
      ghost var proc := procedures[testName];
      var r := Invoke(testName, stattestFunc, 0.0);
      if r.Err? {
        TrialsNullFails(proc, start, i, i + 1, mde, aa, ab);
        return Some(r.error), 0.0, 0.0;
      }
      var r1 := Invoke(testName, stattestFunc, mde);
      if r1.Err? {
        TrialsEffectFails(proc, start, i, i + 1, mde, aa, ab);
        return Some(r1.error), 0.0, 0.0;
      }
      TrialsBothPass(proc, start, i, mde, aa, ab);
      return None, r.value, r1.value;
    }

    /** One pass's bookkeeping: the p-value is appended and counted when it is below
        `alpha_level`. */
    method Record(pvalues: seq<real>, cnt: nat, pValue: real) returns (pvalues': seq<real>, cnt': nat)
      requires cnt == CountBelow(pvalues, alphaLevel)
      ensures pvalues' == pvalues + [pValue] && cnt' == CountBelow(pvalues', alphaLevel)
    {
      CountBelowAppend(pvalues, pValue, alphaLevel);
      pvalues' := pvalues + [pValue];
      cnt' := cnt;
      if pValue < alphaLevel {
        cnt' := cnt + 1;
      }
    }

    /** The end of `simulate_test_by_name`: the rates, their intervals, and the record
        stored under `test_name` after deleting any older one. */
    method StoreRecord(testName: string, pvaluesNoEffect: seq<real>, pvaluesEffect: seq<real>,
                       successNoEffectCnt: nat, successEffectCnt: nat) returns (outcome: Outcome)
      requires successNoEffectCnt == CountBelow(pvaluesNoEffect, alphaLevel)
      requires successEffectCnt == CountBelow(pvaluesEffect, alphaLevel)
      modifies this`info
      ensures experimentsNum == 0 ==> outcome == Fail(ZeroExperiments) && info == old(info)
      ensures experimentsNum != 0 ==>
        outcome == Pass && info == OD.Put(old(info), testName, Aggregate(pvaluesNoEffect, pvaluesEffect, Config()).value)
    {
      if experimentsNum == 0 {
        return Fail(ZeroExperiments);
      }
      var alpha := successNoEffectCnt as real / experimentsNum as real;
      var estimatedPower := successEffectCnt as real / experimentsNum as real;
      var alphaCi := ci(alpha, experimentsNum, 0.05);
      var powerCi := ci(estimatedPower, experimentsNum, 0.05);

      var record := TestInfo(alpha, alphaCi, estimatedPower, powerCi, pvaluesNoEffect, pvaluesEffect);
      if testName in OD.KeySet(info) {
        info := OD.Remove(info, testName);
      } else {
        OD.RemoveAbsent(info, testName);
      }
      info := info + [(testName, record)];
      outcome := Pass;
    }

    /** `stattest_func(mde=...)`: one call of a registered method. */
    method Invoke(ghost testName: string, test: ContinuousTest, mde: real) returns (r: Result<real>)
      requires Wired() && testName in stattestsFuncMap && stattestsFuncMap[testName] == test
      modifies this`position
      ensures position == old(position) + 1
      ensures r == procedures[testName](old(position), mde)
    {
      match test {
        case Ttest => r := SimulateTtest(mde);
        case DiffTtest => r := SimulateDifferenceTtest(mde);
        case CupedTtest => r := SimulateCuped(mde);
        case Regression => r := SimulateReg(mde);
        case DidRegression => r := SimulateRegDid(mde);
        case AdditionalVarsRegression => r := SimulateRegAdd(mde);
      }
    }

    /** Both groups' positions for the call at the current generator position. */
    method Draw() returns (k: nat, controlIdx: seq<nat>, testIdx: seq<nat>)
      requires |variable| > 0 || sampleSize == 0
      modifies this`position
      ensures k == old(position) && position == old(position) + 1
      ensures controlIdx == DrawIndices(rng, k, Control, sampleSize, |variable|)
      ensures testIdx == DrawIndices(rng, k, Treatment, sampleSize, |variable|)
    {
      k := position;
      position := position + 1;
      controlIdx := DrawIndices(rng, k, Control, sampleSize, |variable|);
      testIdx := DrawIndices(rng, k, Treatment, sampleSize, |variable|);
    }

    /** The control sample and the shifted test sample, in fresh arrays. */
    method Samples(controlIdx: seq<nat>, testIdx: seq<nat>, mde: real) returns (control: array<real>, test: array<real>)
      requires InRange(controlIdx, |variable|) && InRange(testIdx, |variable|)
      ensures fresh(control) && fresh(test)
      ensures control[..] == GatherSeq(variable, controlIdx)
      ensures test[..] == Shifted(GatherSeq(variable, testIdx), mde)
    {
      control := Gather(variable, controlIdx);
      test := Gather(variable, testIdx);
      ShiftInPlace(test, mde);
    }

    /** `simulate_ttest`. */
    method SimulateTtest(mde: real) returns (r: Result<real>)
      modifies this`position
      ensures position == old(position) + 1
      ensures r == SimulateProcedure(Data(), rng, numerics, alternative, sampleSize, Ttest, old(position), mde)
    {
      if |variable| == 0 && sampleSize > 0 {
        position := position + 1;
        return Err(EmptyVariable);
      }
      var k, controlIdx, testIdx := Draw();
      var control, test := Samples(controlIdx, testIdx, mde);
      r := ST.TTest(control[..], test[..], alternative, numerics.t);
    }

    /** `simulate_reg`. */
    method SimulateReg(mde: real) returns (r: Result<real>)
      modifies this`position
      ensures position == old(position) + 1
      ensures r == SimulateProcedure(Data(), rng, numerics, alternative, sampleSize, Regression, old(position), mde)
    {
      if |variable| == 0 && sampleSize > 0 {
        position := position + 1;
        return Err(EmptyVariable);
      }
      var k, controlIdx, testIdx := Draw();
      var control, test := Samples(controlIdx, testIdx, mde);
      r := Ok(ST.RegressionTest(control[..], test[..], alternative, numerics.fit));
    }

    /** `simulate_difference_ttest`, as written: the test group's previous sample is
        read from `variable` and the samples go to `cuped_ttest`. */
    method SimulateDifferenceTtest(mde: real) returns (r: Result<real>)
      modifies this`position
      ensures position == old(position) + 1
      ensures r == SimulateProcedure(Data(), rng, numerics, alternative, sampleSize, DiffTtest, old(position), mde)
    {
      if |variable| == 0 && sampleSize > 0 {
        position := position + 1;
        return Err(EmptyVariable);
      }
      var k, controlIdx, testIdx := Draw();
      var control := Gather(variable, controlIdx);
      if previousValues.None? {
        return Err(MissingSeries("previous_values"));
      }
      if !InRange(controlIdx, |previousValues.value|) {
        return Err(KeyNotFound("previous_values"));
      }
      var controlPre := Gather(previousValues.value, controlIdx);
      var test := Gather(variable, testIdx);
      var testPre := Gather(variable, testIdx);
      ShiftInPlace(test, mde);
      r := ST.CupedTTest(control[..], controlPre[..], test[..], testPre[..], alternative, numerics);
    }

    /** `simulate_cuped`. */
    method SimulateCuped(mde: real) returns (r: Result<real>)
      modifies this`position
      ensures position == old(position) + 1
      ensures r == SimulateProcedure(Data(), rng, numerics, alternative, sampleSize, CupedTtest, old(position), mde)
    {
      if |variable| == 0 && sampleSize > 0 {
        position := position + 1;
        return Err(EmptyVariable);
      }
      var k, controlIdx, testIdx := Draw();
      var control := Gather(variable, controlIdx);
      if cupedCovariant.None? {
        return Err(MissingSeries("cuped_covariant"));
      }
      var covariant := cupedCovariant.value;
      if !InRange(controlIdx, |covariant|) || !InRange(testIdx, |covariant|) {
        return Err(KeyNotFound("cuped_covariant"));
      }
      var controlCov := Gather(covariant, controlIdx);
      var test := Gather(variable, testIdx);
      var testCov := Gather(covariant, testIdx);
      ShiftInPlace(test, mde);
      r := ST.CupedTTest(control[..], controlCov[..], test[..], testCov[..], alternative, numerics);
    }

    /** `simulate_reg_did`. */
    method SimulateRegDid(mde: real) returns (r: Result<real>)
      modifies this`position
      ensures position == old(position) + 1
      ensures r == SimulateProcedure(Data(), rng, numerics, alternative, sampleSize, DidRegression, old(position), mde)
    {
      if |variable| == 0 && sampleSize > 0 {
        position := position + 1;
        return Err(EmptyVariable);
      }
      var k, controlIdx, testIdx := Draw();
      var control := Gather(variable, controlIdx);
      if previousValues.None? {
        return Err(MissingSeries("previous_values"));
      }
      var previous := previousValues.value;
      if !InRange(controlIdx, |previous|) || !InRange(testIdx, |previous|) {
        return Err(KeyNotFound("previous_values"));
      }
      var controlPre := Gather(previous, controlIdx);
      var test := Gather(variable, testIdx);
      var testPre := Gather(previous, testIdx);
      ShiftInPlace(test, mde);
      r := Ok(ST.DidRegressionTest(control[..], controlPre[..], test[..], testPre[..], alternative, numerics.fit));
    }

    /** `simulate_reg_add`. */
    method SimulateRegAdd(mde: real) returns (r: Result<real>)
      modifies this`position
      ensures position == old(position) + 1
      ensures r == SimulateProcedure(Data(), rng, numerics, alternative, sampleSize, AdditionalVarsRegression, old(position), mde)
    {
      if |variable| == 0 && sampleSize > 0 {
        position := position + 1;
        return Err(EmptyVariable);
      }
      var k, controlIdx, testIdx := Draw();
      var control, test := Samples(controlIdx, testIdx, mde);
      if additionalVars.None? {
        return Err(MissingSeries("additional_vars"));
      }
      var controlVars := GatherAll(additionalVars.value, controlIdx);
      if controlVars.Err? {
        return Err(controlVars.error);
      }
      var testVars := GatherAll(additionalVars.value, testIdx);
      if testVars.Err? {
        return Err(testVars.error);
      }
      r := ST.AdditionalVarsRegressionTest(control[..], controlVars.value, test[..], testVars.value, alternative, numerics.fit);
    }
  }

  /** `[a.loc[positions] for a in additional_vars]`, one series at a time. */
  method GatherAll(vars: seq<ST.Series>, idx: seq<nat>) returns (r: Result<seq<ST.Series>>)
    ensures r == GatherVars(vars, idx)
  {
    var gathered: seq<ST.Series> := [];
    var j := 0;
    while j < |vars|
      invariant 0 <= j <= |vars|
      invariant forall i :: 0 <= i < j ==> InRange(idx, |vars[i].values|)
      invariant |gathered| == j
      invariant forall i :: 0 <= i < j ==> gathered[i] == ST.Series(vars[i].name, GatherSeq(vars[i].values, idx))
    {
      if !InRange(idx, |vars[j].values|) {
        return Err(KeyNotFound("additional_vars"));
      }
      var sample := Gather(vars[j].values, idx);
      gathered := gathered + [ST.Series(vars[j].name, sample[..])];
      j := j + 1;
    }
    r := Ok(gathered);
    assert gathered == GatherVars(vars, idx).value;
  }
}
