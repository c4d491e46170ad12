/** `BaseSimulationClass` of abtoolkit/utils.py: the Monte Carlo engine that the discrete
    simulator inherits. Each registered procedure is called twice per trial, first with
    no effect and then with `mde`; the p-values and hit counters become one record of
    `info`. */
module Engine {
  import opened Common
  import opened EngineSpec
  import OD = OrderedDict

  class BaseSimulation {
    const alternative: string
    const stattestsList: seq<string>
    const sampleSize: nat
    const experimentsNum: int
    const mde: real
    const alphaLevel: real
    const power: real
    /** `estimate_ci_binomial`, imported from abtoolkit/discrete/utils.py. */
    const ci: CiEstimator

    /** Results per test name, in insertion order. */
    var info: Info
    /** The registry; empty here, filled in by the subclass. */
    var stattestsFuncMap: map<string, Procedure>
    /** Position of the global random generator, counted in procedure calls. */
    var position: nat

    function Config(): Settings
    {
      Settings(experimentsNum, mde, alphaLevel, ci)
    }

    function State(): EngineState
      reads this`info, this`position
    {
      EngineState(info, position)
    }

    constructor (alternative: string, stattestsList: seq<string>, sampleSize: nat, experimentsNum: int,
                 mde: real, alphaLevel: real := 0.05, power: real := 0.8, ci: CiEstimator, position: nat)
      ensures this.alternative == alternative && this.stattestsList == stattestsList
      ensures this.sampleSize == sampleSize && this.experimentsNum == experimentsNum
      ensures this.mde == mde && this.alphaLevel == alphaLevel && this.power == power && this.ci == ci
      ensures info == [] && stattestsFuncMap == map[] && this.position == position
    {
      this.sampleSize := sampleSize;
      this.alternative := alternative;
      this.mde := mde;
      this.power := power;
      this.alphaLevel := alphaLevel;
      this.stattestsList := stattestsList;
      this.experimentsNum := experimentsNum;
      this.ci := ci;
      this.info := [];
      this.stattestsFuncMap := map[];
      this.position := position;
    }

    /** `run()`: resets `info`, simulates every listed test in order and returns `info`;
        the first exception ends the run. */
    method Run() returns (r: Result<Info>)
      modifies this`info, this`position
      ensures var (o, s) := EngineSpec.Run(stattestsFuncMap, old(position), stattestsList, Config());
        && State() == s
        && (o.Pass? ==> r == Ok(info))
        && (o.Fail? ==> r == Err(o.error))
    {
      info := [];
      var j := 0;
      while j < |stattestsList|
        invariant 0 <= j <= |stattestsList|
        invariant EngineSpec.Run(stattestsFuncMap, old(position), stattestsList, Config())
               == RunAll(stattestsFuncMap, State(), stattestsList[j..], Config())
      {
        assert stattestsList[j..] == [stattestsList[j]] + stattestsList[j + 1..];
        var o := SimulateTestByName(stattestsList[j]);
        if o.Fail? {
          return Err(o.error);
        }
        j := j + 1;
      }
      return Ok(info);
    }

    /** `simulate_test_by_name(test_name)`. */
    method SimulateTestByName(testName: string) returns (outcome: Outcome)
      modifies this`info, this`position
      ensures (outcome, State()) == Step(stattestsFuncMap, old(State()), testName, Config())
    {
      if testName !in stattestsFuncMap {
        return Fail(UnknownTestName(testName));
      }
      var stattestFunc := stattestsFuncMap[testName];
      var failure, pvaluesNoEffect, pvaluesEffect, successNoEffectCnt, successEffectCnt := Trials(stattestFunc);
      if failure.Some? {
        return Fail(failure.value);
      }
      outcome := StoreRecord(testName, pvaluesNoEffect, pvaluesEffect, successNoEffectCnt, successEffectCnt);
    }

    /** The loop of `simulate_test_by_name`: per trial a null pass and an effect pass,
        their p-values collected and the hits below `alpha_level` counted; the first
        exception ends it. */
    method Trials(stattestFunc: Procedure)
      returns (failure: Option<Error>, pvaluesNoEffect: seq<real>, pvaluesEffect: seq<real>,
               successNoEffectCnt: nat, successEffectCnt: nat)
      modifies this`position
      ensures failure.Some? ==>
                position > old(position)
                && RunTrials(stattestFunc, old(position), Iterations(experimentsNum), mde) == Aborted(failure.value, position - 1)
      ensures failure.None? ==>
                position == old(position) + 2 * Iterations(experimentsNum)
                && RunTrials(stattestFunc, old(position), Iterations(experimentsNum), mde) == Completed(pvaluesNoEffect, pvaluesEffect)
      ensures successNoEffectCnt == CountBelow(pvaluesNoEffect, alphaLevel)
      ensures successEffectCnt == CountBelow(pvaluesEffect, alphaLevel)
    {
      successNoEffectCnt, pvaluesNoEffect, successEffectCnt, pvaluesEffect := 0, [], 0, [];
      failure := None;
      ghost var start := position;
      ghost var n := Iterations(experimentsNum);
      var i := 0;
      while i < experimentsNum && failure.None?
        invariant 0 <= i <= n
        invariant successNoEffectCnt == CountBelow(pvaluesNoEffect, alphaLevel)
        invariant successEffectCnt == CountBelow(pvaluesEffect, alphaLevel)
        invariant failure.None? ==> position == start + 2 * i && RunTrials(stattestFunc, start, i, mde) == Completed(pvaluesNoEffect, pvaluesEffect)
        invariant failure.Some? ==> position > start && RunTrials(stattestFunc, start, n, mde) == Aborted(failure.value, position - 1)
      {
        var pNoEffect, pEffect;
        failure, pNoEffect, pEffect := Trial(stattestFunc, start, i, pvaluesNoEffect, pvaluesEffect);
        if failure.Some? {
          TrialsAbortPersists(stattestFunc, start, i + 1, n, mde);
        } else {
          pvaluesNoEffect, successNoEffectCnt := Record(pvaluesNoEffect, successNoEffectCnt, pNoEffect);
          pvaluesEffect, successEffectCnt := Record(pvaluesEffect, successEffectCnt, pEffect);
        }
        i := i + 1;
      }
    }

    /** One iteration of that loop: the null pass, then the effect pass. */
    method Trial(stattestFunc: Procedure, ghost start: nat, i: nat, ghost aa: seq<real>, ghost ab: seq<real>)
      returns (failure: Option<Error>, pNoEffect: real, pEffect: real)
      requires position == start + 2 * i
      requires RunTrials(stattestFunc, start, i, mde) == Completed(aa, ab)
      modifies this`position
      ensures failure.Some? ==>
                position > old(position)
                && RunTrials(stattestFunc, start, i + 1, mde) == Aborted(failure.value, position - 1)
      ensures failure.None? ==>
                position == old(position) + 2
                && RunTrials(stattestFunc, start, i + 1, mde) == Completed(aa + [pNoEffect], ab + [pEffect])
    {
      var r := stattestFunc(position, 0.0);
      position := position + 1;
      if r.Err? {
        TrialsNullFails(stattestFunc, start, i, i + 1, mde, aa, ab);
        return Some(r.error), 0.0, 0.0;
      }
      var r1 := stattestFunc(position, mde);
      position := position + 1;
      if r1.Err? {
        TrialsEffectFails(stattestFunc, start, i, i + 1, mde, aa, ab);
        return Some(r1.error), 0.0, 0.0;
      }
      TrialsBothPass(stattestFunc, start, i, mde, aa, ab);
      return None, r.value, r1.value;
    }

    /** One pass's bookkeeping: the p-value is appended and counted when it is below
        `alpha_level`. */
    method Record(pvalues: seq<real>, cnt: nat, pValue: real) returns (pvalues': seq<real>, cnt': nat)
      requires cnt == CountBelow(pvalues, alphaLevel)
      ensures pvalues' == pvalues + [pValue] && cnt' == CountBelow(pvalues', alphaLevel)
    {
      CountBelowAppend(pvalues, pValue, alphaLevel);
      pvalues' := pvalues + [pValue];
      cnt' := cnt;
      if pValue < alphaLevel {
        cnt' := cnt + 1;
      }
    }

    /** The end of `simulate_test_by_name`: the rates, their intervals at the fixed
        level, and the record stored under `test_name` after deleting any older one. */
    method StoreRecord(testName: string, pvaluesNoEffect: seq<real>, pvaluesEffect: seq<real>,
                       successNoEffectCnt: nat, successEffectCnt: nat) returns (outcome: Outcome)
      requires successNoEffectCnt == CountBelow(pvaluesNoEffect, alphaLevel)
      requires successEffectCnt == CountBelow(pvaluesEffect, alphaLevel)
      modifies this`info
      ensures experimentsNum == 0 ==> outcome == Fail(ZeroExperiments) && info == old(info)
      ensures experimentsNum != 0 ==>
        outcome == Pass && info == OD.Put(old(info), testName, Aggregate(pvaluesNoEffect, pvaluesEffect, Config()).value)
    {
      if experimentsNum == 0 {
        return Fail(ZeroExperiments);
      }
      var alpha := successNoEffectCnt as real / experimentsNum as real;
      var estimatedPower := successEffectCnt as real / experimentsNum as real;
      var alphaCi := ci(alpha, experimentsNum, 0.05);
      var powerCi := ci(estimatedPower, experimentsNum, 0.05);

      var record := TestInfo(alpha, alphaCi, estimatedPower, powerCi, pvaluesNoEffect, pvaluesEffect);
      if testName in OD.KeySet(info) {
        info := OD.Remove(info, testName);
      } else {
        OD.RemoveAbsent(info, testName);
      }
      info := info + [(testName, record)];
      outcome := Pass;
    }
  }
}
