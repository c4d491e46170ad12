/** What `simulate_test_by_name` and `run` compute, as functions of the registered
    procedures, the stored results and the position of the random generator.
    Both copies of the engine (abtoolkit/utils.py and abtoolkit/continuous/simulation.py)
    are proved against these definitions. */
module EngineSpec {
  import opened Common
  import OD = OrderedDict

  /** One call `stattest_func(mde)` of a registered procedure. The first argument is the
      position of the global random generator: the number of procedure calls made before
      this one. The result is a p-value, or the exception the call raised. */
  type Procedure = (nat, real) -> Result<real>

  /** `estimate_ci_binomial(p, sample_size, alpha)`: an external collaborator. */
  type CiEstimator = (real, int, real) -> (real, real)

  /** The level at which both confidence intervals are computed, whatever `alpha_level` is. */
  const CiLevel: real := 0.05

  /** The configuration the engine reads from `self`. */
  datatype Settings = Settings(experimentsNum: int, mde: real, alphaLevel: real, ci: CiEstimator)

  /** The record stored in `self.info[test_name]`. */
  datatype TestInfo = TestInfo(
    alpha: real, alphaCi: (real, real),
    power: real, powerCi: (real, real),
    aaPvalues: seq<real>, abPvalues: seq<real>)

  type Info = OD.Dict<TestInfo>

  /** The mutable part of a simulator: `self.info` and the random generator. */
  datatype EngineState = EngineState(info: Info, position: nat)

  /** How many times `for _ in range(experiments_num)` iterates. */
  function Iterations(experimentsNum: int): (r: nat)
    ensures experimentsNum > 0 ==> r == experimentsNum
    ensures experimentsNum <= 0 ==> r == 0
  {
    if experimentsNum > 0 then experimentsNum else 0
  }

  /** Generator position of the null pass (mde = 0) of trial `i`. */
  function NullCall(start: nat, i: nat): nat { start + 2 * i }

  /** Generator position of the effect pass (mde = self.mde) of trial `i`. */
  function EffectCall(start: nat, i: nat): nat { start + 2 * i + 1 }

  /** The `j`-th call of the loop: even calls are null passes, odd calls effect passes. */
  function Call(proc: Procedure, start: nat, mde: real, j: nat): Result<real>
  {
    proc(start + j, if j % 2 == 0 then 0.0 else mde)
  }

  /** The outcome of the trial loop: both p-value lists, or the error raised by the
      first failing call and that call's generator position. */
  datatype Trials = Completed(aaPvalues: seq<real>, abPvalues: seq<real>) | Aborted(error: Error, failedCall: nat)

  /** The first `trials` iterations of the loop, each a null pass then an effect pass. */
  function RunTrials(proc: Procedure, start: nat, trials: nat, mde: real): (t: Trials)
    ensures t.Completed? ==> |t.aaPvalues| == trials && |t.abPvalues| == trials
    ensures t.Aborted? ==> start <= t.failedCall < start + 2 * trials
  {
    if trials == 0 then Completed([], [])
    else
      match RunTrials(proc, start, trials - 1, mde)
      case Aborted(e, at) => Aborted(e, at)
      case Completed(aa, ab) =>
        var i := trials - 1;
        match proc(NullCall(start, i), 0.0)
        case Err(e) => Aborted(e, NullCall(start, i))
        case Ok(p0) =>
          match proc(EffectCall(start, i), mde)
          case Err(e) => Aborted(e, EffectCall(start, i))
          case Ok(p1) => Completed(aa + [p0], ab + [p1])
  }

  /** Number of p-values strictly below `alphaLevel`: the loop's success counter. */
  function CountBelow(ps: seq<real>, alphaLevel: real): (c: nat)
    ensures c <= |ps|
  {
    if ps == [] then 0
    else CountBelow(ps[..|ps| - 1], alphaLevel) + (if ps[|ps| - 1] < alphaLevel then 1 else 0)
  }

  /** Indices of the p-values that count as a success. */
  function BelowIndices(ps: seq<real>, alphaLevel: real): set<nat>
  {
    set i: nat | i < |ps| && ps[i] < alphaLevel
  }

  /** The counters divided by `experiments_num`, and both intervals at the fixed level. */
  function Aggregate(aa: seq<real>, ab: seq<real>, cfg: Settings): (r: Result<TestInfo>)
    ensures r.Err? <==> cfg.experimentsNum == 0
    ensures r.Err? ==> r.error == ZeroExperiments
    ensures r.Ok? ==> r.value.aaPvalues == aa && r.value.abPvalues == ab
  {
    if cfg.experimentsNum == 0 then Err(ZeroExperiments)
    else
      var alpha := CountBelow(aa, cfg.alphaLevel) as real / cfg.experimentsNum as real;
      var power := CountBelow(ab, cfg.alphaLevel) as real / cfg.experimentsNum as real;
      Ok(TestInfo(alpha, cfg.ci(alpha, cfg.experimentsNum, CiLevel),
                  power, cfg.ci(power, cfg.experimentsNum, CiLevel), aa, ab))
  }

  /** `simulate_test_by_name(name)`: the outcome and the new state. An unknown name fails
      before any call; a failure keeps the stored results; a success stores under `name`
      after two generator calls per trial. */
  function Step(procs: map<string, Procedure>, s: EngineState, name: string, cfg: Settings): (r: (Outcome, EngineState))
    ensures name !in procs ==> r == (Fail(UnknownTestName(name)), s)
    ensures r.0.Fail? ==> r.1.info == s.info && r.1.position >= s.position
    ensures r.0 == Pass ==>
              && name in procs && cfg.experimentsNum != 0
              && r.1.position == s.position + 2 * Iterations(cfg.experimentsNum)
              && |r.1.info| > 0 && r.1.info[|r.1.info| - 1].0 == name
  {
    if name !in procs then (Fail(UnknownTestName(name)), s)
    else
      var n := Iterations(cfg.experimentsNum);
      match RunTrials(procs[name], s.position, n, cfg.mde)
      case Aborted(e, at) => (Fail(e), EngineState(s.info, at + 1))
      case Completed(aa, ab) =>
        var position := s.position + 2 * n;
        match Aggregate(aa, ab, cfg)
        case Err(e) => (Fail(e), EngineState(s.info, position))
        case Ok(rec) => (Pass, EngineState(OD.Put(s.info, name, rec), position))
  }

  /** The loop of `run` over `names`, from state `s`; it stops at the first exception. */
  function RunAll(procs: map<string, Procedure>, s: EngineState, names: seq<string>, cfg: Settings): (r: (Outcome, EngineState))
    ensures r.1.position >= s.position
    ensures r.0 == Pass ==> forall x :: x in names ==> x in procs
    decreases |names|
  {
    if names == [] then (Pass, s)
    else
      var (o, s') := Step(procs, s, names[0], cfg);
      if o.Fail? then (o, s') else RunAll(procs, s', names[1..], cfg)
  }

  /** `run()`: `self.info` is reset, then every listed name is simulated in order. */
  function Run(procs: map<string, Procedure>, position: nat, names: seq<string>, cfg: Settings): (r: (Outcome, EngineState))
    ensures names == [] ==> r == (Pass, EngineState([], position))
    ensures r.1.position >= position
    ensures r.0 == Pass ==> forall x :: x in names ==> x in procs
  {
    RunAll(procs, EngineState([], position), names, cfg)
  }

  /** A stored record as `simulate_test_by_name` promises it: `n` p-values per pass,
      rates that are the strict hit counts over `experiments_num`, inside [0, 1],
      and intervals at the fixed level 0.05. */
  ghost predicate WellFormedRecord(rec: TestInfo, cfg: Settings)
  {
    && |rec.aaPvalues| == Iterations(cfg.experimentsNum)
    && |rec.abPvalues| == Iterations(cfg.experimentsNum)
    && cfg.experimentsNum != 0
    && rec.alpha == CountBelow(rec.aaPvalues, cfg.alphaLevel) as real / cfg.experimentsNum as real
    && rec.power == CountBelow(rec.abPvalues, cfg.alphaLevel) as real / cfg.experimentsNum as real
    && 0.0 <= rec.alpha <= 1.0
    && 0.0 <= rec.power <= 1.0
    && rec.alphaCi == cfg.ci(rec.alpha, cfg.experimentsNum, CiLevel)
    && rec.powerCi == cfg.ci(rec.power, cfg.experimentsNum, CiLevel)
  }

  // ---------------------------------------------------------------------------
  // The trial loop

  /** The loop completes exactly when no call of its `2 * trials` raises. */
  lemma {:induction false} TrialsCompletedIff(proc: Procedure, start: nat, trials: nat, mde: real)
    ensures RunTrials(proc, start, trials, mde).Completed?
        <==> forall i :: 0 <= i < trials ==>
               proc(NullCall(start, i), 0.0).Ok? && proc(EffectCall(start, i), mde).Ok?
  {
    if trials > 0 {
      TrialsCompletedIff(proc, start, trials - 1, mde);
    }
  }

  /** A completed loop holds one p-value per trial and pass, in call order:
      entry `i` of the null list is the null pass of trial `i`, called with mde = 0. */
  lemma {:induction false} TrialsContents(proc: Procedure, start: nat, trials: nat, mde: real)
    requires RunTrials(proc, start, trials, mde).Completed?
    ensures var t := RunTrials(proc, start, trials, mde);
      && |t.aaPvalues| == trials && |t.abPvalues| == trials
      && forall i :: 0 <= i < trials ==>
           && proc(NullCall(start, i), 0.0) == Ok(t.aaPvalues[i])
           && proc(EffectCall(start, i), mde) == Ok(t.abPvalues[i])
  {
    if trials > 0 {
      TrialsContents(proc, start, trials - 1, mde);
    }
  }

  /** An aborted loop reports the first call, in call order, that raised: every
      earlier call succeeded, and within a trial the null pass comes first. */
  lemma {:induction false} TrialsAborted(proc: Procedure, start: nat, trials: nat, mde: real)
    requires RunTrials(proc, start, trials, mde).Aborted?
    ensures var t := RunTrials(proc, start, trials, mde);
      && start <= t.failedCall < start + 2 * trials
      && Call(proc, start, mde, t.failedCall - start) == Err(t.error)
      && forall j :: 0 <= j < t.failedCall - start ==> Call(proc, start, mde, j).Ok?
  {
    var i := trials - 1;
    var prev := RunTrials(proc, start, i, mde);
    if prev.Aborted? {
      TrialsAborted(proc, start, i, mde);
    } else {
      TrialsCompletedIff(proc, start, i, mde);
      forall j | 0 <= j < 2 * i ensures Call(proc, start, mde, j).Ok? {
        var t := j / 2;
        if j % 2 == 0 {
          assert start + j == NullCall(start, t);
        } else {
          assert start + j == EffectCall(start, t);
        }
      }
      assert Call(proc, start, mde, 2 * i) == proc(NullCall(start, i), 0.0);
      assert Call(proc, start, mde, 2 * i + 1) == proc(EffectCall(start, i), mde);
    }
  }

  /** Once the loop has raised, later iterations do not run. */
  lemma {:induction false} TrialsAbortPersists(proc: Procedure, start: nat, k: nat, trials: nat, mde: real)
    requires k <= trials && RunTrials(proc, start, k, mde).Aborted?
    ensures RunTrials(proc, start, trials, mde) == RunTrials(proc, start, k, mde)
    decreases trials
  {
    if trials > k {
      TrialsAbortPersists(proc, start, k, trials - 1, mde);
    }
  }

  // ---------------------------------------------------------------------------
  // Counting and rates

  /** The counter is the number of indices whose p-value is strictly below the level. */
  lemma {:induction false} CountBelowCardinality(ps: seq<real>, alphaLevel: real)
    ensures CountBelow(ps, alphaLevel) == |BelowIndices(ps, alphaLevel)|
  {
    if ps != [] {
      var q := ps[..|ps| - 1];
      CountBelowCardinality(q, alphaLevel);
      var last := |ps| - 1;
      if ps[last] < alphaLevel {
        assert BelowIndices(ps, alphaLevel) == BelowIndices(q, alphaLevel) + {last};
        assert last !in BelowIndices(q, alphaLevel);
      } else {
        assert BelowIndices(ps, alphaLevel) == BelowIndices(q, alphaLevel);
      }
    }
  }

  /** Appending one p-value adds one to the counter exactly when it is a hit. */
  lemma CountBelowAppend(ps: seq<real>, p: real, alphaLevel: real)
    ensures CountBelow(ps + [p], alphaLevel) == CountBelow(ps, alphaLevel) + (if p < alphaLevel then 1 else 0)
  {
    assert (ps + [p])[..|ps|] == ps;
  }

  /** A count of at most `n` successes out of `n > 0` trials is a rate in [0, 1]. */
  lemma RateInUnitInterval(count: nat, n: int)
    requires n > 0 && count <= n
    ensures 0.0 <= count as real / n as real <= 1.0
  {
    assert count as real <= n as real;
    assert count as real / n as real <= n as real / n as real;
  }

  /** Aggregation succeeds exactly when `experiments_num != 0`, and then yields a
      well-formed record over the given lists. */
  lemma AggregateWellFormed(aa: seq<real>, ab: seq<real>, cfg: Settings)
    requires |aa| == Iterations(cfg.experimentsNum) && |ab| == Iterations(cfg.experimentsNum)
    ensures Aggregate(aa, ab, cfg).Ok? <==> cfg.experimentsNum != 0
    ensures Aggregate(aa, ab, cfg).Ok? ==>
      var rec := Aggregate(aa, ab, cfg).value;
      WellFormedRecord(rec, cfg) && rec.aaPvalues == aa && rec.abPvalues == ab
  {
    var n := cfg.experimentsNum;
    if n > 0 {
      RateInUnitInterval(CountBelow(aa, cfg.alphaLevel), n);
      RateInUnitInterval(CountBelow(ab, cfg.alphaLevel), n);
    } else if n < 0 {
      assert aa == [] && ab == [];
    }
  }

  // ---------------------------------------------------------------------------
  // One simulation: `simulate_test_by_name`

  /** A trial whose null pass raises ends the whole loop with that error. */
  lemma TrialsNullFails(proc: Procedure, start: nat, i: nat, trials: nat, mde: real, aa: seq<real>, ab: seq<real>)
    requires i < trials && RunTrials(proc, start, i, mde) == Completed(aa, ab)
    requires proc(NullCall(start, i), 0.0).Err?
    ensures RunTrials(proc, start, trials, mde) == Aborted(proc(NullCall(start, i), 0.0).error, NullCall(start, i))
  {
    TrialsAbortPersists(proc, start, i + 1, trials, mde);
  }

  /** A trial whose effect pass raises ends the whole loop with that error. */
  lemma TrialsEffectFails(proc: Procedure, start: nat, i: nat, trials: nat, mde: real, aa: seq<real>, ab: seq<real>)
    requires i < trials && RunTrials(proc, start, i, mde) == Completed(aa, ab)
    requires proc(NullCall(start, i), 0.0).Ok? && proc(EffectCall(start, i), mde).Err?
    ensures RunTrials(proc, start, trials, mde) == Aborted(proc(EffectCall(start, i), mde).error, EffectCall(start, i))
  {
    TrialsAbortPersists(proc, start, i + 1, trials, mde);
  }

  /** A trial whose two passes return appends one p-value to each list. */
  lemma TrialsBothPass(proc: Procedure, start: nat, i: nat, mde: real, aa: seq<real>, ab: seq<real>)
    requires RunTrials(proc, start, i, mde) == Completed(aa, ab)
    requires proc(NullCall(start, i), 0.0).Ok? && proc(EffectCall(start, i), mde).Ok?
    ensures RunTrials(proc, start, i + 1, mde)
         == Completed(aa + [proc(NullCall(start, i), 0.0).value], ab + [proc(EffectCall(start, i), mde).value])
  {
  }

  /** A successful simulation replaces the record under `name` by a well-formed record
      whose lists are the results of the calls in order, moves it to the end, and
      advances the generator by two calls per trial. */
  lemma StepPass(procs: map<string, Procedure>, s: EngineState, name: string, cfg: Settings)
    requires Step(procs, s, name, cfg).0 == Pass
    ensures name in procs && cfg.experimentsNum != 0
    ensures var n := Iterations(cfg.experimentsNum);
      var s' := Step(procs, s, name, cfg).1;
      && s'.position == s.position + 2 * n
      && |s'.info| > 0
      && s'.info == OD.Put(s.info, name, s'.info[|s'.info| - 1].1)
      && s'.info[|s'.info| - 1].0 == name
      && var rec := s'.info[|s'.info| - 1].1;
         && WellFormedRecord(rec, cfg)
         && forall i :: 0 <= i < n ==>
              && procs[name](NullCall(s.position, i), 0.0) == Ok(rec.aaPvalues[i])
              && procs[name](EffectCall(s.position, i), cfg.mde) == Ok(rec.abPvalues[i])
  {
    var n := Iterations(cfg.experimentsNum);
    var t := RunTrials(procs[name], s.position, n, cfg.mde);
    TrialsContents(procs[name], s.position, n, cfg.mde);
    AggregateWellFormed(t.aaPvalues, t.abPvalues, cfg);
  }

  /** A simulation succeeds exactly when the name is registered, `experiments_num != 0`
      and none of the calls of the loop raises. */
  lemma StepPassIff(procs: map<string, Procedure>, s: EngineState, name: string, cfg: Settings)
    ensures Step(procs, s, name, cfg).0 == Pass
        <==> && name in procs
             && cfg.experimentsNum != 0
             && forall i :: 0 <= i < Iterations(cfg.experimentsNum) ==>
                  procs[name](NullCall(s.position, i), 0.0).Ok?
                  && procs[name](EffectCall(s.position, i), cfg.mde).Ok?
  {
    if name in procs {
      var n := Iterations(cfg.experimentsNum);
      TrialsCompletedIff(procs[name], s.position, n, cfg.mde);
      if RunTrials(procs[name], s.position, n, cfg.mde).Completed? {
        TrialsContents(procs[name], s.position, n, cfg.mde);
        var t := RunTrials(procs[name], s.position, n, cfg.mde);
        AggregateWellFormed(t.aaPvalues, t.abPvalues, cfg);
      }
    }
  }

  /** A procedure whose null pass always raises can never be simulated successfully
      when at least one trial runs. */
  lemma StepAlwaysRaising(procs: map<string, Procedure>, s: EngineState, name: string, cfg: Settings)
    requires name in procs && cfg.experimentsNum > 0
    requires forall k: nat :: procs[name](k, 0.0).Err?
    ensures Step(procs, s, name, cfg).0.Fail?
  {
    StepPassIff(procs, s, name, cfg);
    assert !procs[name](NullCall(s.position, 0), 0.0).Ok?;
  }

  // ---------------------------------------------------------------------------
  // The whole run

  /** Every record stored in `info` is well formed and the keys are distinct. */
  ghost predicate GoodInfo(info: Info, cfg: Settings)
  {
    && OD.DistinctKeys(info)
    && forall i :: 0 <= i < |info| ==> WellFormedRecord(info[i].1, cfg)
  }

  /** The distinct names of a list, as Python's `set(names)`. */
  function NameSet(names: seq<string>): set<string>
  {
    set x | x in names
  }

  /** One successful simulation keeps `info` good and adds `name` to its keys. */
  lemma StepGood(procs: map<string, Procedure>, s: EngineState, name: string, cfg: Settings)
    requires GoodInfo(s.info, cfg)
    requires Step(procs, s, name, cfg).0 == Pass
    ensures name in procs
    ensures var s' := Step(procs, s, name, cfg).1;
      GoodInfo(s'.info, cfg) && OD.KeySet(s'.info) == OD.KeySet(s.info) + {name}
  {
    var s1 := Step(procs, s, name, cfg).1;
    StepPass(procs, s, name, cfg);
    var rec := s1.info[|s1.info| - 1].1;
    OD.PutDistinct(s.info, name, rec);
    OD.PutKeySet(s.info, name, rec);
    var r := OD.Remove(s.info, name);
    forall i | 0 <= i < |s1.info| ensures WellFormedRecord(s1.info[i].1, cfg) {
      if i < |r| {
        assert s1.info[i] == r[i];
        assert r[i] in s.info;
      }
    }
  }

  lemma RunAllCons(procs: map<string, Procedure>, s: EngineState, names: seq<string>, cfg: Settings)
    requires names != [] && RunAll(procs, s, names, cfg).0 == Pass
    ensures Step(procs, s, names[0], cfg).0 == Pass
    ensures RunAll(procs, s, names, cfg) == RunAll(procs, Step(procs, s, names[0], cfg).1, names[1..], cfg)
  {
  }

  lemma {:induction false} RunAllGood(procs: map<string, Procedure>, s: EngineState, names: seq<string>, cfg: Settings)
    requires GoodInfo(s.info, cfg)
    requires RunAll(procs, s, names, cfg).0 == Pass
    ensures var s' := RunAll(procs, s, names, cfg).1;
      && GoodInfo(s'.info, cfg)
      && OD.KeySet(s'.info) == OD.KeySet(s.info) + NameSet(names)
      && NameSet(names) <= procs.Keys
    decreases |names|
  {
    if names != [] {
      var s1 := Step(procs, s, names[0], cfg).1;
      RunAllCons(procs, s, names, cfg);
      StepGood(procs, s, names[0], cfg);
      RunAllGood(procs, s1, names[1..], cfg);
      NameSetCons(names);
      var s2 := RunAll(procs, s1, names[1..], cfg).1;
      assert RunAll(procs, s, names, cfg).1 == s2;
      assert OD.KeySet(s2.info) == OD.KeySet(s.info) + NameSet(names) by {
        assert OD.KeySet(s2.info) == (OD.KeySet(s.info) + {names[0]}) + NameSet(names[1..]);
      }
    }
  }

  /** The names of a non-empty list are its head and the names of its tail. */
  lemma NameSetCons(names: seq<string>)
    requires names != []
    ensures NameSet(names) == {names[0]} + NameSet(names[1..])
  {
    assert names == [names[0]] + names[1..];
  }

  /** After a successful `run`, `info` holds exactly one well-formed record per
      distinct listed name, and every listed name was registered. */
  lemma RunResult(procs: map<string, Procedure>, position: nat, names: seq<string>, cfg: Settings)
    requires Run(procs, position, names, cfg).0 == Pass
    ensures var info := Run(procs, position, names, cfg).1.info;
      && GoodInfo(info, cfg)
      && OD.KeySet(info) == NameSet(names)
      && NameSet(names) <= procs.Keys
  {
    RunAllGood(procs, EngineState([], position), names, cfg);
  }

  /** A listed name that is not registered makes `run` fail, after the names before it. */
  lemma {:induction false} RunUnknownNameFails(procs: map<string, Procedure>, s: EngineState, names: seq<string>, cfg: Settings, j: nat)
    requires j < |names| && names[j] !in procs
    ensures RunAll(procs, s, names, cfg).0.Fail?
    decreases j
  {
    var (o, s1) := Step(procs, s, names[0], cfg);
    if j > 0 && o.Pass? {
      RunUnknownNameFails(procs, s1, names[1..], cfg, j - 1);
    }
  }
}
