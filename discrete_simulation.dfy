/** `StatTestsSimulation` of abtoolkit/discrete/simulation.py: the engine of
    abtoolkit/utils.py with a two-entry registry whose procedures draw conversion counts
    from binomial distributions and pass them to a test of abtoolkit/discrete/stattests.py. */
module DiscreteSimulation {
  import opened Common
  import opened Resampling
  import opened EngineSpec
  import Engine

  /** The two registered procedures. */
  datatype DiscreteTest = ConversionZtest | BayesianTest

  /** `stattests_func_map`: exactly two names. */
  function Registry(): (r: map<string, DiscreteTest>)
    ensures r.Keys == {"conversion_ztest", "bayesian_test"}
    ensures r["conversion_ztest"] == ConversionZtest && r["bayesian_test"] == BayesianTest
  {
    map["conversion_ztest" := ConversionZtest, "bayesian_test" := BayesianTest]
  }

  /** The numerics of abtoolkit/discrete/stattests.py: the normal-distribution p-value of
      `conversion_ztest` for counts, sizes and a side, and the beta-distribution
      probability that `bayesian_test` computes from its four counts. */
  datatype Numerics = Numerics(
    ztest: (nat, nat, nat, nat, Side) -> Probability,
    bayes: (int, int, int, int) -> Probability)

  /** What the simulator reads when it simulates: the base rate, the group size, the
      alternative and the prior counts. */
  datatype Conversion = Conversion(
    p: real,
    sampleSize: nat,
    alternative: string,
    priorPositives: int,
    priorNegatives: int)

  /** `count / objects_num`: Python's true division, which raises on a zero divisor. */
  function BaseRate(count: int, objectsNum: int): (r: Result<real>)
    ensures r.Err? <==> objectsNum == 0
    ensures r.Err? ==> r.error == ZeroObjects
    ensures r.Ok? ==> r.value * objectsNum as real == count as real
  {
    if objectsNum == 0 then Err(ZeroObjects) else Ok(count as real / objectsNum as real)
  }

  /** `np.random.binomial(n, p)` for group `g` in call `k`: numpy refuses a probability
      outside [0, 1]; a draw counts successes among `n` trials. */
  function BinomialDraw(rng: Rng, k: nat, g: Group, n: nat, p: real): (r: Result<nat>)
    ensures r.Err? <==> !(0.0 <= p <= 1.0)
    ensures r.Err? ==> r.error == InvalidProbability(p)
    ensures r.Ok? ==> r.value <= n
  {
    if !(0.0 <= p <= 1.0) then Err(InvalidProbability(p))
    else Ok(rng.binomial(k, g, n, p) % (n + 1))
  }

  /** `conversion_ztest(control_count, control_objects_num, test_count, test_objects_num,
      alternative)`: forming the statistic divides by each group's number of objects, a
      Python integer, which raises when it is zero; the alternative is checked after the
      statistic is formed, and an unknown one raises. */
  function ConversionZtestCall(controlCount: nat, controlObjectsNum: nat, testCount: nat, testObjectsNum: nat,
                               alternative: string, z: (nat, nat, nat, nat, Side) -> Probability): (r: Result<real>)
    ensures r.Err? <==> controlObjectsNum == 0 || testObjectsNum == 0 || ParseSide(alternative).None?
    ensures controlObjectsNum == 0 || testObjectsNum == 0 ==> r == Err(EmptyGroup)
    ensures controlObjectsNum > 0 && testObjectsNum > 0 && ParseSide(alternative).None?
        ==> r == Err(UnknownAlternative(alternative))
    ensures r.Ok? ==> 0.0 <= r.value <= 1.0
  {
    if controlObjectsNum == 0 || testObjectsNum == 0 then Err(EmptyGroup)
    else
      match ParseSide(alternative)
      case None => Err(UnknownAlternative(alternative))
      case Some(side) => Ok(z(controlCount, controlObjectsNum, testCount, testObjectsNum, side))
  }

  /** A positional argument of a Python call. */
  datatype Argument = Int(i: int) | Str(s: string)

  /** `bayesian_test(...)` called with positional arguments: the function declares four
      parameters, so any other number raises before its body runs; its body adds one to
      the counts, which a string cannot take. */
  function CallBayesianTest(args: seq<Argument>, bayes: (int, int, int, int) -> Probability): (r: Result<real>)
    ensures |args| != 4 ==> r == Err(WrongArity(|args|, 4))
    ensures r.Ok? <==> |args| == 4 && forall j :: 0 <= j < 4 ==> args[j].Int?
    ensures r.Ok? ==> r.value == bayes(args[0].i, args[1].i, args[2].i, args[3].i)
  {
    if |args| != 4 then Err(WrongArity(|args|, 4))
    else if !args[0].Int? then Err(NotANumber(0))
    else if !args[1].Int? then Err(NotANumber(1))
    else if !args[2].Int? then Err(NotANumber(2))
    else if !args[3].Int? then Err(NotANumber(3))
    else Ok(bayes(args[0].i, args[1].i, args[2].i, args[3].i))
  }

  /** The arguments `simulate_bayesian_test` passes, in order. */
  function BayesianArguments(c: Conversion, controlCount: nat, testCount: nat): (r: seq<Argument>)
    ensures |r| == 7
    ensures r[..4] == [Int(controlCount), Int(c.sampleSize), Int(testCount), Int(c.sampleSize)]
    ensures r[4..] == [Str(c.alternative), Int(c.priorPositives), Int(c.priorNegatives)]
  {
    [Int(controlCount), Int(c.sampleSize), Int(testCount), Int(c.sampleSize),
     Str(c.alternative), Int(c.priorPositives), Int(c.priorNegatives)]
  }

  /** `simulate_conversion_ztest(mde)` / `simulate_bayesian_test(mde)` at call `k`:
      the control count is drawn with `p`, then the test count with `p + mde`, and both go
      to the test with the group size as the number of objects of each group. */
  function SimulateProcedure(c: Conversion, rng: Rng, n: Numerics, test: DiscreteTest, k: nat, mde: real): (r: Result<real>)
    ensures !(0.0 <= c.p <= 1.0) ==> r == Err(InvalidProbability(c.p))
    ensures 0.0 <= c.p <= 1.0 && !(0.0 <= c.p + mde <= 1.0) ==> r == Err(InvalidProbability(c.p + mde))
    ensures r.Ok? ==> test == ConversionZtest && 0.0 <= r.value <= 1.0
  {
    match BinomialDraw(rng, k, Control, c.sampleSize, c.p)
    case Err(e) => Err(e)
    case Ok(controlCount) =>
      match BinomialDraw(rng, k, Treatment, c.sampleSize, c.p + mde)
      case Err(e) => Err(e)
      case Ok(testCount) =>
        match test
        case ConversionZtest =>
          ConversionZtestCall(controlCount, c.sampleSize, testCount, c.sampleSize, c.alternative, n.ztest)
        case BayesianTest =>
          CallBayesianTest(BayesianArguments(c, controlCount, testCount), n.bayes)
  }

  function AsProcedure(c: Conversion, rng: Rng, n: Numerics, test: DiscreteTest): Procedure
  {
    (k: nat, mde: real) => SimulateProcedure(c, rng, n, test, k, mde)
  }

  /** The registry as engine procedures over fixed settings. */
  function Procedures(c: Conversion, rng: Rng, n: Numerics): (r: map<string, Procedure>)
    ensures r.Keys == Registry().Keys
    ensures forall name :: name in Registry() ==> r[name] == AsProcedure(c, rng, n, Registry()[name])
  {
    map name | name in Registry() :: AsProcedure(c, rng, n, Registry()[name])
  }

  /** A simulated z-test fails exactly when a draw probability leaves [0, 1], the group
      size is zero or the alternative is unknown; otherwise it is the z-test of the two
      drawn counts, each against `sample_size` objects. */
  lemma ConversionZtestOutcome(c: Conversion, rng: Rng, n: Numerics, k: nat, mde: real)
    ensures var r := SimulateProcedure(c, rng, n, ConversionZtest, k, mde);
      && (r.Err? <==> !(0.0 <= c.p <= 1.0) || !(0.0 <= c.p + mde <= 1.0) || c.sampleSize == 0
                      || ParseSide(c.alternative).None?)
      && (0.0 <= c.p <= 1.0 && 0.0 <= c.p + mde <= 1.0 && c.sampleSize == 0 ==> r == Err(EmptyGroup))
      && (r.Ok? ==>
            && ParseSide(c.alternative).Some?
            && r.value == n.ztest(BinomialDraw(rng, k, Control, c.sampleSize, c.p).value, c.sampleSize,
                                  BinomialDraw(rng, k, Treatment, c.sampleSize, c.p + mde).value, c.sampleSize,
                                  ParseSide(c.alternative).value)
            && 0.0 <= r.value <= 1.0)
  {
  }

  /** The null pass draws both groups with the same probability `p`. */
  lemma NullPassSameRate(c: Conversion, rng: Rng, n: Numerics, test: DiscreteTest, k: nat)
    requires 0.0 <= c.p <= 1.0
    ensures SimulateProcedure(c, rng, n, test, k, 0.0).Err? ==>
              test == BayesianTest || c.sampleSize == 0 || ParseSide(c.alternative).None?
    ensures test == ConversionZtest && c.sampleSize > 0 && ParseSide(c.alternative).Some? ==>
      SimulateProcedure(c, rng, n, test, k, 0.0)
        == Ok(n.ztest(rng.binomial(k, Control, c.sampleSize, c.p) % (c.sampleSize + 1), c.sampleSize,
                      rng.binomial(k, Treatment, c.sampleSize, c.p) % (c.sampleSize + 1), c.sampleSize,
                      ParseSide(c.alternative).value))
  {
    assert c.p + 0.0 == c.p;
  }

  /** As written, `simulate_bayesian_test` never returns: when both draws succeed, the
      seven-argument call raises, so every call of it fails. */
  lemma BayesianAlwaysRaises(c: Conversion, rng: Rng, n: Numerics, k: nat, mde: real)
    ensures var r := SimulateProcedure(c, rng, n, BayesianTest, k, mde);
      && r.Err?
      && (0.0 <= c.p <= 1.0 && 0.0 <= c.p + mde <= 1.0 ==> r.error == WrongArity(7, 4))
  {
  }

  /** The four-argument call the signature accepts would succeed with the counts and the
      group sizes. */
  lemma BayesianFourArguments(c: Conversion, n: Numerics, controlCount: nat, testCount: nat)
    ensures CallBayesianTest(BayesianArguments(c, controlCount, testCount)[..4], n.bayes)
         == Ok(n.bayes(controlCount, c.sampleSize, testCount, c.sampleSize))
  {
    var args := BayesianArguments(c, controlCount, testCount)[..4];
    assert args == [Int(controlCount), Int(c.sampleSize), Int(testCount), Int(c.sampleSize)];
  }

  /** Simulating `bayesian_test` with at least one experiment always fails, whatever the
      state of the engine. */
  lemma BayesianStepFails(c: Conversion, rng: Rng, n: Numerics, s: EngineState, cfg: Settings)
    requires cfg.experimentsNum > 0
    ensures Step(Procedures(c, rng, n), s, "bayesian_test", cfg).0.Fail?
  {
    var procs := Procedures(c, rng, n);
    forall k: nat ensures procs["bayesian_test"](k, 0.0).Err? {
      BayesianAlwaysRaises(c, rng, n, k, 0.0);
    }
    StepAlwaysRaising(procs, s, "bayesian_test", cfg);
  }

  class StatTestsSimulation {
    /** The inherited engine, whose registry this class fills in. */
    const base: Engine.BaseSimulation
    const count: int
    const objectsNum: int
    const p: real
    const bayesianPriorPositives: int
    const bayesianPriorNegatives: int
    /** The global generator's draws and the tests' numerics. */
    const rng: Rng
    const numerics: Numerics

    /** The settings the registered procedures read. */
    function Settings(): Conversion
      reads base
    {
      Conversion(p, base.sampleSize, base.alternative, bayesianPriorPositives, bayesianPriorNegatives)
    }

    /** The engine's registry is this class's two procedures. */
    ghost predicate Wired()
      reads this, base
    {
      base.stattestsFuncMap == Procedures(Settings(), rng, numerics)
    }

    constructor (count: int, objectsNum: int, alternative: string, stattestsList: seq<string>,
                 sampleSize: nat, experimentsNum: int, mde: real,
                 alphaLevel: real := 0.05, power: real := 0.8,
                 bayesianPriorPositives: int := 1, bayesianPriorNegatives: int := 1,
                 rng: Rng, numerics: Numerics, ci: CiEstimator, position: nat)
      requires objectsNum != 0
      ensures fresh(base)
      ensures base.alternative == alternative && base.stattestsList == stattestsList
      ensures base.sampleSize == sampleSize && base.experimentsNum == experimentsNum
      ensures base.mde == mde && base.alphaLevel == alphaLevel && base.power == power && base.ci == ci
      ensures base.info == [] && base.position == position
      ensures this.count == count && this.objectsNum == objectsNum
      ensures BaseRate(count, objectsNum) == Ok(p)
      ensures this.bayesianPriorPositives == bayesianPriorPositives
      ensures this.bayesianPriorNegatives == bayesianPriorNegatives
      ensures this.rng == rng && this.numerics == numerics
      ensures Wired() && base.stattestsFuncMap.Keys == {"conversion_ztest", "bayesian_test"}
    {
      var engine := new Engine.BaseSimulation(alternative, stattestsList, sampleSize, experimentsNum,
                                              mde, alphaLevel, power, ci, position);
      this.base := engine;
      this.count := count;
      this.objectsNum := objectsNum;
      this.p := count as real / objectsNum as real;
      this.bayesianPriorPositives := bayesianPriorPositives;
      this.bayesianPriorNegatives := bayesianPriorNegatives;
      this.rng := rng;
      this.numerics := numerics;
      new;
      engine.stattestsFuncMap := Procedures(Settings(), rng, numerics);
    }

    /** The inherited `run()`. */
    method Run() returns (r: Result<Info>)
      modifies base`info, base`position
      ensures var (o, s) := EngineSpec.Run(base.stattestsFuncMap, old(base.position), base.stattestsList, base.Config());
        && base.State() == s
        && (o.Pass? ==> r == Ok(base.info))
        && (o.Fail? ==> r == Err(o.error))
    {
      r := base.Run();
    }

    /** `simulate_conversion_ztest(mde)`: one call of the generator. */
    method SimulateConversionZtest(mde: real) returns (r: Result<real>)
      requires Wired()
      modifies base`position
      ensures base.position == old(base.position) + 1
      ensures r == base.stattestsFuncMap["conversion_ztest"](old(base.position), mde)
    {
      var k := base.position;
      base.position := base.position + 1;
      var controlCount := BinomialDraw(rng, k, Control, base.sampleSize, p);
      if controlCount.Err? {
        return Err(controlCount.error);
      }
      var testCount := BinomialDraw(rng, k, Treatment, base.sampleSize, p + mde);
      if testCount.Err? {
        return Err(testCount.error);
      }
      r := ConversionZtestCall(controlCount.value, base.sampleSize, testCount.value, base.sampleSize,
                               base.alternative, numerics.ztest);
    }

    /** `simulate_bayesian_test(mde)`: one call of the generator, then the call with
        seven arguments. */
    method SimulateBayesianTest(mde: real) returns (r: Result<real>)
      requires Wired()
      modifies base`position
      ensures base.position == old(base.position) + 1
      ensures r == base.stattestsFuncMap["bayesian_test"](old(base.position), mde)
    {
      var k := base.position;
      base.position := base.position + 1;
      var controlCount := BinomialDraw(rng, k, Control, base.sampleSize, p);
      if controlCount.Err? {
        return Err(controlCount.error);
      }
      var testCount := BinomialDraw(rng, k, Treatment, base.sampleSize, p + mde);
      if testCount.Err? {
        return Err(testCount.error);
      }
      r := CallBayesianTest(
        [Int(controlCount.value), Int(base.sampleSize), Int(testCount.value), Int(base.sampleSize),
         Str(base.alternative), Int(bayesianPriorPositives), Int(bayesianPriorNegatives)],
        numerics.bayes);
    }
  }

  /** `StatTestsSimulation(...)`: the division by `objects_num` raises when it is zero. */
  method Create(count: int, objectsNum: int, alternative: string, stattestsList: seq<string>,
                sampleSize: nat, experimentsNum: int, mde: real,
                alphaLevel: real := 0.05, power: real := 0.8,
                bayesianPriorPositives: int := 1, bayesianPriorNegatives: int := 1,
                rng: Rng, numerics: Numerics, ci: CiEstimator, position: nat)
    returns (r: Result<StatTestsSimulation>)
    ensures r.Err? <==> objectsNum == 0
    ensures r.Err? ==> r.error == ZeroObjects
    ensures r.Ok? ==>
              && fresh(r.value) && fresh(r.value.base) && r.value.Wired()
              && r.value.p == count as real / objectsNum as real
              && r.value.bayesianPriorPositives == bayesianPriorPositives
              && r.value.bayesianPriorNegatives == bayesianPriorNegatives
              && r.value.base.info == [] && r.value.base.stattestsList == stattestsList
  {
    if objectsNum == 0 {
      return Err(ZeroObjects);
    }
    var sim := new StatTestsSimulation(count, objectsNum, alternative, stattestsList, sampleSize, experimentsNum,
                                       mde, alphaLevel, power, bayesianPriorPositives, bayesianPriorNegatives,
                                       rng, numerics, ci, position);
    return Ok(sim);
  }
}
