/** The statistical tests of abtoolkit/continuous/stattests.py. What is numeric in them
    (the t statistic, Student's t distribution, the CUPED regression coefficient and the
    panel regression fit) is a parameter; what is kept is the control flow: the guards
    and the errors they raise, which series are combined and how, and how the
    regression design is laid out. */
module ContinuousStatTests {
  import opened Common

  /** The numeric part of `ttest`: `statistic` is the pooled-variance t statistic of the
      two samples, `cdf(df, t)` is `special.stdtr(df, t)`. */
  datatype StudentT = StudentT(statistic: (seq<real>, seq<real>) -> real, cdf: (int, real) -> real)

  /** What the code relies on of `special.stdtr`: a probability, symmetric about zero and
      non-decreasing in `t`. */
  ghost predicate IsCdf(cdf: (int, real) -> real)
  {
    && (forall df: int, t: real :: 0.0 <= cdf(df, t) <= 1.0)
    && (forall df: int, t: real :: cdf(df, -t) == 1.0 - cdf(df, t))
    && (forall df: int, s: real, t: real :: s <= t ==> cdf(df, s) <= cdf(df, t))
  }

  /** `np.cov(covariate, value)[0, 1] / covariate.var()` on the pooled sample. */
  type ThetaEstimator = (seq<real>, seq<real>) -> real

  /** A regression design: column names and one row of values per observation. */
  datatype Frame = Frame(columns: seq<string>, rows: seq<seq<real>>)

  /** `lm.PanelOLS.from_formula(formula, data=frame).fit()`, read at one term:
      the fitted coefficient and its p-value. */
  type PanelFit = (Frame, string, string) -> (real, Probability)

  /** Everything numeric the tests need. */
  datatype Numerics = Numerics(t: StudentT, theta: ThetaEstimator, fit: PanelFit)

  /** A named `pd.Series`, read positionally. */
  datatype Series = Series(name: string, values: seq<real>)

  function Abs(x: real): real
  {
    if x < 0.0 then -x else x
  }

  /** `_corrected_regression_p_value`: a coefficient of the wrong sign for a one-sided
      alternative can never be significant, so its p-value becomes 1. */
  function CorrectedRegressionPValue(value: real, pValue: real, alternative: string): (r: real)
    ensures r == 1.0 <== (alternative == "less" && value < 0.0) || (alternative == "greater" && value > 0.0)
    ensures r == pValue <== !((alternative == "less" && value < 0.0) || (alternative == "greater" && value > 0.0))
  {
    if alternative == "less" && value < 0.0 then 1.0
    else if alternative == "greater" && value > 0.0 then 1.0
    else pValue
  }

  /** The correction keeps a p-value a probability and never makes it smaller. */
  lemma CorrectedPValueBounds(value: real, pValue: real, alternative: string)
    requires 0.0 <= pValue <= 1.0
    ensures pValue <= CorrectedRegressionPValue(value, pValue, alternative) <= 1.0
  {
  }

  /** The group sizes for which `ttest` computes a statistic: `df = n1 + n2 - 2` is at
      least 1, and neither `1 / n1` nor `1 / n2` divides by zero. */
  predicate Testable(control: seq<real>, test: seq<real>)
  {
    |control| + |test| >= 3 && |control| > 0 && |test| > 0
  }

  /** `ttest`: `df` is checked first, then the integer division `1 / n1 + 1 / n2` of the
      standard error raises on an empty group, and only then is the alternative read. */
  function TTest(control: seq<real>, test: seq<real>, alternative: string, t: StudentT): (r: Result<real>)
    ensures |control| + |test| < 3 ==> r == Err(TooFewSamples(|control| + |test| - 2))
    ensures |control| + |test| >= 3 && (|control| == 0 || |test| == 0) ==> r == Err(EmptyGroup)
    ensures Testable(control, test) && ParseSide(alternative).None? ==> r == Err(UnknownAlternative(alternative))
    ensures r.Ok? <==> Testable(control, test) && ParseSide(alternative).Some?
  {
    var df := |control| + |test| - 2;
    if df < 1 then Err(TooFewSamples(df))
    else if |control| == 0 || |test| == 0 then Err(EmptyGroup)
    else
      var stat := t.statistic(control, test);
      if alternative == "less" then Ok(t.cdf(df, stat))
      else if alternative == "greater" then Ok(t.cdf(df, -stat))
      else if alternative == "two-sided" then Ok(t.cdf(df, -Abs(stat)) * 2.0)
      else Err(UnknownAlternative(alternative))
  }

  /** With a genuine distribution function every p-value of `ttest` is a probability;
      for two-sided this needs the symmetry and monotonicity of the CDF. */
  lemma TTestInUnitInterval(control: seq<real>, test: seq<real>, alternative: string, t: StudentT)
    requires IsCdf(t.cdf)
    ensures var r := TTest(control, test, alternative, t); r.Ok? ==> 0.0 <= r.value <= 1.0
  {
    var df := |control| + |test| - 2;
    if Testable(control, test) && alternative == "two-sided" {
      var a := Abs(t.statistic(control, test));
      assert t.cdf(df, -a) <= t.cdf(df, a);
      assert t.cdf(df, -a) == 1.0 - t.cdf(df, a);
    }
  }

  /** The one-sided p-values are complementary and the two-sided one is twice the
      smaller of them. */
  lemma TTestSides(control: seq<real>, test: seq<real>, t: StudentT)
    requires IsCdf(t.cdf)
    requires Testable(control, test)
    ensures var less := TTest(control, test, "less", t).value;
      var greater := TTest(control, test, "greater", t).value;
      && less + greater == 1.0
      && TTest(control, test, "two-sided", t).value == 2.0 * (if less <= greater then less else greater)
  {
    var df := |control| + |test| - 2;
    var s := t.statistic(control, test);
    assert t.cdf(df, -s) == 1.0 - t.cdf(df, s);
    if s >= 0.0 {
      assert t.cdf(df, -s) <= t.cdf(df, s);
    } else {
      assert t.cdf(df, s) <= t.cdf(df, -s);
      assert -Abs(s) == s;
    }
  }

  /** `a - b` on two aligned series. */
  function Differences(a: seq<real>, b: seq<real>): (r: seq<real>)
    requires |a| == |b|
    ensures |r| == |a|
    ensures forall i :: 0 <= i < |a| ==> r[i] == a[i] - b[i]
  {
    seq(|a|, i requires 0 <= i < |a| => a[i] - b[i])
  }

  /** `a + b` on two aligned series. */
  function Sums(a: seq<real>, b: seq<real>): (r: seq<real>)
    requires |a| == |b|
    ensures |r| == |a|
    ensures forall i :: 0 <= i < |a| ==> r[i] == a[i] + b[i]
  {
    seq(|a|, i requires 0 <= i < |a| => a[i] + b[i])
  }

  /** `difference_ttest`: a t-test on each group's change against its previous period. */
  function DifferenceTTest(control: seq<real>, controlPre: seq<real>, test: seq<real>, testPre: seq<real>,
                           alternative: string, t: StudentT): (r: Result<real>)
    requires |control| == |controlPre| && |test| == |testPre|
    ensures r.Ok? <==> Testable(control, test) && ParseSide(alternative).Some?
    ensures r.Ok? ==> r.value == TTest(Differences(control, controlPre), Differences(test, testPre), alternative, t).value
  {
    TTest(Differences(control, controlPre), Differences(test, testPre), alternative, t)
  }

  /** A per-unit level present in both periods cancels out of the difference test. */
  lemma DifferenceTTestShiftInvariant(control: seq<real>, controlPre: seq<real>, test: seq<real>, testPre: seq<real>,
                                      u: seq<real>, w: seq<real>, alternative: string, t: StudentT)
    requires |control| == |controlPre| == |u| && |test| == |testPre| == |w|
    ensures DifferenceTTest(Sums(control, u), Sums(controlPre, u), Sums(test, w), Sums(testPre, w), alternative, t)
         == DifferenceTTest(control, controlPre, test, testPre, alternative, t)
  {
    assert Differences(Sums(control, u), Sums(controlPre, u)) == Differences(control, controlPre);
    assert Differences(Sums(test, w), Sums(testPre, w)) == Differences(test, testPre);
  }

  /** With nothing in the previous period the difference test is the plain t-test. */
  lemma DifferenceTTestZeroPre(control: seq<real>, controlPre: seq<real>, test: seq<real>, testPre: seq<real>,
                               alternative: string, t: StudentT)
    requires |control| == |controlPre| && |test| == |testPre|
    requires forall i :: 0 <= i < |controlPre| ==> controlPre[i] == 0.0
    requires forall i :: 0 <= i < |testPre| ==> testPre[i] == 0.0
    ensures DifferenceTTest(control, controlPre, test, testPre, alternative, t) == TTest(control, test, alternative, t)
  {
    assert Differences(control, controlPre) == control;
    assert Differences(test, testPre) == test;
  }

  /** `value - theta * covariate` on two aligned series. */
  function CupedAdjust(values: seq<real>, covariate: seq<real>, theta: real): (r: seq<real>)
    requires |values| == |covariate|
    ensures |r| == |values|
    ensures forall i :: 0 <= i < |values| ==> r[i] == values[i] - theta * covariate[i]
  {
    seq(|values|, i requires 0 <= i < |values| => values[i] - theta * covariate[i])
  }

  /** `cuped_ttest`: one coefficient, estimated on control and test pooled (control
      first), adjusts both groups before the t-test. */
  function CupedTTest(control: seq<real>, controlCovariate: seq<real>, test: seq<real>, testCovariate: seq<real>,
                      alternative: string, n: Numerics): (r: Result<real>)
    requires |control| == |controlCovariate| && |test| == |testCovariate|
    ensures r.Ok? <==> Testable(control, test) && ParseSide(alternative).Some?
    ensures var theta := n.theta(controlCovariate + testCovariate, control + test);
      r == TTest(CupedAdjust(control, controlCovariate, theta), CupedAdjust(test, testCovariate, theta), alternative, n.t)
  {
    var theta := n.theta(controlCovariate + testCovariate, control + test);
    TTest(CupedAdjust(control, controlCovariate, theta), CupedAdjust(test, testCovariate, theta), alternative, n.t)
  }

  /** A covariate that is zero everywhere leaves the plain t-test, whatever the coefficient. */
  lemma CupedZeroCovariate(control: seq<real>, controlCovariate: seq<real>, test: seq<real>, testCovariate: seq<real>,
                           alternative: string, n: Numerics)
    requires |control| == |controlCovariate| && |test| == |testCovariate|
    requires forall i :: 0 <= i < |controlCovariate| ==> controlCovariate[i] == 0.0
    requires forall i :: 0 <= i < |testCovariate| ==> testCovariate[i] == 0.0
    ensures CupedTTest(control, controlCovariate, test, testCovariate, alternative, n) == TTest(control, test, alternative, n.t)
  {
    var theta := n.theta(controlCovariate + testCovariate, control + test);
    CupedAdjustZero(control, controlCovariate, theta);
    CupedAdjustZero(test, testCovariate, theta);
  }

  lemma CupedAdjustZero(values: seq<real>, covariate: seq<real>, theta: real)
    requires |values| == |covariate|
    requires forall i :: 0 <= i < |covariate| ==> covariate[i] == 0.0
    ensures CupedAdjust(values, covariate, theta) == values
  {
    var r := CupedAdjust(values, covariate, theta);
    forall i | 0 <= i < |values| ensures r[i] == values[i] {
      calc {
        r[i];
        values[i] - theta * covariate[i];
        { assert covariate[i] == 0.0; }
        values[i] - theta * 0.0;
        values[i];
      }
    }
  }

  /** With a coefficient of exactly 1 the CUPED test is the difference test. */
  lemma CupedUnitThetaIsDifference(control: seq<real>, controlPre: seq<real>, test: seq<real>, testPre: seq<real>,
                                   alternative: string, n: Numerics)
    requires |control| == |controlPre| && |test| == |testPre|
    requires n.theta(controlPre + testPre, control + test) == 1.0
    ensures CupedTTest(control, controlPre, test, testPre, alternative, n)
         == DifferenceTTest(control, controlPre, test, testPre, alternative, n.t)
  {
    assert CupedAdjust(control, controlPre, 1.0) == Differences(control, controlPre);
    assert CupedAdjust(test, testPre, 1.0) == Differences(test, testPre);
  }

  /** One row per value: the value followed by the constant columns `tags`. */
  function Labelled(values: seq<real>, tags: seq<real>): (r: seq<seq<real>>)
    ensures |r| == |values|
    ensures forall i :: 0 <= i < |values| ==> r[i] == [values[i]] + tags
  {
    if values == [] then [] else [[values[0]] + tags] + Labelled(values[1..], tags)
  }

  /** The `value` column of the rows whose columns right after `value` start with
      `labels`, in row order: the rows of one group of a design. */
  function Select(rows: seq<seq<real>>, labels: seq<real>): (r: seq<real>)
    ensures |r| <= |rows|
  {
    if rows == [] then []
    else if |rows[0]| > |labels| && rows[0][1..|labels| + 1] == labels then [rows[0][0]] + Select(rows[1..], labels)
    else Select(rows[1..], labels)
  }

  lemma {:induction false} SelectAppend(a: seq<seq<real>>, b: seq<seq<real>>, labels: seq<real>)
    ensures Select(a + b, labels) == Select(a, labels) + Select(b, labels)
  {
    if a == [] {
      assert a + b == b;
    } else {
      assert (a + b)[1..] == a[1..] + b;
      SelectAppend(a[1..], b, labels);
    }
  }

  /** Selecting labelled rows returns all their values when the labels match the tags,
      and nothing otherwise. */
  lemma {:induction false} SelectLabelled(values: seq<real>, tags: seq<real>, labels: seq<real>)
    requires |labels| <= |tags|
    ensures Select(Labelled(values, tags), labels) == if tags[..|labels|] == labels then values else []
  {
    if values != [] {
      var row := [values[0]] + tags;
      assert row[1..|labels| + 1] == tags[..|labels|];
      assert Labelled(values, tags)[1..] == Labelled(values[1..], tags);
      SelectLabelled(values[1..], tags, labels);
      if tags[..|labels|] == labels {
        assert values == [values[0]] + values[1..];
      }
    }
  }

  const RegressionColumns: seq<string> := ["value", "treated", "bias"]
  const RegressionFormula: string := "value ~ bias + treated"

  /** The design of `regression_test`: control rows then test rows, `treated` 0 for
      control and 1 for test, `bias` 1 everywhere. */
  function RegressionFrame(control: seq<real>, test: seq<real>): (f: Frame)
    ensures f.columns == RegressionColumns
    ensures |f.rows| == |control| + |test|
    ensures forall i :: 0 <= i < |control| ==> f.rows[i] == [control[i], 0.0, 1.0]
    ensures forall i :: 0 <= i < |test| ==> f.rows[|control| + i] == [test[i], 1.0, 1.0]
  {
    Frame(RegressionColumns, Labelled(control, [0.0, 1.0]) + Labelled(test, [1.0, 1.0]))
  }

  /** The `treated` column splits the regression design back into the two samples. */
  lemma RegressionFrameSplits(control: seq<real>, test: seq<real>)
    ensures Select(RegressionFrame(control, test).rows, [0.0]) == control
    ensures Select(RegressionFrame(control, test).rows, [1.0]) == test
  {
    var a := Labelled(control, [0.0, 1.0]);
    var b := Labelled(test, [1.0, 1.0]);
    SelectAppend(a, b, [0.0]);
    SelectAppend(a, b, [1.0]);
    SelectLabelled(control, [0.0, 1.0], [0.0]);
    SelectLabelled(control, [0.0, 1.0], [1.0]);
    SelectLabelled(test, [1.0, 1.0], [0.0]);
    SelectLabelled(test, [1.0, 1.0], [1.0]);
  }

  /** `regression_test`: the corrected p-value of `treated`. */
  function RegressionTest(control: seq<real>, test: seq<real>, alternative: string, fit: PanelFit): (r: real)
    ensures 0.0 <= r <= 1.0
    ensures var (coefficient, p) := fit(RegressionFrame(control, test), RegressionFormula, "treated");
      r == CorrectedRegressionPValue(coefficient, p, alternative)
  {
    var (coefficient, p) := fit(RegressionFrame(control, test), RegressionFormula, "treated");
    CorrectedPValueBounds(coefficient, p, alternative);
    CorrectedRegressionPValue(coefficient, p, alternative)
  }

  const DidColumns: seq<string> := ["value", "treated", "after", "bias"]
  const DidFormula: string := "value ~ bias + after + treated + treated*after"

  /** The design of `did_regression_test`: four blocks, control before, control after,
      test before, test after, labelled by (`treated`, `after`). */
  function DidFrame(control: seq<real>, controlPre: seq<real>, test: seq<real>, testPre: seq<real>): (f: Frame)
    ensures f.columns == DidColumns
    ensures |f.rows| == |controlPre| + |control| + |testPre| + |test|
    ensures forall i :: 0 <= i < |controlPre| ==> f.rows[i] == [controlPre[i], 0.0, 0.0, 1.0]
    ensures forall i :: 0 <= i < |control| ==> f.rows[|controlPre| + i] == [control[i], 0.0, 1.0, 1.0]
    ensures forall i :: 0 <= i < |testPre| ==> f.rows[|controlPre| + |control| + i] == [testPre[i], 1.0, 0.0, 1.0]
    ensures forall i :: 0 <= i < |test| ==> f.rows[|controlPre| + |control| + |testPre| + i] == [test[i], 1.0, 1.0, 1.0]
  {
    Frame(DidColumns,
          Labelled(controlPre, [0.0, 0.0, 1.0]) + Labelled(control, [0.0, 1.0, 1.0])
          + Labelled(testPre, [1.0, 0.0, 1.0]) + Labelled(test, [1.0, 1.0, 1.0]))
  }

  /** Selecting from four labelled blocks keeps the blocks whose tags match. */
  lemma SelectBlocks(v1: seq<real>, v2: seq<real>, v3: seq<real>, v4: seq<real>,
                     t1: seq<real>, t2: seq<real>, t3: seq<real>, t4: seq<real>, labels: seq<real>)
    requires |labels| <= |t1| && |labels| <= |t2| && |labels| <= |t3| && |labels| <= |t4|
    ensures Select(Labelled(v1, t1) + Labelled(v2, t2) + Labelled(v3, t3) + Labelled(v4, t4), labels)
         == (if t1[..|labels|] == labels then v1 else []) + (if t2[..|labels|] == labels then v2 else [])
          + (if t3[..|labels|] == labels then v3 else []) + (if t4[..|labels|] == labels then v4 else [])
  {
    var a, b, c, d := Labelled(v1, t1), Labelled(v2, t2), Labelled(v3, t3), Labelled(v4, t4);
    SelectAppend(a + b + c, d, labels);
    SelectAppend(a + b, c, labels);
    SelectAppend(a, b, labels);
    SelectLabelled(v1, t1, labels);
    SelectLabelled(v2, t2, labels);
    SelectLabelled(v3, t3, labels);
    SelectLabelled(v4, t4, labels);
  }

  /** Each (`treated`, `after`) pair picks out exactly one of the four input series. */
  lemma DidFrameSplits(control: seq<real>, controlPre: seq<real>, test: seq<real>, testPre: seq<real>)
    ensures var rows := DidFrame(control, controlPre, test, testPre).rows;
      && Select(rows, [0.0, 0.0]) == controlPre
      && Select(rows, [0.0, 1.0]) == control
      && Select(rows, [1.0, 0.0]) == testPre
      && Select(rows, [1.0, 1.0]) == test
  {
    var t1, t2, t3, t4 := [0.0, 0.0, 1.0], [0.0, 1.0, 1.0], [1.0, 0.0, 1.0], [1.0, 1.0, 1.0];
    assert t1[..2] == [0.0, 0.0] && t2[..2] == [0.0, 1.0] && t3[..2] == [1.0, 0.0] && t4[..2] == [1.0, 1.0];
    SelectBlocks(controlPre, control, testPre, test, t1, t2, t3, t4, [0.0, 0.0]);
    SelectBlocks(controlPre, control, testPre, test, t1, t2, t3, t4, [0.0, 1.0]);
    SelectBlocks(controlPre, control, testPre, test, t1, t2, t3, t4, [1.0, 0.0]);
    SelectBlocks(controlPre, control, testPre, test, t1, t2, t3, t4, [1.0, 1.0]);
  }

  /** `did_regression_test`: the corrected p-value of the interaction `treated:after`. */
  function DidRegressionTest(control: seq<real>, controlPre: seq<real>, test: seq<real>, testPre: seq<real>,
                             alternative: string, fit: PanelFit): (r: real)
    ensures 0.0 <= r <= 1.0
    ensures var (coefficient, p) := fit(DidFrame(control, controlPre, test, testPre), DidFormula, "treated:after");
      r == CorrectedRegressionPValue(coefficient, p, alternative)
  {
    var (coefficient, p) := fit(DidFrame(control, controlPre, test, testPre), DidFormula, "treated:after");
    CorrectedPValueBounds(coefficient, p, alternative);
    CorrectedRegressionPValue(coefficient, p, alternative)
  }

  function Names(vars: seq<Series>): (r: seq<string>)
    ensures |r| == |vars| && forall i :: 0 <= i < |vars| ==> r[i] == vars[i].name
  {
    if vars == [] then [] else [vars[0].name] + Names(vars[1..])
  }

  function NameSet(vars: seq<Series>): set<string>
  {
    set v | v in vars :: v.name
  }

  /** `" + ".join(names)`. */
  function JoinPlus(names: seq<string>): (r: string)
    ensures names != [] ==> |names[0]| <= |r| && forall i :: 0 <= i < |names[0]| ==> r[i] == names[0][i]
    ensures names != [] ==> var last := names[|names| - 1];
      |last| <= |r| && forall i :: 0 <= i < |last| ==> r[|r| - |last| + i] == last[i]
  {
    if |names| == 0 then ""
    else if |names| == 1 then names[0]
    else names[0] + " + " + JoinPlus(names[1..])
  }

  /** Joining one more name appends the separator and the name. */
  lemma {:induction false} JoinPlusAppend(names: seq<string>, name: string)
    requires names != []
    ensures JoinPlus(names + [name]) == JoinPlus(names) + " + " + name
  {
    if |names| == 1 {
      assert (names + [name])[1..] == [name];
    } else {
      JoinPlusUnfold(names, name);
      JoinPlusAppend(names[1..], name);
      ConcatAssoc(names[0] + " + ", JoinPlus(names[1..]), " + " + name);
    }
  }

  /** One step of the join, taken on a list with a name appended. */
  lemma JoinPlusUnfold(names: seq<string>, name: string)
    requires |names| >= 2
    ensures JoinPlus(names + [name]) == names[0] + " + " + JoinPlus(names[1..] + [name])
    ensures JoinPlus(names) == names[0] + " + " + JoinPlus(names[1..])
  {
    assert (names + [name])[1..] == names[1..] + [name];
  }

  lemma ConcatAssoc(a: string, b: string, c: string)
    ensures a + (b + c) == (a + b) + c
  {
  }

  /** The formula of `additional_vars_regression_test`, with the test group's names in order. */
  function AdditionalVarsFormula(testVars: seq<Series>): (r: string)
    ensures |r| >= 25 && r[..25] == "value ~ bias + treated + "
    ensures testVars != [] ==> var last := testVars[|testVars| - 1].name;
      |last| <= |r| && forall i :: 0 <= i < |last| ==> r[|r| - |last| + i] == last[i]
  {
    "value ~ bias + treated + " + JoinPlus(Names(testVars))
  }

  /** The values of the first series called `name`. */
  function SeriesNamed(vars: seq<Series>, name: string): (r: seq<real>)
    requires name in NameSet(vars)
    ensures exists k :: 0 <= k < |vars| && vars[k].name == name && r == vars[k].values
                        && forall i :: 0 <= i < k ==> vars[i].name != name
  {
    if vars[0].name == name then vars[0].values
    else
      assert name in NameSet(vars[1..]) by {
        var v :| v in vars && v.name == name;
        assert v != vars[0];
      }
      var r := SeriesNamed(vars[1..], name);
      ghost var k :| 0 <= k < |vars[1..]| && vars[1..][k].name == name && r == vars[1..][k].values
                     && forall i :: 0 <= i < k ==> vars[1..][i].name != name;
      assert vars[k + 1].name == name && r == vars[k + 1].values;
      assert forall i :: 0 <= i < k + 1 ==> vars[i].name != name by {
        forall i | 0 <= i < k + 1 ensures vars[i].name != name {
          if i > 0 { assert vars[i] == vars[1..][i - 1]; }
        }
      }
      r
  }

  /** No two series share a name. */
  predicate DistinctNames(vars: seq<Series>)
  {
    forall i, j :: 0 <= i < j < |vars| ==> vars[i].name != vars[j].name
  }

  /** Whether pandas can stack the test frame under the control frame. Identical column
      lists are stacked position by position. Otherwise each frame is re-indexed to the
      union of the columns by name, which pandas refuses for a frame whose labels repeat. */
  predicate Stackable(controlVars: seq<Series>, testVars: seq<Series>)
  {
    Names(controlVars) == Names(testVars) || (DistinctNames(controlVars) && DistinctNames(testVars))
  }

  /** Row `i` of the extra columns: each series of `columns` at position `i`. */
  function ExtraRow(columns: seq<seq<real>>, i: nat): (r: seq<real>)
    requires forall c :: c in columns ==> i < |c|
    ensures |r| == |columns| && forall j :: 0 <= j < |columns| ==> r[j] == columns[j][i]
  {
    seq(|columns|, j requires 0 <= j < |columns| => columns[j][i])
  }

  /** Rows `[value] + extras + tags`, one per value. */
  function RowsWith(values: seq<real>, columns: seq<seq<real>>, tags: seq<real>): (r: seq<seq<real>>)
    requires forall c :: c in columns ==> |c| == |values|
    ensures |r| == |values|
    ensures forall i :: 0 <= i < |values| ==> r[i] == [values[i]] + ExtraRow(columns, i) + tags
  {
    seq(|values|, i requires 0 <= i < |values| => [values[i]] + ExtraRow(columns, i) + tags)
  }

  function ValuesOf(vars: seq<Series>): (r: seq<seq<real>>)
    ensures |r| == |vars| && forall j :: 0 <= j < |vars| ==> r[j] == vars[j].values
  {
    seq(|vars|, j requires 0 <= j < |vars| => vars[j].values)
  }

  /** The test columns under the control columns of the stacked frame: position by
      position when both frames list the same names, otherwise the test series of each
      control column's name. */
  function Aligned(controlVars: seq<Series>, testVars: seq<Series>): (r: seq<seq<real>>)
    requires NameSet(controlVars) <= NameSet(testVars)
    ensures |r| == |controlVars|
    ensures Names(controlVars) == Names(testVars) ==> r == ValuesOf(testVars)
    ensures DistinctNames(testVars) ==>
      forall j, k :: 0 <= j < |controlVars| && 0 <= k < |testVars| && testVars[k].name == controlVars[j].name
        ==> r[j] == testVars[k].values
  {
    if Names(controlVars) == Names(testVars) then
      SameNamesPointwise(controlVars, testVars);
      ValuesOf(testVars)
    else
      AlignedByName(controlVars, testVars)
  }

  /** Equal name lists name the same series at every position. */
  lemma SameNamesPointwise(controlVars: seq<Series>, testVars: seq<Series>)
    requires Names(controlVars) == Names(testVars)
    ensures |controlVars| == |testVars|
    ensures forall j :: 0 <= j < |controlVars| ==> controlVars[j].name == testVars[j].name
    ensures DistinctNames(testVars) ==>
      forall j, k :: 0 <= j < |controlVars| && 0 <= k < |testVars| && testVars[k].name == controlVars[j].name
        ==> ValuesOf(testVars)[j] == testVars[k].values
  {
    forall j | 0 <= j < |controlVars| ensures controlVars[j].name == testVars[j].name {
      assert Names(controlVars)[j] == Names(testVars)[j];
    }
    if DistinctNames(testVars) {
      forall j, k | 0 <= j < |controlVars| && 0 <= k < |testVars| && testVars[k].name == controlVars[j].name
        ensures ValuesOf(testVars)[j] == testVars[k].values
      {
        assert testVars[j].name == testVars[k].name;
        assert j == k;
      }
    }
  }

  /** The test series of each control column's name, as reindexing by label picks it. */
  function AlignedByName(controlVars: seq<Series>, testVars: seq<Series>): (r: seq<seq<real>>)
    requires NameSet(controlVars) <= NameSet(testVars)
    ensures |r| == |controlVars|
    ensures DistinctNames(testVars) ==>
      forall j, k :: 0 <= j < |controlVars| && 0 <= k < |testVars| && testVars[k].name == controlVars[j].name
        ==> r[j] == testVars[k].values
  {
    var r := seq(|controlVars|, j requires 0 <= j < |controlVars| => SeriesNamed(testVars, controlVars[j].name));
    assert DistinctNames(testVars) ==>
      forall j, k :: 0 <= j < |controlVars| && 0 <= k < |testVars| && testVars[k].name == controlVars[j].name
        ==> r[j] == testVars[k].values by {
      if DistinctNames(testVars) {
        forall j, k | 0 <= j < |controlVars| && 0 <= k < |testVars| && testVars[k].name == controlVars[j].name
          ensures r[j] == testVars[k].values
        {
          SeriesNamedDistinct(testVars, controlVars[j].name, k);
        }
      }
    }
    r
  }

  /** Among series of distinct names, the series called `name` is the one at its position. */
  lemma SeriesNamedDistinct(vars: seq<Series>, name: string, k: nat)
    requires DistinctNames(vars) && k < |vars| && vars[k].name == name
    ensures name in NameSet(vars) && SeriesNamed(vars, name) == vars[k].values
  {
    assert vars[k] in vars;
    var r := SeriesNamed(vars, name);
    var k' :| 0 <= k' < |vars| && vars[k'].name == name && r == vars[k'].values
              && forall i :: 0 <= i < k' ==> vars[i].name != name;
    assert k' < k ==> vars[k'].name != vars[k].name;
  }

  /** The design of `additional_vars_regression_test`: the control frame's columns, then
      `treated` and `bias`; test rows carry the test series of the same names. */
  function AdditionalVarsFrame(control: seq<real>, controlVars: seq<Series>, test: seq<real>, testVars: seq<Series>): (f: Frame)
    requires NameSet(controlVars) == NameSet(testVars) && Stackable(controlVars, testVars)
    requires forall v :: v in controlVars ==> |v.values| == |control|
    requires forall v :: v in testVars ==> |v.values| == |test|
    ensures f.columns == ["value"] + Names(controlVars) + ["treated", "bias"]
    ensures |f.rows| == |control| + |test|
    ensures forall i :: 0 <= i < |control| ==>
      f.rows[i] == [control[i]] + ExtraRow(ValuesOf(controlVars), i) + [0.0, 1.0]
    ensures forall i :: 0 <= i < |test| ==>
      f.rows[|control| + i] == [test[i]] + ExtraRow(Aligned(controlVars, testVars), i) + [1.0, 1.0]
  {
    AlignedLengths(controlVars, testVars, |test|);
    ValuesOfLengths(controlVars, |control|);
    Frame(["value"] + Names(controlVars) + ["treated", "bias"],
          RowsWith(control, ValuesOf(controlVars), [0.0, 1.0]) + RowsWith(test, Aligned(controlVars, testVars), [1.0, 1.0]))
  }

  /** Every re-ordered test column is as long as the test sample. */
  lemma AlignedLengths(controlVars: seq<Series>, testVars: seq<Series>, n: nat)
    requires NameSet(controlVars) <= NameSet(testVars)
    requires forall v :: v in testVars ==> |v.values| == n
    ensures forall c :: c in Aligned(controlVars, testVars) ==> |c| == n
  {
    var aligned := Aligned(controlVars, testVars);
    forall c | c in aligned ensures |c| == n {
      var j :| 0 <= j < |aligned| && aligned[j] == c;
      var v :| v in testVars && v.name == controlVars[j].name && c == v.values;
    }
  }

  /** Every control column is as long as the control sample. */
  lemma ValuesOfLengths(vars: seq<Series>, n: nat)
    requires forall v :: v in vars ==> |v.values| == n
    ensures forall c :: c in ValuesOf(vars) ==> |c| == n
  {
  }

  /** The two assertions of `additional_vars_regression_test`, in order. */
  function AdditionalVarsGuard(controlVars: seq<Series>, testVars: seq<Series>): (o: Outcome)
    ensures o == Pass <==> |testVars| > 0 && NameSet(testVars) == NameSet(controlVars)
    ensures |testVars| == 0 ==> o == Fail(NoAdditionalVars)
    ensures |testVars| > 0 && NameSet(testVars) != NameSet(controlVars)
        ==> o == Fail(AdditionalVarsMismatch(NameSet(testVars), NameSet(controlVars)))
  {
    if |testVars| == 0 then Fail(NoAdditionalVars)
    else if NameSet(testVars) != NameSet(controlVars) then Fail(AdditionalVarsMismatch(NameSet(testVars), NameSet(controlVars)))
    else Pass
  }

  /** Names are compared as sets: order and repetition do not matter. */
  lemma GuardIgnoresOrder(controlVars: seq<Series>, testVars: seq<Series>, controlVars': seq<Series>, testVars': seq<Series>)
    requires NameSet(controlVars) == NameSet(controlVars') && NameSet(testVars) == NameSet(testVars')
    requires |testVars| > 0 <==> |testVars'| > 0
    ensures AdditionalVarsGuard(controlVars, testVars) == AdditionalVarsGuard(controlVars', testVars')
  {
  }

  /** `additional_vars_regression_test`: the guards, then the two frames must have the
      same number of rows, then the corrected p-value of `treated`. */
  function AdditionalVarsRegressionTest(control: seq<real>, controlVars: seq<Series>, test: seq<real>, testVars: seq<Series>,
                                        alternative: string, fit: PanelFit): (r: Result<real>)
    requires forall v :: v in controlVars ==> |v.values| == |control|
    requires forall v :: v in testVars ==> |v.values| == |test|
    ensures AdditionalVarsGuard(controlVars, testVars).Fail? ==> r == Err(AdditionalVarsGuard(controlVars, testVars).error)
    ensures AdditionalVarsGuard(controlVars, testVars).Pass? && |control| != |test| ==> r == Err(LengthMismatch(|control|, |test|))
    ensures AdditionalVarsGuard(controlVars, testVars).Pass? && |control| == |test| && !Stackable(controlVars, testVars)
        ==> r == Err(DuplicateLabels)
    ensures r.Ok? <==> AdditionalVarsGuard(controlVars, testVars).Pass? && |control| == |test| && Stackable(controlVars, testVars)
    ensures r.Ok? ==>
              && 0.0 <= r.value <= 1.0
              && var (coefficient, p) := fit(AdditionalVarsFrame(control, controlVars, test, testVars),
                                             AdditionalVarsFormula(testVars), "treated");
                 r.value == CorrectedRegressionPValue(coefficient, p, alternative)
  {
    var guard := AdditionalVarsGuard(controlVars, testVars);
    if guard.Fail? then Err(guard.error)
    else if |control| != |test| then Err(LengthMismatch(|control|, |test|))
    else if !Stackable(controlVars, testVars) then Err(DuplicateLabels)
    else
      var (coefficient, p) := fit(AdditionalVarsFrame(control, controlVars, test, testVars), AdditionalVarsFormula(testVars), "treated");
      CorrectedPValueBounds(coefficient, p, alternative);
      Ok(CorrectedRegressionPValue(coefficient, p, alternative))
  }
}
