/** Values shared by every part of the model: the errors the Python code raises,
    failure-carrying results, probabilities and the alternative hypothesis. */
module Common {

  /** The exceptions the modelled code raises, one constructor per cause. */
  datatype Error =
    | UnknownTestName(name: string)              // AssertionError: name not in the registry
    | ZeroExperiments                            // ZeroDivisionError: experiments_num == 0
    | TooFewSamples(df: int)                     // ValueError in ttest: n1 + n2 - 2 < 1
    | UnknownAlternative(alternative: string)    // ValueError: not less / greater / two-sided
    | NoAdditionalVars                           // AssertionError: empty test additional-var list
    | AdditionalVarsMismatch(testNames: set<string>, controlNames: set<string>) // AssertionError
    | LengthMismatch(controlRows: nat, testRows: nat) // ValueError: control_df.index = test_df.index
    | EmptyVariable                              // ValueError: drawing indices from an empty series
    | MissingSeries(parameter: string)           // AttributeError / TypeError: optional series is None
    | KeyNotFound(series: string)                // KeyError: auxiliary series does not cover a drawn key
    | InvalidProbability(p: real)                // ValueError from np.random.binomial
    | WrongArity(given: nat, accepted: nat)      // TypeError: wrong number of positional arguments
    | NotANumber(position: nat)                  // TypeError: arithmetic on a non-numeric argument
    | ZeroObjects                                // ZeroDivisionError: objects_num == 0
    | EmptyGroup                                 // ZeroDivisionError: a test divides by a group size of zero
    | DuplicateLabels                            // pandas InvalidIndexError: reindexing on repeated column names

  datatype Result<+T> = Ok(value: T) | Err(error: Error)

  /** Outcome of a call that returns None in Python or raises. */
  datatype Outcome = Pass | Fail(error: Error)

  type Probability = r: real | 0.0 <= r <= 1.0

  /** The three alternative hypotheses the tests accept. */
  datatype Side = Less | Greater | TwoSided

  /** The string spelling of an alternative, as the Python code compares it. */
  function SideName(s: Side): string
  {
    match s
    case Less => "less"
    case Greater => "greater"
    case TwoSided => "two-sided"
  }

  /** Recognises an alternative hypothesis string; anything else is unknown. */
  function ParseSide(alternative: string): (r: Option<Side>)
    ensures r.Some? ==> SideName(r.value) == alternative
    ensures r.None? ==> forall s: Side :: SideName(s) != alternative
  {
    if alternative == "less" then Some(Less)
    else if alternative == "greater" then Some(Greater)
    else if alternative == "two-sided" then Some(TwoSided)
    else None
  }

  datatype Option<+T> = None | Some(value: T)

  /** Both groups of a simulated experiment. */
  datatype Group = Control | Treatment
}
