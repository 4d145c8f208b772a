/** The `noise` argument check shared by the synthetic signals
    (`Syn2DRings`, `ArraySynGauss`, `ArraySynLocator`): a value outside
    `'poisson'`, `'uniform'` and `None` is refused with `ValueError`. The
    noise generators themselves are floating point and are not modelled;
    `None` stands for Python's `None`. */
module NoiseArgs {
  import opened Wrappers

  datatype Noise = Poisson | Uniform | NoNoise

  /** `ValueError("Noise must be one of 'poisson', 'uniform', None")`. */
  datatype NoiseError = BadNoise

  /** The argument that selects `n`. */
  function NoiseArg(n: Noise): Option<string> {
    match n
    case Poisson => Some("poisson")
    case Uniform => Some("uniform")
    case NoNoise => None
  }

  /** The constructors' check: accepts exactly the three admitted values. */
  function CheckNoise(arg: Option<string>): (r: Result<Noise, NoiseError>)
    ensures r.Success? <==> arg == None || arg == Some("poisson") || arg == Some("uniform")
    ensures r.Failure? ==> r.error == BadNoise
  {
    match arg
    case None => Success(NoNoise)
    case Some(s) =>
      if s == "poisson" then Success(Poisson)
      else if s == "uniform" then Success(Uniform)
      else Failure(BadNoise)
  }

  /** Every accepted argument selects the noise it names, and every noise
      kind has exactly one accepted argument. */
  lemma CheckNoiseRoundTrip(arg: Option<string>, n: Noise)
    ensures CheckNoise(NoiseArg(n)) == Success(n)
    ensures CheckNoise(arg).Success? ==> NoiseArg(CheckNoise(arg).value) == arg
  {
  }

  /** Matching is exact: a differently cased name is refused. */
  lemma CaseMatters()
    ensures CheckNoise(Some("Poisson")).Failure?
    ensures CheckNoise(Some("")).Failure?
  {
    assert "Poisson" != "poisson";
    assert "Poisson" != "uniform";
  }
}
