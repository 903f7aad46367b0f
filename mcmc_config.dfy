/** The settings of the Markov-chain solver (`MCMC::setConfiguration`): each
    value is taken from the configuration document under its key, from a
    default when the key is absent, or the configuration is refused. */
module McmcConfig {
  import opened Wrappers
  import opened Json

  datatype Settings = Settings(
    resultOutputFrequency: nat,
    chainLength: nat,
    burnIn: nat,
    rejectionLevels: nat,
    useAdaptiveSampling: bool,
    nonAdaptionPeriod: nat,
    chainCovarianceScaling: real,
    chainCovarianceIncrement: real,
    maxFunctionEvaluations: nat,
    maxFunctionEvaluationsEnabled: bool,
    initialMeans: seq<real>,
    standardDeviations: seq<real>,
    logSpaces: seq<bool>)

  /** What an accepted configuration guarantees, for `n` variables. */
  predicate Valid(s: Settings, n: nat)
  {
    && s.rejectionLevels >= 1
    && s.chainCovarianceScaling >= 0.0
    && s.chainCovarianceIncrement >= 0.0
    && |s.initialMeans| == n && |s.standardDeviations| == n && |s.logSpaces| == n
    && (forall d :: 0 <= d < n ==> s.standardDeviations[d] >= 0.0)
  }

  const DefaultResultOutputFrequency: nat := 100
  const DefaultBurnIn: nat := 0
  const DefaultRejectionLevels: nat := 1
  const DefaultChainCovarianceIncrement: real := 0.001
  const DefaultMaxFunctionEvaluations: nat := 1000000

  /** Gelman et al. 1995: `2.4^2 / N`. */
  function DefaultScaling(n: nat): (r: real)
    requires n > 0
    ensures r > 0.0
  {
    2.4 * 2.4 / (n as real)
  }

  /** The default handed to `consume` for the covariance scaling. With no
      variables, 2.4²/0 is not a finite number, and there is no default. */
  function ScalingDefault(n: nat): (r: Option<real>)
    ensures r.Some? <==> n > 0
    ensures r.Some? ==> r.value == DefaultScaling(n) && r.value > 0.0
  {
    if n > 0 then Some(DefaultScaling(n)) else None
  }

  /** 5% of the chain length, as a count. */
  function DefaultNonAdaptionPeriod(chainLength: nat): (r: nat)
    ensures 20 * r <= chainLength < 20 * (r + 1)
  {
    chainLength / 20
  }

  // The typed reads of `consume`: a present value of the wrong kind, or a
  // missing one without a default, refuses the configuration.

  function ConsumeNumber(js: Json, path: seq<string>, default: Option<real>): (r: Result<real>)
    ensures Lookup(js, path).Some? && Lookup(js, path).value.JNum? ==> r == Ok(Lookup(js, path).value.x)
    ensures Lookup(js, path).None? ==> (r.Ok? <==> default.Some?) && (default.Some? ==> r.value == default.value)
    ensures Lookup(js, path).Some? && !Lookup(js, path).value.JNum? ==> r.Err?
  {
    match Lookup(js, path)
    case None => if default.Some? then Ok(default.value) else Err("missing mandatory setting")
    case Some(JNum(x)) => Ok(x)
    case Some(_) => Err("setting is not a number")
  }

  /** An unsigned count: a number read into `size_t` drops its fraction. */
  function ConsumeCount(js: Json, path: seq<string>, default: Option<nat>): (r: Result<nat>)
    ensures Lookup(js, path).Some? && Lookup(js, path).value.JNum? && Lookup(js, path).value.x >= 0.0 ==>
            r == Ok(Lookup(js, path).value.x.Floor as nat)
    ensures Lookup(js, path).None? ==> (r.Ok? <==> default.Some?) && (default.Some? ==> r.value == default.value)
    ensures Lookup(js, path).Some? && !(Lookup(js, path).value.JNum? && Lookup(js, path).value.x >= 0.0) ==> r.Err?
  {
    match Lookup(js, path)
    case None => if default.Some? then Ok(default.value) else Err("missing mandatory setting")
    case Some(JNum(x)) => if x >= 0.0 then Ok(x.Floor as nat) else Err("setting is not an unsigned number")
    case Some(_) => Err("setting is not a number")
  }

  function ConsumeBool(js: Json, path: seq<string>, default: Option<bool>): (r: Result<bool>)
    ensures Lookup(js, path).Some? && Lookup(js, path).value.JBool? ==> r == Ok(Lookup(js, path).value.b)
    ensures Lookup(js, path).None? ==> (r.Ok? <==> default.Some?) && (default.Some? ==> r.value == default.value)
    ensures Lookup(js, path).Some? && !Lookup(js, path).value.JBool? ==> r.Err?
  {
    match Lookup(js, path)
    case None => if default.Some? then Ok(default.value) else Err("missing mandatory setting")
    case Some(JBool(b)) => Ok(b)
    case Some(_) => Err("setting is not a boolean")
  }

  /** The per-variable settings document `js["Variables"][d]`. */
  function Variable(js: Json, d: nat): Json
  {
    match Lookup(js, ["Variables"])
    case Some(vs) => if vs.JArr? && d < |vs.items| then vs.items[d] else JNull
    case None => JNull
  }

  /** The numbers under `path` of variables `0 .. n-1`, in order; the first
      variable that fails refuses the configuration. */
  function ConsumeVariableNumbers(js: Json, n: nat, path: seq<string>, default: Option<real>): (r: Result<seq<real>>)
    ensures r.Ok? ==> |r.value| == n
    ensures r.Ok? <==> forall d :: 0 <= d < n ==> ConsumeNumber(Variable(js, d), path, default).Ok?
    ensures r.Ok? ==> forall d :: 0 <= d < n ==> r.value[d] == ConsumeNumber(Variable(js, d), path, default).value
  {
    if n == 0 then Ok([])
    else
      var init := ConsumeVariableNumbers(js, n - 1, path, default);
      var last := ConsumeNumber(Variable(js, n - 1), path, default);
      if init.Err? then init
      else if last.Err? then Err(last.msg)
      else Ok(init.value + [last.value])
  }

  function ConsumeVariableBools(js: Json, n: nat, path: seq<string>, default: Option<bool>): (r: Result<seq<bool>>)
    ensures r.Ok? ==> |r.value| == n
    ensures r.Ok? <==> forall d :: 0 <= d < n ==> ConsumeBool(Variable(js, d), path, default).Ok?
    ensures r.Ok? ==> forall d :: 0 <= d < n ==> r.value[d] == ConsumeBool(Variable(js, d), path, default).value
  {
    if n == 0 then Ok([])
    else
      var init := ConsumeVariableBools(js, n - 1, path, default);
      var last := ConsumeBool(Variable(js, n - 1), path, default);
      if init.Err? then init
      else if last.Err? then Err(last.msg)
      else Ok(init.value + [last.value])
  }

  /** The index of the first negative entry, if any. */
  function FirstNegative(xs: seq<real>): (r: Option<nat>)
    ensures r.None? <==> forall d :: 0 <= d < |xs| ==> xs[d] >= 0.0
    ensures r.Some? ==> r.value < |xs| && xs[r.value] < 0.0 && forall d :: 0 <= d < r.value ==> xs[d] >= 0.0
  {
    if xs == [] then None
    else if xs[0] < 0.0 then Some(0)
    else match FirstNegative(xs[1..])
      case None => None
      case Some(i) => Some(i + 1)
  }

  const Key := ["MCMC"]
  const MaxFunctionEvaluationsKey := ["MCMC", "Termination Criteria", "Max Function Evaluations"]

  /** The settings for `n` variables, read in the order of the source. */
  function SetConfiguration(js: Json, n: nat): (r: Result<Settings>)
    ensures r.Ok? ==> Valid(r.value, n)
    ensures r.Ok? && Lookup(js, Key + ["Result Output Frequency"]).None? ==> r.value.resultOutputFrequency == DefaultResultOutputFrequency
    ensures r.Ok? && Lookup(js, Key + ["Burn In"]).None? ==> r.value.burnIn == DefaultBurnIn
    ensures r.Ok? && Lookup(js, Key + ["Rejection Levels"]).None? ==> r.value.rejectionLevels == DefaultRejectionLevels
    ensures r.Ok? && Lookup(js, Key + ["Use Adaptive Sampling"]).None? ==> !r.value.useAdaptiveSampling
    ensures r.Ok? && Lookup(js, Key + ["Non Adaption Period"]).None? ==>
            r.value.nonAdaptionPeriod == DefaultNonAdaptionPeriod(r.value.chainLength)
    ensures r.Ok? && Lookup(js, Key + ["Chain Covariance Scaling"]).None? ==>
            n > 0 && r.value.chainCovarianceScaling == DefaultScaling(n)
    ensures n == 0 && Lookup(js, Key + ["Chain Covariance Scaling"]).None? ==> r.Err?
    ensures r.Ok? && Lookup(js, Key + ["Chain Covariance Increment"]).None? ==>
            r.value.chainCovarianceIncrement == DefaultChainCovarianceIncrement
    ensures r.Ok? && Lookup(js, MaxFunctionEvaluationsKey + ["Value"]).None? ==>
            r.value.maxFunctionEvaluations == DefaultMaxFunctionEvaluations
    ensures r.Ok? && Lookup(js, MaxFunctionEvaluationsKey + ["Active"]).None? ==> !r.value.maxFunctionEvaluationsEnabled
    ensures r.Ok? ==> forall d :: 0 <= d < n && Lookup(Variable(js, d), Key + ["Log Space"]).None? ==> !r.value.logSpaces[d]
    ensures Lookup(js, Key + ["Chain Length"]).None? ==> r.Err?
  {
    var frequency :- ConsumeCount(js, Key + ["Result Output Frequency"], Some(DefaultResultOutputFrequency));
    var chainLength :- ConsumeCount(js, Key + ["Chain Length"], None);
    var burnIn :- ConsumeCount(js, Key + ["Burn In"], Some(DefaultBurnIn));
    var levels :- ConsumeCount(js, Key + ["Rejection Levels"], Some(DefaultRejectionLevels));
    if levels < 1 then Err("Rejection Level must be at least One")
    else
    var adaptive :- ConsumeBool(js, Key + ["Use Adaptive Sampling"], Some(false));
    var period :- ConsumeCount(js, Key + ["Non Adaption Period"], Some(DefaultNonAdaptionPeriod(chainLength)));
    var scaling :- ConsumeNumber(js, Key + ["Chain Covariance Scaling"], ScalingDefault(n));
    var increment :- ConsumeNumber(js, Key + ["Chain Covariance Increment"], Some(DefaultChainCovarianceIncrement));
    if scaling < 0.0 then Err("Chain Covariance Learning Rate must be larger Zero")
    else if increment < 0.0 then Err("Chain Covariance Increment must be larger Zero")
    else
    var maxEvaluations :- ConsumeCount(js, MaxFunctionEvaluationsKey + ["Value"], Some(DefaultMaxFunctionEvaluations));
    var maxEnabled :- ConsumeBool(js, MaxFunctionEvaluationsKey + ["Active"], Some(false));
    var means :- ConsumeVariableNumbers(js, n, Key + ["Initial Mean"], None);
    var deviations :- ConsumeVariableNumbers(js, n, Key + ["Standard Deviation"], None);
    var logSpaces :- ConsumeVariableBools(js, n, Key + ["Log Space"], Some(false));
    if FirstNegative(deviations).Some? then Err("Initial Standard Deviation must be larger Zero")
    else Ok(Settings(frequency, chainLength, burnIn, levels, adaptive, period, scaling, increment,
                     maxEvaluations, maxEnabled, means, deviations, logSpaces))
  }

  predicate NegativeNumber(v: Option<Json>)
  {
    v.Some? && v.value.JNum? && v.value.x < 0.0
  }

  /** The refusals of scalar settings: fewer than one rejection level, or a
      negative covariance scaling or increment. */
  lemma ConfigurationRefused(js: Json, n: nat)
    ensures (var v := Lookup(js, Key + ["Rejection Levels"]); v.Some? && v.value.JNum? && v.value.x < 1.0)
            ==> SetConfiguration(js, n).Err?
    ensures (var v := Lookup(js, Key + ["Chain Covariance Scaling"]); v.Some? && v.value.JNum? && v.value.x < 0.0)
            ==> SetConfiguration(js, n).Err?
    ensures (var v := Lookup(js, Key + ["Chain Covariance Increment"]); v.Some? && v.value.JNum? && v.value.x < 0.0)
            ==> SetConfiguration(js, n).Err?
  {
  }

  /** The refusals of per-variable settings: a negative standard deviation or
      a missing initial mean. */
  lemma VariableRefused(js: Json, n: nat)
    ensures (exists d :: 0 <= d < n && NegativeNumber(Lookup(Variable(js, d), Key + ["Standard Deviation"])))
            ==> SetConfiguration(js, n).Err?
    ensures (exists d :: 0 <= d < n && Lookup(Variable(js, d), Key + ["Initial Mean"]).None?)
            ==> SetConfiguration(js, n).Err?
  {
    if SetConfiguration(js, n).Ok? {
      AcceptedVariables(js, n);
      var deviations := ConsumeVariableNumbers(js, n, Key + ["Standard Deviation"], None).value;
      forall d | 0 <= d < n
        ensures !NegativeNumber(Lookup(Variable(js, d), Key + ["Standard Deviation"]))
        ensures Lookup(Variable(js, d), Key + ["Initial Mean"]).Some?
      {
        assert deviations[d] >= 0.0;
      }
    }
  }

  /** An accepted configuration read every initial mean and standard
      deviation, and found no negative deviation. */
  lemma AcceptedVariables(js: Json, n: nat)
    requires SetConfiguration(js, n).Ok?
    ensures ConsumeVariableNumbers(js, n, Key + ["Initial Mean"], None).Ok?
    ensures ConsumeVariableNumbers(js, n, Key + ["Standard Deviation"], None).Ok?
    ensures FirstNegative(ConsumeVariableNumbers(js, n, Key + ["Standard Deviation"], None).value).None?
  {
    hide ConsumeVariableNumbers, ConsumeVariableBools, FirstNegative, ConsumeNumber, ConsumeCount, ConsumeBool;
  }

  /** A document that sets only the mandatory values (a chain length, and an
      initial mean and a non-negative standard deviation per variable) is
      accepted, with every other setting at its default, exactly when there
      is at least one variable: without one the covariance scaling has no
      default. */
  lemma MandatoryOnlyAccepted(js: Json, n: nat, chainLength: real)
    requires chainLength >= 0.0
    requires Lookup(js, Key) == Some(JObj(map["Chain Length" := JNum(chainLength)]))
    requires forall d :: 0 <= d < n ==>
               && Lookup(Variable(js, d), Key + ["Initial Mean"]).Some?
               && Lookup(Variable(js, d), Key + ["Initial Mean"]).value.JNum?
               && Lookup(Variable(js, d), Key + ["Standard Deviation"]).Some?
               && Lookup(Variable(js, d), Key + ["Standard Deviation"]).value.JNum?
               && Lookup(Variable(js, d), Key + ["Standard Deviation"]).value.x >= 0.0
               && Lookup(Variable(js, d), Key + ["Log Space"]).None?
    ensures SetConfiguration(js, n).Ok? <==> n > 0
    ensures n > 0 ==> var s := SetConfiguration(js, n).value;
            && s.chainLength == chainLength.Floor
            && s.resultOutputFrequency == 100 && s.burnIn == 0 && s.rejectionLevels == 1
            && !s.useAdaptiveSampling && s.nonAdaptionPeriod == s.chainLength / 20
            && s.chainCovarianceIncrement == 0.001 && !s.maxFunctionEvaluationsEnabled
            && s.maxFunctionEvaluations == 1000000
            && s.logSpaces == seq(n, d => false)
  {
    if n == 0 {
      OnlyChainLength(js, chainLength);
      return;
    }
    var c: nat := chainLength.Floor as nat;
    ScalarDefaults(js, n, chainLength);
    var means := ConsumeVariableNumbers(js, n, Key + ["Initial Mean"], None);
    var deviations := ConsumeVariableNumbers(js, n, Key + ["Standard Deviation"], None);
    var logSpaces := ConsumeVariableBools(js, n, Key + ["Log Space"], Some(false));
    VariableDefaults(js, n);
    hide ConsumeCount, ConsumeNumber, ConsumeBool, ConsumeVariableNumbers, ConsumeVariableBools, FirstNegative;
    assert SetConfiguration(js, n)
           == Ok(Settings(100, c, 0, 1, false, c / 20, DefaultScaling(n), 0.001, 1000000, false,
                          means.value, deviations.value, logSpaces.value));
  }

  /** Under a solver object holding only the chain length, every scalar
      setting is read as its default. */
  lemma ScalarDefaults(js: Json, n: nat, chainLength: real)
    requires n > 0 && chainLength >= 0.0
    requires Lookup(js, Key) == Some(JObj(map["Chain Length" := JNum(chainLength)]))
    ensures ConsumeCount(js, Key + ["Result Output Frequency"], Some(DefaultResultOutputFrequency)) == Ok(100)
    ensures ConsumeCount(js, Key + ["Chain Length"], None) == Ok(chainLength.Floor as nat)
    ensures ConsumeCount(js, Key + ["Burn In"], Some(DefaultBurnIn)) == Ok(0)
    ensures ConsumeCount(js, Key + ["Rejection Levels"], Some(DefaultRejectionLevels)) == Ok(1)
    ensures ConsumeBool(js, Key + ["Use Adaptive Sampling"], Some(false)) == Ok(false)
    ensures ConsumeCount(js, Key + ["Non Adaption Period"], Some(DefaultNonAdaptionPeriod(chainLength.Floor as nat)))
            == Ok((chainLength.Floor as nat) / 20)
    ensures ConsumeNumber(js, Key + ["Chain Covariance Scaling"], ScalingDefault(n)) == Ok(DefaultScaling(n))
    ensures ConsumeNumber(js, Key + ["Chain Covariance Increment"], Some(DefaultChainCovarianceIncrement)) == Ok(0.001)
    ensures ConsumeCount(js, MaxFunctionEvaluationsKey + ["Value"], Some(DefaultMaxFunctionEvaluations)) == Ok(1000000)
    ensures ConsumeBool(js, MaxFunctionEvaluationsKey + ["Active"], Some(false)) == Ok(false)
  {
    OnlyChainLength(js, chainLength);
  }

  /** Under a solver object holding only the chain length, every other
      solver key is absent. */
  lemma OnlyChainLength(js: Json, chainLength: real)
    requires Lookup(js, Key) == Some(JObj(map["Chain Length" := JNum(chainLength)]))
    ensures forall k: string :: k != "Chain Length" ==> Lookup(js, Key + [k]) == None
    ensures Lookup(js, Key + ["Chain Length"]) == Some(JNum(chainLength))
    ensures Lookup(js, MaxFunctionEvaluationsKey + ["Value"]) == None
    ensures Lookup(js, MaxFunctionEvaluationsKey + ["Active"]) == None
  {
    forall k: string | k != "Chain Length" ensures Lookup(js, Key + [k]) == None {
      LookupAppend(js, Key, k);
    }
    LookupAppend(js, Key, "Chain Length");
    LookupAppend(js, Key, "Termination Criteria");
    assert Lookup(js, MaxFunctionEvaluationsKey + ["Value"]) == None by {
      LookupPrefix(js, Key + ["Termination Criteria"], ["Max Function Evaluations", "Value"]);
    }
    assert Lookup(js, MaxFunctionEvaluationsKey + ["Active"]) == None by {
      LookupPrefix(js, Key + ["Termination Criteria"], ["Max Function Evaluations", "Active"]);
    }
  }

  /** Per-variable means and non-negative deviations are read, and every
      absent log-space flag is false. */
  lemma VariableDefaults(js: Json, n: nat)
    requires forall d :: 0 <= d < n ==>
               && Lookup(Variable(js, d), Key + ["Initial Mean"]).Some?
               && Lookup(Variable(js, d), Key + ["Initial Mean"]).value.JNum?
               && Lookup(Variable(js, d), Key + ["Standard Deviation"]).Some?
               && Lookup(Variable(js, d), Key + ["Standard Deviation"]).value.JNum?
               && Lookup(Variable(js, d), Key + ["Standard Deviation"]).value.x >= 0.0
               && Lookup(Variable(js, d), Key + ["Log Space"]).None?
    ensures ConsumeVariableNumbers(js, n, Key + ["Initial Mean"], None).Ok?
    ensures ConsumeVariableNumbers(js, n, Key + ["Standard Deviation"], None).Ok?
    ensures FirstNegative(ConsumeVariableNumbers(js, n, Key + ["Standard Deviation"], None).value).None?
    ensures ConsumeVariableBools(js, n, Key + ["Log Space"], Some(false)) == Ok(seq(n, d => false))
  {
    var deviations := ConsumeVariableNumbers(js, n, Key + ["Standard Deviation"], None);
    var logSpaces := ConsumeVariableBools(js, n, Key + ["Log Space"], Some(false));
    assert deviations.Ok?;
    assert FirstNegative(deviations.value).None?;
    assert logSpaces.value == seq(n, d => false);
  }

  lemma LookupAppend(js: Json, path: seq<string>, k: string)
    requires Lookup(js, path).Some?
    ensures Lookup(js, path + [k]) == Lookup(Lookup(js, path).value, [k])
    decreases |path|
  {
    if path != [] {
      assert (path + [k])[1..] == path[1..] + [k];
      if js.JObj? && path[0] in js.fields {
        LookupAppend(js.fields[path[0]], path[1..], k);
      }
    }
  }

  lemma LookupPrefix(js: Json, path: seq<string>, rest: seq<string>)
    requires Lookup(js, path).None?
    ensures Lookup(js, path + rest).None?
    decreases |path|
  {
    if path != [] {
      assert (path + rest)[1..] == path[1..] + rest;
      if js.JObj? && path[0] in js.fields {
        LookupPrefix(js.fields[path[0]], path[1..], rest);
      }
    }
  }
}
