/** `hello` and the deterministic skeleton of `generate_random_phenotype`.
    The random draws (the design matrix, the Poisson weights and bias) are
    inputs, and the noise step is the parameter `noise`. Arithmetic is on
    reals, not floating point. */
module ExampleFunctions {
  import opened Common

  /** The greeting `f"Hello, {name}!"`. */
  function Hello(name: string): (s: string)
    ensures |s| == |name| + 8
    ensures s[..7] == "Hello, " && s[7..|s| - 1] == name && s[|s| - 1] == '!'
  {
    "Hello, " + name + "!"
  }

  /** Who a greeting greets, if the string is a greeting at all. */
  function GreetedName(s: string): (name: Option<string>) {
    if |s| >= 8 && s[..7] == "Hello, " && s[|s| - 1] == '!' then Some(s[7..|s| - 1]) else None
  }

  /** Greeting and reading back the name are inverse: every name is
      recovered from its greeting, and every greeting is the greeting of
      the name read from it. */
  lemma GreetingRoundTrip(name: string, s: string)
    ensures GreetedName(Hello(name)) == Some(name)
    ensures GreetedName(s) == Some(name) ==> Hello(name) == s
  {
  }

  datatype NoiseKind = Gaussian | Poisson | Exponential | Uniform

  datatype PhenotypeError =
    | WeightsLengthMismatch   // supplied weights do not have one entry per variable
    | InvalidNoiseType        // `noise_type` names no known noise

  const NoiseTypeNames: set<string> := {"gaussian", "normal", "poisson", "exponential", "uniform"}

  /** The names that select each kind of noise. */
  function NoiseTypeAliases(k: NoiseKind): (names: set<string>)
    ensures names <= NoiseTypeNames
  {
    match k
    case Gaussian => {"gaussian", "normal"}
    case Poisson => {"poisson"}
    case Exponential => {"exponential"}
    case Uniform => {"uniform"}
  }

  /** The `noise_type` dispatch. */
  function ParseNoiseType(name: string): (r: Result<NoiseKind, PhenotypeError>)
    ensures r.Ok? <==> name in NoiseTypeNames
    ensures r.Ok? ==> name in NoiseTypeAliases(r.value)
    ensures r.Err? ==> r.error == InvalidNoiseType
  {
    if name == "gaussian" || name == "normal" then Ok(Gaussian)
    else if name == "poisson" then Ok(Poisson)
    else if name == "exponential" then Ok(Exponential)
    else if name == "uniform" then Ok(Uniform)
    else Err(InvalidNoiseType)
  }

  /** Every alias selects its own kind of noise; in particular "gaussian"
      and "normal" select the same branch. */
  lemma NoiseAliasesSelectTheirKind(k: NoiseKind, name: string)
    requires name in NoiseTypeAliases(k)
    ensures ParseNoiseType(name) == Ok(k)
    ensures ParseNoiseType("gaussian") == ParseNoiseType("normal") == Ok(Gaussian)
  {
  }

  /** `sum_{i<k} w[i] * row[i]`, accumulated in increasing i. */
  function LinearPart(w: seq<real>, row: seq<real>, k: nat): (sum: real)
    requires k <= |w| && k <= |row|
  {
    if k == 0 then 0.0 else LinearPart(w, row, k - 1) + w[k - 1] * row[k - 1]
  }

  /** Only the first k weights enter a k-term combination. */
  lemma {:induction false} LinearPartUsesPrefix(w: seq<real>, w': seq<real>, row: seq<real>, k: nat)
    requires k <= |w| && k <= |w'| && k <= |row|
    requires w[..k] == w'[..k]
    ensures LinearPart(w, row, k) == LinearPart(w', row, k)
  {
    if k > 0 {
      assert w[..k - 1] == w[..k][..k - 1];
      assert w'[..k - 1] == w'[..k][..k - 1];
      assert w[k - 1] == w[..k][k - 1];
      assert w'[k - 1] == w'[..k][k - 1];
      LinearPartUsesPrefix(w, w', row, k - 1);
    }
  }

  /** X has one row per sample and one column per variable, as the
      uniform draw produces it. */
  predicate IsDesign(X: seq<seq<real>>, numSamples: nat, numVars: nat) {
    |X| == numSamples && forall r :: 0 <= r < |X| ==> |X[r]| == numVars
  }

  /** The noiseless phenotype, row by row: each sample's weighted sum of
      its variables plus the bias. */
  function Predicted(X: seq<seq<real>>, w: seq<real>, bias: real, k: nat): (p: seq<real>)
    requires k <= |w|
    requires forall r :: 0 <= r < |X| ==> k <= |X[r]|
    ensures |p| == |X|
  {
    seq(|X|, r requires 0 <= r < |X| => LinearPart(w, X[r], k) + bias)
  }

  /** The noiseless phenotype as the source computes it: start from zeros,
      add one weighted column per variable to every sample, then the bias. */
  method NoiselessPhenotype(X: seq<seq<real>>, w: seq<real>, bias: real, numVars: nat) returns (p: seq<real>)
    requires numVars <= |w|
    requires forall r :: 0 <= r < |X| ==> numVars <= |X[r]|
    ensures |p| == |X|
    ensures forall r :: 0 <= r < |X| ==> p[r] == LinearPart(w, X[r], numVars) + bias
  {
    p := seq(|X|, r => 0.0);
    var i := 0;
    while i < numVars
      invariant 0 <= i <= numVars
      invariant |p| == |X|
      invariant forall r :: 0 <= r < |X| ==> p[r] == LinearPart(w, X[r], i)
    {
      var column := seq(|X|, r requires 0 <= r < |X| => X[r][i]);
      var prev := p;
      p := seq(|prev|, r requires 0 <= r < |prev| => prev[r] + w[i] * column[r]);
      i := i + 1;
    }
    var prev := p;
    p := seq(|prev|, r requires 0 <= r < |prev| => prev[r] + bias);
  }

  /** The whole generator: the weights check, the noiseless combination,
      then the noise dispatch. Weights drawn internally number one more
      than the variables; only the first `numVars` are used. */
  method GeneratePhenotype(numSamples: nat, numVars: nat, X: seq<seq<real>>,
                           weights: Option<seq<real>>, drawnWeights: seq<real>,
                           bias: Option<real>, drawnBias: real,
                           noiseLevel: real, noiseType: string,
                           noise: (NoiseKind, real, seq<real>) -> seq<real>)
    returns (r: Result<(seq<seq<real>>, seq<real>), PhenotypeError>)
    requires IsDesign(X, numSamples, numVars)
    requires weights.None? ==> |drawnWeights| == numVars + 1
    ensures weights.Some? && |weights.value| != numVars ==> r == Err(WeightsLengthMismatch)
    ensures !(weights.Some? && |weights.value| != numVars) ==>
      (r.Ok? <==> noiseType in NoiseTypeNames)
    ensures r.Err? && noiseType in NoiseTypeNames ==> r.error == WeightsLengthMismatch
    ensures !(weights.Some? && |weights.value| != numVars) && noiseType !in NoiseTypeNames ==>
      r == Err(InvalidNoiseType)
    ensures r.Ok? ==>
      && noiseType in NoiseTypeNames
      && var w := if weights.Some? then weights.value else drawnWeights[..numVars];
      && var b := if bias.Some? then bias.value else drawnBias;
      && |w| == numVars
      && r.value.0 == X
      && r.value.1 == noise(ParseNoiseType(noiseType).value, noiseLevel, Predicted(X, w, b, numVars))
  {
    var w: seq<real>;
    if weights.None? {
      w := drawnWeights;
    } else {
      if |weights.value| != numVars {
        return Err(WeightsLengthMismatch);
      }
      w := weights.value;
    }
    var b := if bias.Some? then bias.value else drawnBias;
    var p := NoiselessPhenotype(X, w, b, numVars);
    var used := if weights.Some? then weights.value else drawnWeights[..numVars];
    forall row | 0 <= row < |X|
      ensures p[row] == Predicted(X, used, b, numVars)[row]
    {
      LinearPartUsesPrefix(w, used, X[row], numVars);
    }
    assert p == Predicted(X, used, b, numVars);
    match ParseNoiseType(noiseType)
    case Err(e) =>
      return Err(e);
    case Ok(kind) =>
      return Ok((X, noise(kind, noiseLevel, p)));
  }
}
