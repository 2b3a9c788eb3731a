/**
 * `expectedReturn` of Algorithms/Functions/ExpectedReturn.py: the offline
 * reference for a learner's prediction. In its `'normal'` mode it computes,
 * for every start index i, the discounted sum of the next `timeStep` samples,
 * scaled by (1 - gamma), over the horizon `timeStep = int(5 / (1 - gamma))`.
 */
module ExpectedReturns {
  import opened Outcomes
  import opened RealSeqs

  /** Python's `int()` on a float: the integer part, truncated toward zero. */
  function Truncate(r: real): (n: int)
    ensures r >= 0.0 ==> n as real <= r < n as real + 1.0
    ensures r < 0.0 ==> n as real - 1.0 < r <= n as real
  {
    if r >= 0.0 then r.Floor else -((-r).Floor)
  }

  /** `timeStep = int(5 * 1 / (1 - gamma))`, five time constants of the discount. */
  function Horizon(gamma: real): int
    requires gamma != 1.0
  {
    Truncate(5.0 / (1.0 - gamma))
  }

  /** For a discount in [0, 1) the horizon is at least five samples. */
  lemma HorizonAtLeastFive(gamma: real)
    requires 0.0 <= gamma < 1.0
    ensures Horizon(gamma) >= 5
  {
    var d := 1.0 - gamma;
    var q := 5.0 / d;
    assert q * d == 5.0;
  }

  /** `gamma ** k * data[i + k]`: sample i + k discounted by k steps. */
  function Term(data: seq<real>, i: nat, k: nat, gamma: real): real
    requires i + k < |data|
  {
    Pow(gamma, k) * data[i + k]
  }

  /** `sum_{k < horizon} gamma^k * data[i + k]`: the unscaled return from index i. */
  function DiscountedSum(data: seq<real>, i: nat, horizon: nat, gamma: real): real
    requires i + horizon <= |data|
  {
    if horizon == 0 then 0.0
    else DiscountedSum(data, i, horizon - 1, gamma) + Term(data, i, horizon - 1, gamma)
  }

  /** The `term` array filled by the inner loop sums to the discounted sum. */
  lemma {:induction false} SumOfTerms(term: seq<real>, data: seq<real>, i: nat, gamma: real)
    requires i + |term| <= |data|
    requires forall k :: 0 <= k < |term| ==> term[k] == Term(data, i, k, gamma)
    ensures Sum(term) == DiscountedSum(data, i, |term|, gamma)
  {
    if term != [] {
      SumOfTerms(term[..|term| - 1], data, i, gamma);
    }
  }

  /** Errors `expectedReturn` raises. */
  datatype ReturnError =
    | ZeroDivision              // gamma == 1: `5 * 1 / (1 - gamma)` divides by zero
    | NegativeDimension         // `np.zeros` or `np.linspace` with a negative size
    | EmptyOperand              // `np.convolve` with an empty signal or an empty decay kernel
    | UnknownMethod(name: string)  // the `TypeError` of the final branch

  /** What a successful call returns. */
  datatype Returns =
    | Normal(values: seq<real>)  // the `'normal'` branch
    | Convolved                  // the `'conv'` branch: an `np.convolve` result, not modelled

  /** The inner loop: `term[k] = gamma ** k * data[i + k]` for k < timeStep. */
  method Terms(data: seq<real>, gamma: real, i: nat, timeStep: nat) returns (term: array<real>)
    requires i + timeStep <= |data|
    ensures fresh(term) && term.Length == timeStep
    ensures forall k :: 0 <= k < timeStep ==> term[k] == Term(data, i, k, gamma)
  {
    term := new real[timeStep];
    for k := 0 to timeStep
      invariant forall q :: 0 <= q < k ==> term[q] == Term(data, i, q, gamma)
    {
      term[k] := Pow(gamma, k) * data[i + k];
    }
  }

  /**
   * The nested loops of the `'normal'` branch for a horizon that fits the
   * data: one entry per start index i < len(data) - timeStep, namely
   * (1 - gamma) * sum_{k < timeStep} gamma^k * data[i + k].
   */
  method DiscountedReturns(data: seq<real>, gamma: real, timeStep: nat) returns (values: seq<real>)
    requires timeStep <= |data|
    ensures |values| == |data| - timeStep
    ensures forall i :: 0 <= i < |values| ==> values[i] == (1.0 - gamma) * DiscountedSum(data, i, timeStep, gamma)
  {
    var lenData := |data| - timeStep;
    var expected := new real[lenData];
    for i := 0 to lenData
      invariant forall m :: 0 <= m < i ==> expected[m] == DiscountedSum(data, m, timeStep, gamma)
    {
      var term := Terms(data, gamma, i, timeStep);
      SumOfTerms(term[..], data, i, gamma);
      expected[i] := Sum(term[..]);
    }
    values := seq(lenData, m requires 0 <= m < lenData reads expected => expected[m] * (1.0 - gamma));
  }

  /**
   * `expectedReturn(data, gamma, method)`: dispatch on the method name, with
   * the exceptions Python raises for gamma == 1, a negative size and an
   * empty operand of the convolution.
   */
  method ExpectedReturn(data: seq<real>, gamma: real, mode: string) returns (r: Result<Returns, ReturnError>)
    ensures mode != "conv" && mode != "normal" ==> r == Err(UnknownMethod(mode))
    ensures (mode == "conv" || mode == "normal") && gamma == 1.0 ==> r == Err(ZeroDivision)
    ensures mode == "conv" && gamma != 1.0 ==>
      r == (if Horizon(gamma) < 0 then Err(NegativeDimension)
            else if Horizon(gamma) == 0 || |data| == 0 then Err(EmptyOperand)
            else Ok(Convolved))
    ensures mode == "normal" && gamma != 1.0 && !(0 <= Horizon(gamma) <= |data|) ==>
      r == Err(NegativeDimension)
    ensures mode == "normal" && gamma != 1.0 && 0 <= Horizon(gamma) <= |data| ==>
      r.Ok? && r.value.Normal? && |r.value.values| == |data| - Horizon(gamma)
      && forall i :: 0 <= i < |r.value.values| ==>
           r.value.values[i] == (1.0 - gamma) * DiscountedSum(data, i, Horizon(gamma), gamma)
  {
    if mode == "conv" {
      if gamma == 1.0 {
        return Err(ZeroDivision);
      }
      var timeStep := Horizon(gamma);
      if timeStep < 0 {
        return Err(NegativeDimension);
      }
      // `np.linspace(0, 0, 0)` is an empty kernel, and `np.convolve` refuses empty operands.
      if timeStep == 0 || |data| == 0 {
        return Err(EmptyOperand);
      }
      return Ok(Convolved);
    } else if mode == "normal" {
      if gamma == 1.0 {
        return Err(ZeroDivision);
      }
      var timeStep := Horizon(gamma);
      if |data| - timeStep < 0 || timeStep < 0 {
        return Err(NegativeDimension);
      }
      var values := DiscountedReturns(data, gamma, timeStep);
      return Ok(Normal(values));
    } else {
      return Err(UnknownMethod(mode));
    }
  }

  /**
   * A constant signal v yields v * (1 - gamma^timeStep) at every index: the
   * truncated geometric series, not v itself.
   */
  lemma {:induction false} ConstantSignal(data: seq<real>, i: nat, horizon: nat, gamma: real, v: real)
    requires i + horizon <= |data|
    requires forall k :: 0 <= k < |data| ==> data[k] == v
    ensures (1.0 - gamma) * DiscountedSum(data, i, horizon, gamma) == v * (1.0 - Pow(gamma, horizon))
  {
    if horizon > 0 {
      ConstantSignal(data, i, horizon - 1, gamma, v);
      var p := Pow(gamma, horizon - 1);
      var d := DiscountedSum(data, i, horizon - 1, gamma);
      assert Term(data, i, horizon - 1, gamma) == p * v;
      assert DiscountedSum(data, i, horizon, gamma) == d + p * v;
      assert Pow(gamma, horizon) == gamma * p;
      GeometricStep(gamma, p, d, v);
    }
  }

  /** One more term of the geometric series: the algebra of `ConstantSignal`'s step. */
  lemma GeometricStep(gamma: real, p: real, d: real, v: real)
    requires (1.0 - gamma) * d == v * (1.0 - p)
    ensures (1.0 - gamma) * (d + p * v) == v * (1.0 - gamma * p)
  {
    calc {
      (1.0 - gamma) * (d + p * v);
      (1.0 - gamma) * d + (1.0 - gamma) * (p * v);
      v * (1.0 - p) + (1.0 - gamma) * (p * v);
      v * (1.0 - gamma * p);
    }
  }

  /** Scaling the signal by c scales every discounted sum by c. */
  lemma {:induction false} ScaledSignal(data: seq<real>, c: real, i: nat, horizon: nat, gamma: real)
    requires i + horizon <= |data|
    ensures DiscountedSum(seq(|data|, k requires 0 <= k < |data| => c * data[k]), i, horizon, gamma)
         == c * DiscountedSum(data, i, horizon, gamma)
  {
    if horizon > 0 {
      ScaledSignal(data, c, i, horizon - 1, gamma);
      var scaled := seq(|data|, k requires 0 <= k < |data| => c * data[k]);
      var p := Pow(gamma, horizon - 1);
      var x := data[i + horizon - 1];
      assert scaled[i + horizon - 1] == c * x;
      assert p * (c * x) == c * (p * x);
      assert Term(scaled, i, horizon - 1, gamma) == c * Term(data, i, horizon - 1, gamma);
    }
  }

  /** The returns of two signals add up: the discounted sum is linear. */
  lemma {:induction false} SumOfSignals(a: seq<real>, b: seq<real>, i: nat, horizon: nat, gamma: real)
    requires |a| == |b| && i + horizon <= |a|
    ensures DiscountedSum(seq(|a|, k requires 0 <= k < |a| => a[k] + b[k]), i, horizon, gamma)
         == DiscountedSum(a, i, horizon, gamma) + DiscountedSum(b, i, horizon, gamma)
  {
    if horizon > 0 {
      SumOfSignals(a, b, i, horizon - 1, gamma);
      var p := Pow(gamma, horizon - 1);
      var sum := seq(|a|, k requires 0 <= k < |a| => a[k] + b[k]);
      var x, y := a[i + horizon - 1], b[i + horizon - 1];
      assert sum[i + horizon - 1] == x + y;
      assert p * (x + y) == p * x + p * y;
      assert Term(sum, i, horizon - 1, gamma) == Term(a, i, horizon - 1, gamma) + Term(b, i, horizon - 1, gamma);
    }
  }
}
