/**
 * The True Online TD(lambda) learner of Algorithms/TOTD.py. Every product in
 * its `update` is a numpy elementwise product, so the "values" V and V' and
 * the TD error are vectors with one entry per state component, and each
 * component of the trace and of the weights evolves on its own.
 *
 * The feature vector x' comes from a coder the source does not show, so it is
 * an input here, and the discount gamma (read as `self.gamma`, a field the
 * constructor never sets) is a parameter of `Update`.
 */
module TrueOnlineTD {
  import opened RealSeqs

  /** The part of the learner that one `update` carries to the next. */
  datatype Learner = Learner(weights: seq<real>, eligibility: seq<real>, VOld: seq<real>, x: seq<real>)

  /** The constants of a learner. */
  datatype Rates = Rates(alpha: real, lambd: real)

  /**
   * The elementwise operations of one update are defined: every vector has
   * the length of the weights. (numpy would also broadcast a length-1 operand;
   * that case is not modelled.)
   */
  predicate Conforms(s: Learner, xPrime: seq<real>)
  {
    |s.eligibility| == |s.weights| && |s.VOld| == |s.weights|
    && |s.x| == |s.weights| && |xPrime| == |s.weights|
  }

  /** `weights.T * x`: the elementwise product, one value per component. */
  function Values(w: seq<real>, x: seq<real>): (v: seq<real>)
    requires |w| == |x|
  {
    seq(|w|, i requires 0 <= i < |w| => w[i] * x[i])
  }

  /** `Z + gamma * VPrime - V`, componentwise. */
  function TdErrors(z: real, gamma: real, vPrime: seq<real>, v: seq<real>): (d: seq<real>)
    requires |vPrime| == |v|
  {
    seq(|v|, i requires 0 <= i < |v| => z + gamma * vPrime[i] - v[i])
  }

  /** The Dutch trace: `gamma*lambd*e + x - alpha*gamma*lambd*(e*x)*x`. */
  function Traces(e: seq<real>, x: seq<real>, r: Rates, gamma: real): (e': seq<real>)
    requires |e| == |x|
  {
    seq(|e|, i requires 0 <= i < |e| =>
      gamma * r.lambd * e[i] + x[i] - r.alpha * gamma * r.lambd * (e[i] * x[i]) * x[i])
  }

  /** `w + alpha*(delta + V - VOld)*e - alpha*(V - VOld)*x`, with the new trace e. */
  function Weights(w: seq<real>, e: seq<real>, x: seq<real>, delta: seq<real>, v: seq<real>, vOld: seq<real>, r: Rates): (w': seq<real>)
    requires |e| == |w| && |x| == |w| && |delta| == |w| && |v| == |w| && |vOld| == |w|
  {
    seq(|w|, i requires 0 <= i < |w| =>
      w[i] + r.alpha * (delta[i] + v[i] - vOld[i]) * e[i] - r.alpha * (v[i] - vOld[i]) * x[i])
  }

  /** One `update(newState, reward)` on the learner's carried state. */
  function Step(s: Learner, xPrime: seq<real>, z: real, r: Rates, gamma: real): (t: Learner)
    requires Conforms(s, xPrime)
    ensures Conforms(t, t.x) && |t.weights| == |s.weights| && t.x == xPrime
  {
    var v := Values(s.weights, s.x);
    var vPrime := Values(s.weights, xPrime);
    var delta := TdErrors(z, gamma, vPrime, v);
    var e := Traces(s.eligibility, s.x, r, gamma);
    Learner(Weights(s.weights, e, s.x, delta, v, s.VOld, r), e, vPrime, xPrime)
  }

  /**
   * A component whose previous feature and trace are both zero keeps its
   * weight, and its trace stays zero, whatever the reward and the new feature.
   */
  lemma InactiveComponent(s: Learner, xPrime: seq<real>, z: real, r: Rates, gamma: real, i: nat)
    requires Conforms(s, xPrime) && i < |s.weights|
    requires s.x[i] == 0.0 && s.eligibility[i] == 0.0
    ensures Step(s, xPrime, z, r, gamma).eligibility[i] == 0.0
    ensures Step(s, xPrime, z, r, gamma).weights[i] == s.weights[i]
  {
    var t := Step(s, xPrime, z, r, gamma);
    assert t.eligibility[i] == gamma * r.lambd * 0.0 + 0.0 - r.alpha * gamma * r.lambd * (0.0 * 0.0) * 0.0;
  }

  /** With an all-zero previous feature vector and trace, `update` leaves the weights unchanged. */
  lemma ZeroFeaturesFreeze(s: Learner, xPrime: seq<real>, z: real, r: Rates, gamma: real)
    requires Conforms(s, xPrime)
    requires s.x == Zeros(|s.weights|) && s.eligibility == Zeros(|s.weights|)
    ensures Step(s, xPrime, z, r, gamma).weights == s.weights
    ensures Step(s, xPrime, z, r, gamma).eligibility == Zeros(|s.weights|)
  {
    var t := Step(s, xPrime, z, r, gamma);
    forall i | 0 <= i < |s.weights|
      ensures t.weights[i] == s.weights[i] && t.eligibility[i] == 0.0
    {
      InactiveComponent(s, xPrime, z, r, gamma, i);
    }
  }

  /** With an all-zero previous feature vector the trace decays by gamma*lambda. */
  lemma TraceDecays(s: Learner, xPrime: seq<real>, z: real, r: Rates, gamma: real)
    requires Conforms(s, xPrime) && s.x == Zeros(|s.weights|)
    ensures forall i :: 0 <= i < |s.weights| ==>
      Step(s, xPrime, z, r, gamma).eligibility[i] == gamma * r.lambd * s.eligibility[i]
  {
    var t := Step(s, xPrime, z, r, gamma);
    forall i | 0 <= i < |s.weights|
      ensures t.eligibility[i] == gamma * r.lambd * s.eligibility[i]
    {
      assert s.x[i] == 0.0;
    }
  }

  /** `update` applied to a series of feature vectors and rewards, in order. */
  function Run(s: Learner, xs: seq<seq<real>>, zs: seq<real>, r: Rates, gamma: real): (t: Learner)
    requires |zs| == |xs|
    requires Conforms(s, s.x)
    requires forall k :: 0 <= k < |xs| ==> |xs[k]| == |s.weights|
    decreases |xs|
  {
    if xs == [] then s
    else Run(Step(s, xs[0], zs[0], r, gamma), xs[1..], zs[1..], r, gamma)
  }

  /**
   * A learner whose feature vectors are all zero never moves its weights, and
   * a zero trace stays zero, for any number of updates.
   */
  lemma {:induction false} RunWithoutFeatures(s: Learner, xs: seq<seq<real>>, zs: seq<real>, r: Rates, gamma: real)
    requires |zs| == |xs| && Conforms(s, s.x)
    requires forall k :: 0 <= k < |xs| ==> xs[k] == Zeros(|s.weights|)
    requires s.x == Zeros(|s.weights|) && s.eligibility == Zeros(|s.weights|)
    ensures Run(s, xs, zs, r, gamma).weights == s.weights
    ensures Run(s, xs, zs, r, gamma).eligibility == Zeros(|s.weights|)
    decreases |xs|
  {
    if xs != [] {
      ZeroFeaturesFreeze(s, xs[0], zs[0], r, gamma);
      RunWithoutFeatures(Step(s, xs[0], zs[0], r, gamma), xs[1..], zs[1..], r, gamma);
    }
  }

  /**
   * After m updates with zero features (and a zero previous feature vector),
   * each trace component is (gamma*lambda)^m times where it started.
   */
  lemma {:induction false} RunDecaysTrace(s: Learner, xs: seq<seq<real>>, zs: seq<real>, r: Rates, gamma: real, i: nat)
    requires |zs| == |xs| && Conforms(s, s.x) && i < |s.weights|
    requires forall k :: 0 <= k < |xs| ==> xs[k] == Zeros(|s.weights|)
    requires s.x == Zeros(|s.weights|)
    ensures |Run(s, xs, zs, r, gamma).eligibility| == |s.weights|
    ensures Run(s, xs, zs, r, gamma).eligibility[i] == Pow(gamma * r.lambd, |xs|) * s.eligibility[i]
    decreases |xs|
  {
    if xs != [] {
      var t := Step(s, xs[0], zs[0], r, gamma);
      TraceDecays(s, xs[0], zs[0], r, gamma);
      RunDecaysTrace(t, xs[1..], zs[1..], r, gamma, i);
      var g := gamma * r.lambd;
      calc {
        Run(s, xs, zs, r, gamma).eligibility[i];
        Run(t, xs[1..], zs[1..], r, gamma).eligibility[i];
        Pow(g, |xs| - 1) * t.eligibility[i];
        Pow(g, |xs| - 1) * (g * s.eligibility[i]);
        (g * Pow(g, |xs| - 1)) * s.eligibility[i];
        Pow(g, |xs|) * s.eligibility[i];
      }
    }
  }

  /** A learner with learning rate zero never moves its weights. */
  lemma ZeroRateFreezes(s: Learner, xPrime: seq<real>, z: real, lambd: real, gamma: real)
    requires Conforms(s, xPrime)
    ensures Step(s, xPrime, z, Rates(0.0, lambd), gamma).weights == s.weights
  {
    var t := Step(s, xPrime, z, Rates(0.0, lambd), gamma);
    assert forall i :: 0 <= i < |s.weights| ==> t.weights[i] == s.weights[i];
  }

  /** The learner object, its fields reassigned by every `update`. */
  class TOTD {
    const alpha: real
    /** Stored as given; `update` reads the unset `self.gamma` instead, so it takes gamma as a parameter. */
    const gammas: seq<real>
    const lambd: real
    const numStates: nat
    var weights: seq<real>
    var eligibility: seq<real>
    var VOld: seq<real>
    var x: seq<real>
    // Set by `update` and read by nothing else.
    var Z: real
    var V: seq<real>
    var VPrime: seq<real>
    var tdError: seq<real>

    ghost predicate Valid()
      reads this
    {
      |weights| == numStates && |eligibility| == numStates && |VOld| == numStates
    }

    /** The state one `update` hands to the next. */
    function State(): Learner
      reads this
    {
      Learner(weights, eligibility, VOld, x)
    }

    /**
     * `TOTD(numStates, alpha, gammas, lambd)`; `prototypes` is the K of the
     * learner's Kanerva coder, which sizes the initial feature vector.
     */
    constructor (numStates: nat, alpha: real, gammas: seq<real>, lambd: real, prototypes: nat)
      ensures Valid()
      ensures this.numStates == numStates && this.alpha == alpha && this.gammas == gammas && this.lambd == lambd
      ensures weights == Zeros(numStates) && eligibility == Zeros(numStates) && VOld == Zeros(numStates)
      ensures x == Zeros(numStates * prototypes)
    {
      this.alpha := alpha;
      this.gammas := gammas;
      this.lambd := lambd;
      this.numStates := numStates;
      weights := Zeros(numStates);
      eligibility := Zeros(numStates);
      VOld := Zeros(numStates);
      x := Zeros(numStates * prototypes);
    }

    /**
     * `update(newState, reward)` with the coded feature vector xPrime. It
     * succeeds exactly when every elementwise product is between vectors of
     * the learner's length; otherwise numpy raises after the reward has
     * been stored, and the learner's state is left as it was.
     */
    method Update(xPrime: seq<real>, reward: real, gamma: real) returns (ok: bool)
      requires Valid()
      modifies this
      ensures Valid()
      ensures ok <==> |old(x)| == numStates && |xPrime| == numStates
      ensures ok ==> State() == Step(old(State()), xPrime, reward, Rates(alpha, lambd), gamma)
      ensures Z == reward
      ensures ok ==> VOld == VPrime
      ensures !ok ==> State() == old(State())
    {
      Z := reward;
      if |x| != numStates || |xPrime| != numStates {
        return false;
      }
      V := Values(weights, x);
      VPrime := Values(weights, xPrime);
      tdError := TdErrors(Z, gamma, VPrime, V);
      eligibility := Traces(eligibility, x, Rates(alpha, lambd), gamma);
      weights := Weights(weights, eligibility, x, tdError, V, VOld, Rates(alpha, lambd));
      VOld := VPrime;
      x := xPrime;
      return true;
    }
  }
}
