/**
 * The SwiftTD learner of Algorithms/SwiftTD.py: a multi-head temporal
 * difference learner whose step sizes are per feature and per head,
 * adapted by Incremental Delta-Bar-Delta, and capped in aggregate.
 *
 * Head g (one per discount gammas[g]) keeps one row of each H x F array:
 * weights, betas (log step sizes), the traces h, hOld, be and idbdTrace, and
 * the eligibility trace eTrace. Every numpy operation in `update` is
 * elementwise within a row or a row sum, so the heads evolve independently;
 * `HeadStep` is one head's update on values, and the class applies it to
 * every row of its arrays.
 *
 * `np.exp` and `np.log` are parameters of the learner; all the model assumes
 * of them is that exp is positive, which its type says.
 */
module SwiftTDLearner {
  import opened Outcomes
  import opened RealSeqs

  /** `np.dot` of two vectors of one length. */
  function Dot(a: seq<real>, x: seq<real>): real
    requires |a| == |x|
  {
    if a == [] then 0.0 else Dot(a[..|a| - 1], x[..|x| - 1]) + a[|a| - 1] * x[|x| - 1]
  }

  /** Scaling every term scales the sum. */
  lemma {:induction false} SumScaled(s: seq<real>, c: real)
    ensures Sum(seq(|s|, j requires 0 <= j < |s| => c * s[j])) == c * Sum(s)
  {
    if s != [] {
      var t := s[..|s| - 1];
      SumScaled(t, c);
      var u := seq(|s|, j requires 0 <= j < |s| => c * s[j]);
      var v := seq(|t|, j requires 0 <= j < |t| => c * t[j]);
      assert forall k :: 0 <= k < |t| ==> u[..|s| - 1][k] == v[k];
      assert u[..|s| - 1] == v;
      assert Sum(u) == Sum(u[..|s| - 1]) + c * s[|s| - 1];
    }
  }

  /** A sum of non-negative terms is non-negative. */
  lemma {:induction false} SumNonNegative(s: seq<real>)
    requires forall j :: 0 <= j < |s| ==> s[j] >= 0.0
    ensures Sum(s) >= 0.0
  {
    if s != [] {
      SumNonNegative(s[..|s| - 1]);
    }
  }

  /** The values `np.exp` can take. */
  type Positive = r: real | r > 0.0 witness 1.0

  /** The learner's constants. */
  datatype Params = Params(
    lambda: real,          // `lambda_`
    epsilon: real,         // stability constant of the meta step
    maxStepSize: real,     // cap on a head's aggregate step size
    stepSizeDecay: real,   // decay applied to over-contributing features
    metaStepSize: real,    // meta learning rate of the betas
    exp: real -> Positive, // `np.exp`
    log: real -> real)     // `np.log`

  /**
   * What the model needs of the constants besides a positive exp: a
   * non-negative epsilon, so that the meta step never divides by zero, and a
   * positive cap.
   */
  predicate Admissible(p: Params)
  {
    p.epsilon >= 0.0 && p.maxStepSize > 0.0
  }

  /** `temp = np.exp(betas) * x * x` for one head: each feature's unscaled step contribution. */
  function Contributions(exp: real -> Positive, b: seq<real>, x: seq<real>): (temp: seq<real>)
    requires |b| == |x|
    ensures |temp| == |b|
  {
    seq(|b|, j requires 0 <= j < |b| => exp(b[j]) * x[j] * x[j])
  }

  lemma ProductNonNegative(a: real, b: real)
    requires a >= 0.0 && b >= 0.0
    ensures a * b >= 0.0
  {
  }

  /** With a positive exp, the aggregate unscaled step size of a head is non-negative. */
  lemma ContributionsNonNegative(exp: real -> Positive, b: seq<real>, x: seq<real>)
    requires |b| == |x|
    ensures Sum(Contributions(exp, b, x)) >= 0.0
  {
    var temp := Contributions(exp, b, x);
    forall j | 0 <= j < |temp| ensures temp[j] >= 0.0 {
      var e: real := exp(b[j]);
      assert e * x[j] * x[j] == e * (x[j] * x[j]);
      ProductNonNegative(e, x[j] * x[j]);
    }
    SumNonNegative(temp);
  }

  /**
   * `scaleFactor`: `maxStepSize / sum` when the aggregate exceeds the cap,
   * else 1. For a positive cap and a non-negative aggregate it lies in
   * (0, 1] and brings the aggregate down to the cap.
   */
  function ScaleFactor(sum: real, maxStepSize: real): (sf: real)
    requires maxStepSize > 0.0
    ensures sum >= 0.0 ==> 0.0 < sf <= 1.0 && sf * sum <= maxStepSize
    ensures sf < 1.0 ==> sum > maxStepSize
  {
    if sum > maxStepSize then maxStepSize / sum else 1.0
  }

  /** One head's rows of the learner's arrays, each of length F. */
  datatype Head = Head(w: seq<real>, b: seq<real>, h: seq<real>, hOld: seq<real>, be: seq<real>, idbd: seq<real>, e: seq<real>)

  predicate Shaped(s: Head, f: nat)
  {
    |s.w| == f && |s.b| == f && |s.h| == f && |s.hOld| == f && |s.be| == f && |s.idbd| == f && |s.e| == f
  }

  /** The per-head scalars of one update. */
  datatype HeadTerms = HeadTerms(
    gamma: real,   // the head's discount
    delta: real,   // `tdError[g]`
    dotE: real,    // `dotProductEligibility[g]`: x . e
    sf: real,      // `scaleFactor[g]`
    dV: real,      // `V[g] - VOld[g]`
    vNew: real)    // `VNew[g]`: the new prediction

  /**
   * The scalars of head g's update, where z is the cumulant stored by the
   * previous call, x the feature vector stored by the previous call, and
   * xNew the new one.
   */
  function Terms(p: Params, gamma: real, z: real, vOld: real, s: Head, x: seq<real>, xNew: seq<real>): HeadTerms
    requires Admissible(p) && Shaped(s, |x|) && |xNew| == |x|
  {
    var v := Dot(s.w, x);
    var vNew := Dot(s.w, xNew);
    HeadTerms(gamma, z + gamma * vNew - v, Dot(x, s.e),
      ScaleFactor(Sum(Contributions(p.exp, s.b, x)), p.maxStepSize), v - vOld, vNew)
  }

  /** `stepSize[g, j] = np.exp(betas[g, j]) * scaleFactor[g]`. */
  function StepSize(p: Params, t: HeadTerms, b: real): real
  {
    p.exp(b) * t.sf
  }

  /** Line 197: the IDBD trace, from the old h. */
  function NewIdbd(p: Params, t: HeadTerms, s: Head, x: seq<real>, j: nat): real
    requires Shaped(s, |x|) && j < |x|
  {
    t.gamma * p.lambda * s.idbd[j] + s.h[j] * x[j]
  }

  /** Lines 203-206: the be trace. */
  function NewBe(p: Params, t: HeadTerms, s: Head, x: seq<real>, j: nat): real
    requires Shaped(s, |x|) && j < |x|
  {
    var a := StepSize(p, t, s.b[j]);
    p.lambda * t.gamma * s.be[j] + a * x[j]
    - a * t.gamma * p.lambda * t.dotE * x[j]
    - a * t.gamma * p.lambda * (x[j] * x[j]) * s.be[j]
  }

  /** Lines 209-211: the eligibility trace. */
  function NewE(p: Params, t: HeadTerms, s: Head, x: seq<real>, j: nat): real
    requires Shaped(s, |x|) && j < |x|
  {
    var a := StepSize(p, t, s.b[j]);
    p.lambda * t.gamma * s.e[j] + a * x[j] - a * p.lambda * t.gamma * t.dotE * x[j]
  }

  /** Line 214: the weight, moved along the new eligibility trace. */
  function NewW(p: Params, t: HeadTerms, s: Head, x: seq<real>, j: nat): real
    requires Shaped(s, |x|) && j < |x|
  {
    s.w[j] + t.delta * NewE(p, t, s, x, j) - StepSize(p, t, s.b[j]) * t.dV * x[j]
  }

  /** Lines 220-221: the h trace, before the masked reset. */
  function NewH(p: Params, t: HeadTerms, s: Head, x: seq<real>, j: nat): real
    requires Shaped(s, |x|) && j < |x|
  {
    var a := StepSize(p, t, s.b[j]);
    s.h[j] + t.delta * NewBe(p, t, s, x, j) + NewE(p, t, s, x, j) * (-1.0 * s.hOld[j] * x[j])
    - (x[j] * (a * t.dV) + a * x[j] * (s.h[j] - s.hOld[j]))
  }

  /**
   * Line 228: the meta step, multiplied by 1 where the head's scale factor is
   * 1 and by 0 elsewhere. This value is written into the old betas array.
   */
  function MetaBeta(p: Params, t: HeadTerms, s: Head, x: seq<real>, j: nat): real
    requires Admissible(p) && Shaped(s, |x|) && j < |x|
  {
    s.b[j] + (p.metaStepSize / (p.exp(s.b[j]) + p.epsilon) * t.delta * NewIdbd(p, t, s, x, j))
             * (if t.sf == 1.0 then 1.0 else 0.0)
  }

  /** Line 231: `np.where(betas > 0, 0, betas)`. */
  function Clamp(b: real): (c: real)
    ensures c <= 0.0 && c <= b
  {
    if b > 0.0 then 0.0 else b
  }

  /** Line 235: `np.outer(scaleFactor < 1, x)` at (g, j). */
  function DecayWeight(t: HeadTerms, x: seq<real>, j: nat): real
    requires j < |x|
  {
    (if t.sf < 1.0 then 1.0 else 0.0) * x[j]
  }

  /** Line 237: the entries reset to zero, those of a scaled-down head's active features. */
  predicate Masked(t: HeadTerms, x: seq<real>, j: nat)
    requires j < |x|
  {
    DecayWeight(t, x, j) != 0.0
  }

  /** What one head's update produces. */
  datatype HeadResult = HeadResult(
    next: Head,              // the head's new rows
    metaBetas: seq<real>,    // what the old betas array holds afterwards
    contributions: seq<real>, // what `featureCounter` gains
    vNew: real)              // the new prediction `VNew[g]`

  /**
   * Head g's part of `update` after the first call: the new rows, with hOld
   * the old h row (the array `temp` still refers to) after the masked reset.
   */
  function HeadStep(p: Params, gamma: real, z: real, vOld: real, s: Head, x: seq<real>, xNew: seq<real>): (r: HeadResult)
    requires Admissible(p) && Shaped(s, |x|) && |xNew| == |x|
    ensures Shaped(r.next, |x|) && |r.metaBetas| == |x| && |r.contributions| == |x|
  {
    var t := Terms(p, gamma, z, vOld, s, x, xNew);
    var f := |x|;
    HeadResult(
      Head(
        seq(f, j requires 0 <= j < f => NewW(p, t, s, x, j)),
        seq(f, j requires 0 <= j < f => Clamp(MetaBeta(p, t, s, x, j)) + DecayWeight(t, x, j) * p.log(p.stepSizeDecay)),
        seq(f, j requires 0 <= j < f => if Masked(t, x, j) then 0.0 else NewH(p, t, s, x, j)),
        seq(f, j requires 0 <= j < f => if Masked(t, x, j) then 0.0 else s.h[j]),
        seq(f, j requires 0 <= j < f => if Masked(t, x, j) then 0.0 else NewBe(p, t, s, x, j)),
        seq(f, j requires 0 <= j < f => if Masked(t, x, j) then 0.0 else NewIdbd(p, t, s, x, j)),
        seq(f, j requires 0 <= j < f => NewE(p, t, s, x, j))),
      seq(f, j requires 0 <= j < f => MetaBeta(p, t, s, x, j)),
      Contributions(p.exp, s.b, x),
      t.vNew)
  }

  lemma Reassociate(e: real, sf: real, x: real)
    ensures (e * sf) * x * x == sf * (e * x * x)
  {
  }

  /** Scaling the contributions by their scale factor brings their sum within the cap. */
  lemma {:induction false} ScaledContributionsCap(p: Params, b: seq<real>, x: seq<real>, sf: real)
    requires Admissible(p) && |b| == |x|
    requires sf == ScaleFactor(Sum(Contributions(p.exp, b, x)), p.maxStepSize)
    ensures Sum(seq(|x|, j requires 0 <= j < |x| => (p.exp(b[j]) * sf) * x[j] * x[j])) <= p.maxStepSize
  {
    var temp := Contributions(p.exp, b, x);
    ContributionsNonNegative(p.exp, b, x);
    SumScaled(temp, sf);
    var scaled := seq(|x|, j requires 0 <= j < |x| => (p.exp(b[j]) * sf) * x[j] * x[j]);
    var byFactor := seq(|temp|, j requires 0 <= j < |temp| => sf * temp[j]);
    forall j | 0 <= j < |x| ensures scaled[j] == byFactor[j] {
      var e: real := p.exp(b[j]);
      var xj := x[j];
      var c := temp[j];
      assert c == e * xj * xj;
      assert byFactor[j] == sf * c;
      assert scaled[j] == (e * sf) * xj * xj;
      Reassociate(e, sf, xj);
    }
    assert scaled == byFactor;
  }

  /**
   * The step-size cap: with `stepSize = exp(betas) * scaleFactor`, a head's
   * scaled aggregate `sum_j stepSize[j] * x[j]^2` never exceeds `maxStepSize`.
   */
  lemma StepSizeCap(p: Params, gamma: real, z: real, vOld: real, s: Head, x: seq<real>, xNew: seq<real>)
    requires Admissible(p) && Shaped(s, |x|) && |xNew| == |x|
    ensures var t := Terms(p, gamma, z, vOld, s, x, xNew);
      Sum(seq(|x|, j requires 0 <= j < |x| => StepSize(p, t, s.b[j]) * x[j] * x[j])) <= p.maxStepSize
  {
    var t := Terms(p, gamma, z, vOld, s, x, xNew);
    ScaledContributionsCap(p, s.b, x, t.sf);
    var scaled := seq(|x|, j requires 0 <= j < |x| => StepSize(p, t, s.b[j]) * x[j] * x[j]);
    var direct := seq(|x|, j requires 0 <= j < |x| => (p.exp(s.b[j]) * t.sf) * x[j] * x[j]);
    forall j | 0 <= j < |x| ensures scaled[j] == direct[j] {
    }
    assert scaled == direct;
  }

  /** A head's scale factor lies in (0, 1]. */
  lemma ScaleFactorInUnitInterval(p: Params, gamma: real, z: real, vOld: real, s: Head, x: seq<real>, xNew: seq<real>)
    requires Admissible(p) && Shaped(s, |x|) && |xNew| == |x|
    ensures 0.0 < Terms(p, gamma, z, vOld, s, x, xNew).sf <= 1.0
  {
    ContributionsNonNegative(p.exp, s.b, x);
  }

  /**
   * Betas stay non-positive: the clamp makes them so, and the decay step keeps
   * them so when log(stepSizeDecay) <= 0 and the features are non-negative
   * (the coder's features are 0 or 1).
   */
  lemma BetasNonPositive(p: Params, gamma: real, z: real, vOld: real, s: Head, x: seq<real>, xNew: seq<real>)
    requires Admissible(p) && Shaped(s, |x|) && |xNew| == |x|
    requires p.log(p.stepSizeDecay) <= 0.0
    requires forall j :: 0 <= j < |x| ==> x[j] >= 0.0
    ensures forall j :: 0 <= j < |x| ==> HeadStep(p, gamma, z, vOld, s, x, xNew).next.b[j] <= 0.0
  {
    var t := Terms(p, gamma, z, vOld, s, x, xNew);
    forall j | 0 <= j < |x| ensures HeadStep(p, gamma, z, vOld, s, x, xNew).next.b[j] <= 0.0 {
      assert DecayWeight(t, x, j) >= 0.0;
      assert DecayWeight(t, x, j) * p.log(p.stepSizeDecay) <= 0.0;
    }
  }

  /**
   * A head whose scale factor is below 1 gets no meta step: the old betas
   * array keeps the head's betas as they were.
   */
  lemma ScaledHeadSkipsMetaStep(p: Params, gamma: real, z: real, vOld: real, s: Head, x: seq<real>, xNew: seq<real>)
    requires Admissible(p) && Shaped(s, |x|) && |xNew| == |x|
    requires Terms(p, gamma, z, vOld, s, x, xNew).sf < 1.0
    ensures HeadStep(p, gamma, z, vOld, s, x, xNew).metaBetas == s.b
  {
  }

  /**
   * The masked reset: for a head whose scale factor is below 1 and a feature
   * that is active, the beta is clamped and moved by x[j] * log(stepSizeDecay),
   * and idbdTrace, h, hOld and be are zero at that entry.
   */
  lemma MaskedReset(p: Params, gamma: real, z: real, vOld: real, s: Head, x: seq<real>, xNew: seq<real>, j: nat)
    requires Admissible(p) && Shaped(s, |x|) && |xNew| == |x| && j < |x|
    requires Terms(p, gamma, z, vOld, s, x, xNew).sf < 1.0 && x[j] != 0.0
    ensures var r := HeadStep(p, gamma, z, vOld, s, x, xNew);
      r.next.b[j] == Clamp(s.b[j]) + x[j] * p.log(p.stepSizeDecay)
      && r.next.idbd[j] == 0.0 && r.next.h[j] == 0.0 && r.next.hOld[j] == 0.0 && r.next.be[j] == 0.0
  {
    var t := Terms(p, gamma, z, vOld, s, x, xNew);
    assert DecayWeight(t, x, j) == x[j];
    assert Masked(t, x, j);
  }

  /**
   * Entries outside the mask are untouched by the decay-and-reset step: the
   * beta is the clamped meta-stepped one, hOld is the old h, and the traces
   * keep their updated values.
   */
  lemma UnmaskedEntry(p: Params, gamma: real, z: real, vOld: real, s: Head, x: seq<real>, xNew: seq<real>, j: nat)
    requires Admissible(p) && Shaped(s, |x|) && |xNew| == |x| && j < |x|
    requires Terms(p, gamma, z, vOld, s, x, xNew).sf >= 1.0 || x[j] == 0.0
    ensures var t := Terms(p, gamma, z, vOld, s, x, xNew);
      var r := HeadStep(p, gamma, z, vOld, s, x, xNew);
      r.next.b[j] == Clamp(r.metaBetas[j]) && r.next.hOld[j] == s.h[j]
      && r.next.idbd[j] == NewIdbd(p, t, s, x, j) && r.next.h[j] == NewH(p, t, s, x, j)
      && r.next.be[j] == NewBe(p, t, s, x, j)
  {
    var t := Terms(p, gamma, z, vOld, s, x, xNew);
    assert DecayWeight(t, x, j) == 0.0;
  }


  /** A two-dimensional numpy array, as its rows. */
  type Grid = seq<seq<real>>

  /** `a` has n rows of m entries: numpy shape (n, m). */
  predicate IsGrid(a: Grid, n: nat, m: nat)
  {
    |a| == n && forall g :: 0 <= g < n ==> |a[g]| == m
  }

  /** `np.full((n, m), v)`. */
  function Full(n: nat, m: nat, v: real): (a: Grid)
    ensures IsGrid(a, n, m) && forall g, j :: 0 <= g < n && 0 <= j < m ==> a[g][j] == v
  {
    seq(n, g => seq(m, j => v))
  }

  /** `np.zeros(a.shape)`: a zero array of the shape of `a`. */
  function ZerosLike(a: Grid): (z: Grid)
    ensures |z| == |a| && forall g :: 0 <= g < |a| ==> |z[g]| == |a[g]|
    ensures forall g, j :: 0 <= g < |a| && 0 <= j < |a[g]| ==> z[g][j] == 0.0
  {
    seq(|a|, g requires 0 <= g < |a| => Zeros(|a[g]|))
  }

  /** The exceptions `update` raises. */
  datatype UpdateError =
    | SnapshotMissing  // first call with `loadOld` set before a complete `saveInfo`: `AttributeError` at lines 113-115
    | OutputUnbound    // first call with `loadOld` set: `output` is never assigned, so line 257 fails
    | CounterMissing   // `featureCounter` was never allocated (a restored learner): line 183 fails
    | ShapeMismatch    // arrays that are not all H x F (numpy's broadcasting is not modelled)

  /** The attributes `update` reads and writes. */
  datatype Live = Live(
    featureVector: seq<real>, VOld: seq<real>, Z: seq<real>,
    weights: Grid, betas: Grid, h: Grid, hOld: Grid, be: Grid,
    idbdTrace: Grid, eTrace: Grid, gradientNorm: Grid, featureCounter: Grid)

  /** What `saveInfo` keeps: the `past*` and `old*` attributes. */
  datatype Saved = Saved(
    featureVector: seq<real>, VOld: seq<real>,
    weights: Grid, eTrace: Grid, betas: Grid, h: Grid, hOld: Grid,
    be: Grid, idbdTrace: Grid, gradientNorm: Grid)

  /**
   * The loop count, `loadOld`, which attributes exist, and whether the saved
   * betas and h are the very arrays the learner holds (`saveInfo` keeps
   * references, not copies).
   */
  datatype Status = Status(
    loopCount: nat, loadOld: bool,
    hasVectors: bool, hasArrays: bool, hasCounter: bool, savedVectors: bool, hasSnapshot: bool,
    betasShared: bool, hShared: bool)

  /** What a complete `saveInfo` keeps of the live attributes. */
  function SnapshotOf(l: Live): (s: Saved)
    ensures s.featureVector == l.featureVector && s.VOld == l.VOld && s.weights == l.weights
    ensures s.eTrace == l.eTrace && s.betas == l.betas && s.h == l.h && s.hOld == l.hOld
    ensures s.be == l.be && s.idbdTrace == l.idbdTrace && s.gradientNorm == l.gradientNorm
  {
    Saved(l.featureVector, l.VOld, l.weights, l.eTrace, l.betas, l.h, l.hOld, l.be, l.idbdTrace, l.gradientNorm)
  }

  /**
   * Lines 113-122: the live attributes after a restore. The cumulant and the
   * feature counter are not part of a snapshot and stay as they were.
   * Restoring a snapshot taken of the same attributes changes nothing.
   */
  function Restored(l: Live, s: Saved): (r: Live)
    ensures SnapshotOf(r) == s && r.Z == l.Z && r.featureCounter == l.featureCounter
    ensures s == SnapshotOf(l) ==> r == l
  {
    Live(s.featureVector, s.VOld, l.Z, s.weights, s.betas, s.h, s.hOld, s.be, s.idbdTrace, s.eTrace,
         s.gradientNorm, l.featureCounter)
  }

  /** `output * (1 - gammas)`: each head's prediction scaled by one minus its discount. */
  function Discounted(output: seq<real>, gammas: seq<real>): (r: seq<real>)
    requires |output| == |gammas|
    ensures |r| == |gammas| && forall g :: 0 <= g < |gammas| ==> r[g] == output[g] * (1.0 - gammas[g])
  {
    seq(|gammas|, g requires 0 <= g < |gammas| => output[g] * (1.0 - gammas[g]))
  }

  /** Names for the rows of a `Head`. */
  datatype Row = WeightRow | BetaRow | HRow | HOldRow | BeRow | IdbdRow | TraceRow

  /** Row `t` of a head. */
  function Pick(s: Head, t: Row): seq<real>
  {
    match t
    case WeightRow => s.w
    case BetaRow => s.b
    case HRow => s.h
    case HOldRow => s.hOld
    case BeRow => s.be
    case IdbdRow => s.idbd
    case TraceRow => s.e
  }

  /** The array whose row g is head g's new row `t`. */
  function Column(rs: seq<HeadResult>, t: Row): (a: Grid)
    ensures |a| == |rs| && forall g :: 0 <= g < |rs| ==> a[g] == Pick(rs[g].next, t)
  {
    seq(|rs|, g requires 0 <= g < |rs| => Pick(rs[g].next, t))
  }

  /** Heads of f entries stack into arrays with f columns. */
  lemma ColumnsShaped(rs: seq<HeadResult>, f: nat)
    requires forall g :: 0 <= g < |rs| ==> Shaped(rs[g].next, f)
    ensures forall t :: IsGrid(Column(rs, t), |rs|, f)
  {
    forall t ensures IsGrid(Column(rs, t), |rs|, f) {
      forall g | 0 <= g < |rs| ensures |Column(rs, t)[g]| == f {
        assert Column(rs, t)[g] == Pick(rs[g].next, t);
      }
    }
  }

  /** `VNew`: every head's new prediction. */
  function Predictions(rs: seq<HeadResult>): (v: seq<real>)
    ensures |v| == |rs| && forall g :: 0 <= g < |rs| ==> v[g] == rs[g].vNew
  {
    seq(|rs|, g requires 0 <= g < |rs| => rs[g].vNew)
  }

  /** Line 183: `featureCounter += temp`, head by head. */
  function Counted(counter: Grid, rs: seq<HeadResult>): (c: Grid)
    requires |counter| == |rs|
    requires forall g :: 0 <= g < |rs| ==> |counter[g]| == |rs[g].contributions|
    ensures |c| == |rs| && forall g :: 0 <= g < |rs| ==> |c[g]| == |counter[g]|
    ensures forall g, j :: 0 <= g < |rs| && 0 <= j < |counter[g]| ==>
      c[g][j] == counter[g][j] + rs[g].contributions[j]
  {
    seq(|rs|, g requires 0 <= g < |rs| =>
      seq(|counter[g]|, j requires 0 <= j < |counter[g]| => counter[g][j] + rs[g].contributions[j]))
  }

  /** The shapes a later call needs: n x f arrays, f features, n values and n cumulants. */
  predicate Conformant(l: Live, n: nat, f: nat)
  {
    IsGrid(l.weights, n, f) && IsGrid(l.betas, n, f) && IsGrid(l.h, n, f) && IsGrid(l.hOld, n, f)
    && IsGrid(l.be, n, f) && IsGrid(l.idbdTrace, n, f) && IsGrid(l.eTrace, n, f)
    && |l.featureVector| == f && |l.VOld| == n && |l.Z| == n
  }

  /** Head g's rows. */
  function HeadAt(l: Live, g: nat): (s: Head)
    requires Conformant(l, |l.VOld|, |l.featureVector|) && g < |l.VOld|
    ensures Shaped(s, |l.featureVector|)
  {
    Head(l.weights[g], l.betas[g], l.h[g], l.hOld[g], l.be[g], l.idbdTrace[g], l.eTrace[g])
  }

  /**
   * Lines 126-138 and 250-251: the attributes after a first call that does
   * not restore, with one head per cumulant. Every array is zero, except the
   * betas, which start at `beta0` (log(initAlpha)).
   */
  function Initial(xNew: seq<real>, znew: seq<real>, beta0: real): (r: Live)
    ensures Conformant(r, |znew|, |xNew|)
    ensures IsGrid(r.gradientNorm, |znew|, |xNew|) && IsGrid(r.featureCounter, |znew|, |xNew|)
    ensures r.featureVector == xNew && r.Z == znew && r.VOld == Zeros(|znew|)
    ensures forall g, j :: 0 <= g < |znew| && 0 <= j < |xNew| ==>
      r.betas[g][j] == beta0
      && r.weights[g][j] == 0.0 && r.h[g][j] == 0.0 && r.hOld[g][j] == 0.0 && r.be[g][j] == 0.0
      && r.idbdTrace[g][j] == 0.0 && r.eTrace[g][j] == 0.0 && r.gradientNorm[g][j] == 0.0
      && r.featureCounter[g][j] == 0.0
  {
    var zero := Full(|znew|, |xNew|, 0.0);
    Live(xNew, Zeros(|znew|), znew, zero, Full(|znew|, |xNew|, beta0), zero, zero, zero, zero, zero, zero, zero)
  }

  /**
   * Lines 159-251: the attributes after a later call whose heads step to
   * `rs`. Head g's rows are its new rows, VOld holds the new predictions,
   * the feature counter gains each head's contributions, and the gradient
   * norm is untouched.
   */
  function Learned(l: Live, rs: seq<HeadResult>, xNew: seq<real>, znew: seq<real>): (r: Live)
    requires |znew| == |rs| && IsGrid(l.featureCounter, |rs|, |xNew|)
    requires forall g :: 0 <= g < |rs| ==> Shaped(rs[g].next, |xNew|) && |rs[g].contributions| == |xNew|
    ensures Conformant(r, |rs|, |xNew|) && IsGrid(r.featureCounter, |rs|, |xNew|)
    ensures r.featureVector == xNew && r.Z == znew && r.gradientNorm == l.gradientNorm
    ensures forall g :: 0 <= g < |rs| ==> HeadAt(r, g) == rs[g].next && r.VOld[g] == rs[g].vNew
    ensures forall g, j :: 0 <= g < |rs| && 0 <= j < |xNew| ==>
      r.featureCounter[g][j] == l.featureCounter[g][j] + rs[g].contributions[j]
  {
    ColumnsShaped(rs, |xNew|);
    Live(xNew, Predictions(rs), znew, Column(rs, WeightRow), Column(rs, BetaRow), Column(rs, HRow), Column(rs, HOldRow),
         Column(rs, BeRow), Column(rs, IdbdRow), Column(rs, TraceRow), l.gradientNorm, Counted(l.featureCounter, rs))
  }

  /**
   * What a later `update` does to the snapshot: when it shares the betas
   * array, line 228 leaves the meta-stepped betas there; when it shares the
   * h array, lines 217-224 make that array hOld and line 240 zeroes the
   * masked entries, so it ends up as the new hOld. Nothing else changes.
   */
  function AfterStep(k: Saved, rs: seq<HeadResult>, betasShared: bool, hShared: bool): (r: Saved)
    ensures r == k.(betas := r.betas, h := r.h)
    ensures betasShared ==> |r.betas| == |rs| && forall g :: 0 <= g < |rs| ==> r.betas[g] == rs[g].metaBetas
    ensures hShared ==> |r.h| == |rs| && forall g :: 0 <= g < |rs| ==> r.h[g] == rs[g].next.hOld
    ensures !betasShared ==> r.betas == k.betas
    ensures !hShared ==> r.h == k.h
  {
    k.(betas := if betasShared then seq(|rs|, g requires 0 <= g < |rs| => rs[g].metaBetas) else k.betas,
       h := if hShared then seq(|rs|, g requires 0 <= g < |rs| => rs[g].next.hOld) else k.h)
  }

  /**
   * The learner. Its attributes are grouped in three records: `live`, the
   * ones `update` reads and writes; `kept`, what `saveInfo` stored; and
   * `status`, the loop count, `loadOld` and which attributes exist.
   */
  class SwiftTD {
    const featureLength: nat
    const gammas: seq<real>
    const initAlpha: real
    const lambda: real
    const epsilon: real
    const maxStepSize: real
    const stepSizeDecay: real
    const metaStepSize: real
    const exp: real -> Positive
    const log: real -> real

    var live: Live
    var kept: Saved
    var status: Status

    function P(): Params
    {
      Params(lambda, epsilon, maxStepSize, stepSizeDecay, metaStepSize, exp, log)
    }

    /**
     * The attributes exist in the order the source creates them, and an array
     * shared with the snapshot holds what the snapshot holds.
     */
    ghost predicate Valid()
      reads this
    {
      Admissible(P())
      && (status.loopCount > 0 ==> status.hasArrays)
      && (status.hasArrays ==> status.hasVectors)
      && (status.hasCounter ==> status.hasArrays)
      && (status.savedVectors ==> status.hasVectors)
      && (status.hasSnapshot ==> status.savedVectors)
      && (status.betasShared ==> status.hasArrays && status.hasSnapshot && kept.betas == live.betas)
      && (status.hShared ==> status.hasArrays && status.hasSnapshot && kept.h == live.h)
    }

    /** Every head's step from the attributes `l`, given the new feature vector. */
    function Steps(l: Live, xNew: seq<real>): (rs: seq<HeadResult>)
      requires Admissible(P()) && Conformant(l, |gammas|, featureLength) && |xNew| == featureLength
      ensures |rs| == |gammas|
      ensures forall g :: 0 <= g < |gammas| ==>
        rs[g] == HeadStep(P(), gammas[g], l.Z[g], l.VOld[g], HeadAt(l, g), l.featureVector, xNew)
        && Shaped(rs[g].next, featureLength)
        && |rs[g].metaBetas| == featureLength && |rs[g].contributions| == featureLength
    {
      seq(|gammas|, g requires 0 <= g < |gammas| =>
        HeadStep(P(), gammas[g], l.Z[g], l.VOld[g], HeadAt(l, g), l.featureVector, xNew))
    }

    /**
     * `SwiftTD(...)`. The feature length is the coder's K times the number of
     * its resolutions, `len(c)`. No learning attribute exists until `reset` or
     * the first `update`.
     */
    constructor (prototypes: nat, c: seq<nat>, initAlpha: real, gammas: seq<real>, lambda: real, epsilon: real,
                 maxStepSize: real, stepSizeDecay: real, metaStepSize: real, exp: real -> Positive, log: real -> real)
      requires epsilon >= 0.0 && maxStepSize > 0.0
      ensures Valid()
      ensures featureLength == prototypes * |c| && this.gammas == gammas && this.initAlpha == initAlpha
      ensures P() == Params(lambda, epsilon, maxStepSize, stepSizeDecay, metaStepSize, exp, log)
      ensures status == Status(0, false, false, false, false, false, false, false, false)
    {
      featureLength := prototypes * |c|;
      this.gammas := gammas;
      this.initAlpha := initAlpha;
      this.lambda := lambda;
      this.epsilon := epsilon;
      this.maxStepSize := maxStepSize;
      this.stepSizeDecay := stepSizeDecay;
      this.metaStepSize := metaStepSize;
      this.exp := exp;
      this.log := log;
      status := Status(0, false, false, false, false, false, false, false, false);
      // Placeholders for attributes that do not exist yet.
      live := Live([], [], [], [], [], [], [], [], [], [], [], []);
      kept := Saved([], [], [], [], [], [], [], [], [], []);
    }

    /**
     * `reset()`: zero vectors of length F and a zero weight vector, and, once
     * the learning arrays exist, zero arrays of their shapes and a loop count
     * of 0. Before the first `update` the source stops at the missing
     * `eTrace` (and only prints), having assigned the vectors.
     */
    method Reset()
      requires Valid()
      modifies this
      ensures Valid() && kept == old(kept)
      ensures live.featureVector == Zeros(featureLength) && live.VOld == Zeros(featureLength)
      ensures live.weights == [Zeros(featureLength)]
      ensures live.Z == old(live.Z) && live.featureCounter == old(live.featureCounter)
      ensures !old(status.hasArrays) ==>
        status == old(status).(hasVectors := true)
        && live.eTrace == old(live.eTrace) && live.betas == old(live.betas) && live.h == old(live.h)
        && live.hOld == old(live.hOld) && live.be == old(live.be) && live.idbdTrace == old(live.idbdTrace)
        && live.gradientNorm == old(live.gradientNorm)
      ensures old(status.hasArrays) ==>
        status == old(status).(loopCount := 0, betasShared := false, hShared := false)
        && live.eTrace == ZerosLike(old(live.eTrace)) && live.betas == ZerosLike(old(live.betas))
        && live.h == ZerosLike(old(live.h)) && live.hOld == ZerosLike(old(live.hOld))
        && live.be == ZerosLike(old(live.be)) && live.idbdTrace == ZerosLike(old(live.idbdTrace))
        && live.gradientNorm == ZerosLike(old(live.gradientNorm))
    {
      live := live.(featureVector := Zeros(featureLength), weights := [Zeros(featureLength)],
                    VOld := Zeros(featureLength));
      status := status.(hasVectors := true);
      if status.hasArrays {
        live := live.(eTrace := ZerosLike(live.eTrace), betas := ZerosLike(live.betas), h := ZerosLike(live.h),
                      hOld := ZerosLike(live.hOld), be := ZerosLike(live.be),
                      idbdTrace := ZerosLike(live.idbdTrace), gradientNorm := ZerosLike(live.gradientNorm));
        // New arrays: the snapshot no longer shares any.
        status := status.(loopCount := 0, betasShared := false, hShared := false);
      }
    }

    /** `setLoadOld(attribute)`. */
    method SetLoadOld(attribute: bool)
      requires Valid()
      modifies this
      ensures Valid() && live == old(live) && kept == old(kept)
      ensures status == old(status).(loadOld := attribute)
    {
      status := status.(loadOld := attribute);
    }

    /**
     * `saveInfo()`: keeps references to the current vectors and arrays for a
     * later restoring `update`. It fails (`ok` false) when an attribute it
     * reads does not exist yet, keeping what it stored before the failure.
     */
    method SaveInfo() returns (ok: bool)
      requires Valid()
      modifies this
      ensures Valid()
      ensures ok == old(status.hasArrays) && live == old(live)
      ensures !old(status.hasVectors) ==> kept == old(kept) && status == old(status)
      ensures old(status.hasVectors) && !old(status.hasArrays) ==>
        kept == old(kept).(featureVector := live.featureVector, weights := live.weights)
        && status == old(status).(savedVectors := true)
      ensures old(status.hasArrays) ==>
        kept == SnapshotOf(live)
        && status == old(status).(savedVectors := true, hasSnapshot := true, betasShared := true, hShared := true)
    {
      if !status.hasVectors {
        return false;
      }
      kept := kept.(featureVector := live.featureVector, weights := live.weights);
      status := status.(savedVectors := true);
      if !status.hasArrays {
        return false;
      }
      kept := SnapshotOf(live);
      status := status.(hasSnapshot := true, betasShared := true, hShared := true);
      return true;
    }

    /**
     * `update(newState, Znew)`, given the new feature vector (the coder's
     * output for newState) and one cumulant per head. The first call after
     * construction or a reset either restores the saved attributes (when
     * `loadOld` is set), and then fails on the unassigned `output`, or
     * allocates the arrays and returns zeros. A later call moves every head by
     * `HeadStep` and returns the new predictions, each scaled by one minus its
     * discount. The in-place writes of lines 228 and 240 reach the snapshot
     * when it shares the arrays written.
     */
    method Update(xNew: seq<real>, znew: seq<real>) returns (r: Result<seq<real>, UpdateError>)
      requires Valid() && |xNew| == featureLength && |znew| == |gammas|
      modifies this
      ensures Valid()
      // A first call that restores.
      ensures old(status.loopCount) == 0 && old(status.loadOld) && !old(status.savedVectors) ==>
        r == Err(SnapshotMissing) && live == old(live) && kept == old(kept) && status == old(status)
      ensures old(status.loopCount) == 0 && old(status.loadOld) && old(status.savedVectors) && !old(status.hasSnapshot) ==>
        r == Err(SnapshotMissing) && kept == old(kept) && status == old(status)
        && live == old(live).(featureVector := kept.featureVector, weights := kept.weights)
      ensures old(status.loopCount) == 0 && old(status.loadOld) && old(status.hasSnapshot) ==>
        r == Err(OutputUnbound) && kept == old(kept)
        && live == Restored(old(live), kept).(featureVector := xNew, Z := znew)
        && status == old(status).(loopCount := 1, hasArrays := true, betasShared := true, hShared := true)
      // A first call that starts afresh.
      ensures old(status.loopCount) == 0 && !old(status.loadOld) ==>
        r == Ok(Zeros(|gammas|)) && kept == old(kept) && live == Initial(xNew, znew, log(initAlpha))
        && status == old(status).(loopCount := 1, hasVectors := true, hasArrays := true, hasCounter := true,
                                  betasShared := false, hShared := false)
      // A later call that fails before changing anything.
      ensures old(status.loopCount) > 0 && !Conformant(old(live), |gammas|, featureLength) ==>
        r == Err(ShapeMismatch) && live == old(live) && kept == old(kept) && status == old(status)
      ensures old(status.loopCount) > 0 && Conformant(old(live), |gammas|, featureLength) && !old(status.hasCounter) ==>
        r == Err(CounterMissing) && live == old(live) && kept == old(kept) && status == old(status)
      ensures old(status.loopCount) > 0 && Conformant(old(live), |gammas|, featureLength) && old(status.hasCounter)
              && !IsGrid(old(live.featureCounter), |gammas|, featureLength) ==>
        r == Err(ShapeMismatch) && live == old(live) && kept == old(kept) && status == old(status)
      // A later call that learns.
      ensures old(status.loopCount) > 0 && Conformant(old(live), |gammas|, featureLength) && old(status.hasCounter)
              && IsGrid(old(live.featureCounter), |gammas|, featureLength) ==>
        live == Learned(old(live), Steps(old(live), xNew), xNew, znew) && r == Ok(Discounted(live.VOld, gammas))
        && kept == AfterStep(old(kept), Steps(old(live), xNew), old(status.betasShared), old(status.hShared))
        && status == old(status).(loopCount := old(status.loopCount) + 1, betasShared := false, hShared := false)
    {
      if status.loopCount == 0 {
        if status.loadOld {
          if !status.savedVectors {
            return Err(SnapshotMissing);
          }
          live := live.(featureVector := kept.featureVector, weights := kept.weights);
          if !status.hasSnapshot {
            return Err(SnapshotMissing);
          }
          live := Restored(live, kept).(featureVector := xNew, Z := znew);
          // The learner now holds the saved arrays themselves.
          status := status.(loopCount := 1, hasArrays := true, betasShared := true, hShared := true);
          return Err(OutputUnbound);
        }
        live := Initial(xNew, znew, log(initAlpha));
        status := status.(loopCount := 1, hasVectors := true, hasArrays := true, hasCounter := true,
                          betasShared := false, hShared := false);
        var output := Discounted(Zeros(|gammas|), gammas);
        assert output == Zeros(|gammas|);
        return Ok(output);
      }
      var l := live;
      if !Conformant(l, |gammas|, featureLength) {
        return Err(ShapeMismatch);
      }
      if !status.hasCounter {
        return Err(CounterMissing);
      }
      if !IsGrid(l.featureCounter, |gammas|, featureLength) {
        return Err(ShapeMismatch);
      }
      kept := AfterStep(kept, Steps(l, xNew), status.betasShared, status.hShared);
      live := Learned(l, Steps(l, xNew), xNew, znew);
      status := status.(loopCount := status.loopCount + 1, betasShared := false, hShared := false);
      return Ok(Discounted(live.VOld, gammas));
    }
  }
}
