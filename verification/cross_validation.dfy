/**
 * `CrossValidation` of Algorithms/Functions/RLCrossValidation.py: a sweep
 * over every combination of hyper-parameter values. For each combination it
 * sets the agent's parameters, resets it, replays the data column by column,
 * and scores the run by a lag; it returns the best lag, the first combination
 * that reached it, and the list of all lags.
 *
 * The agent is seen only through the calls made on it, which the model
 * records in order. The lag of a run (a cross-correlation peak computed by
 * scipy) is an arbitrary function of the combination.
 */
module HyperparameterSweep {
  import opened Outcomes

  /** The `parameters` argument: a dictionary from names to value lists, or anything else. */
  datatype Parameters = Dict(entries: seq<(string, seq<real>)>) | NotDict

  /** A call the sweep makes on the learning agent. */
  datatype Call =
    | Construct(numInputs: nat)                 // `agent(studyID = 'CrossVal', numInputs = ...)`
    | SetParams(assignment: seq<(string, real)>) // `setParams(**dict(zip(keys, combination)))`
    | Reset                                      // `reset()`, whose failure is ignored
    | Update(column: nat)                        // `update(data[:, column], Z[..column..])`

  /** `bestLag`: `float('-inf')` until a lag is recorded. */
  datatype Lag = NegInf | Finite(n: int)

  datatype SweepError =
    | NotADictionary  // the `TypeError` for a non-dict `parameters`
    | NoPredictions   // the `ValueError` of `np.concatenate([])` when the data has no columns

  datatype Sweep = Sweep(bestLag: Lag, bestParams: Option<seq<(string, real)>>, lagList: seq<int>, calls: seq<Call>)

  function Keys(entries: seq<(string, seq<real>)>): (ks: seq<string>)
    ensures |ks| == |entries| && forall i :: 0 <= i < |ks| ==> ks[i] == entries[i].0
  {
    seq(|entries|, i requires 0 <= i < |entries| => entries[i].0)
  }

  function Lists(entries: seq<(string, seq<real>)>): (ls: seq<seq<real>>)
    ensures |ls| == |entries| && forall i :: 0 <= i < |ls| ==> ls[i] == entries[i].1
  {
    seq(|entries|, i requires 0 <= i < |entries| => entries[i].1)
  }

  /** `dict(zip(keys, combination))`, as the list of its pairs. */
  function Assignment(keys: seq<string>, combo: seq<real>): (a: seq<(string, real)>)
    requires |keys| == |combo|
    ensures |a| == |keys| && forall i :: 0 <= i < |a| ==> a[i] == (keys[i], combo[i])
  {
    seq(|keys|, i requires 0 <= i < |keys| => (keys[i], combo[i]))
  }

  /** Every combination in `rest`, each with `h` put in front. */
  function Prefixed(h: real, rest: seq<seq<real>>): (r: seq<seq<real>>)
    ensures |r| == |rest| && forall i :: 0 <= i < |r| ==> r[i] == [h] + rest[i]
  {
    seq(|rest|, i requires 0 <= i < |rest| => [h] + rest[i])
  }

  /** The first value varying slowest: all of `rest` after heads[0], then after heads[1], ... */
  function Spread(heads: seq<real>, rest: seq<seq<real>>): seq<seq<real>>
  {
    if heads == [] then [] else Prefixed(heads[0], rest) + Spread(heads[1..], rest)
  }

  /** `itertools.product(*lists)`: the Cartesian product, in lexicographic order. */
  function Product(lists: seq<seq<real>>): seq<seq<real>>
  {
    if lists == [] then [[]] else Spread(lists[0], Product(lists[1..]))
  }

  /** The product of the list lengths. */
  function CountProduct(lists: seq<seq<real>>): nat
  {
    if lists == [] then 1 else |lists[0]| * CountProduct(lists[1..])
  }

  lemma {:induction false} SpreadLength(heads: seq<real>, rest: seq<seq<real>>)
    ensures |Spread(heads, rest)| == |heads| * |rest|
  {
    if heads != [] {
      SpreadLength(heads[1..], rest);
      var n, r := |heads| - 1, |rest|;
      assert |Spread(heads, rest)| == r + n * r;
      assert (n + 1) * r == n * r + r;
    }
  }

  /** The sweep visits as many combinations as the product of the list lengths. */
  lemma {:induction false} ProductLength(lists: seq<seq<real>>)
    ensures |Product(lists)| == CountProduct(lists)
  {
    if lists != [] {
      ProductLength(lists[1..]);
      SpreadLength(lists[0], Product(lists[1..]));
    }
  }

  lemma {:induction false} SpreadMember(heads: seq<real>, rest: seq<seq<real>>, c: seq<real>)
    ensures c in Spread(heads, rest) <==> |c| > 0 && c[0] in heads && c[1..] in rest
  {
    if heads != [] {
      SpreadMember(heads[1..], rest, c);
      var p := Prefixed(heads[0], rest);
      assert Spread(heads, rest) == p + Spread(heads[1..], rest);
      if c in p {
        var i :| 0 <= i < |p| && p[i] == c;
        assert c[1..] == rest[i];
      }
      if |c| > 0 && c[0] == heads[0] && c[1..] in rest {
        var i :| 0 <= i < |rest| && rest[i] == c[1..];
        assert p[i] == c;
      }
      assert heads == [heads[0]] + heads[1..];
    }
  }

  /**
   * A sequence is one of the visited combinations exactly when it picks one
   * value from each list, in key order.
   */
  lemma {:induction false} ProductMember(lists: seq<seq<real>>, c: seq<real>)
    ensures c in Product(lists) <==> |c| == |lists| && forall i :: 0 <= i < |c| ==> c[i] in lists[i]
  {
    if lists == [] {
      assert c in Product(lists) <==> c == [];
    } else {
      SpreadMember(lists[0], Product(lists[1..]), c);
      if |c| > 0 {
        ProductMember(lists[1..], c[1..]);
        if |c| == |lists| && c[0] in lists[0] && c[1..] in Product(lists[1..]) {
          forall i | 0 <= i < |c| ensures c[i] in lists[i] {
            if i > 0 {
              assert c[i] == c[1..][i - 1];
            }
          }
        }
        if |c| == |lists| && (forall i :: 0 <= i < |c| ==> c[i] in lists[i]) {
          forall i | 0 <= i < |c| - 1 ensures c[1..][i] in lists[1..][i] {
            assert c[1..][i] == c[i + 1];
          }
        }
      }
    }
  }

  /** `update` once per column, in order. */
  function Updates(iterations: nat): (u: seq<Call>)
    ensures |u| == iterations && forall t :: 0 <= t < iterations ==> u[t] == Update(t)
  {
    seq(iterations, t requires 0 <= t < iterations => Update(t))
  }

  /** The calls one combination's replay makes: parameters, reset, one update per column. */
  function Replay(keys: seq<string>, combo: seq<real>, iterations: nat): seq<Call>
    requires |keys| == |combo|
  {
    [SetParams(Assignment(keys, combo)), Reset] + Updates(iterations)
  }

  /** The replays of several combinations, one after the other. */
  function Replays(keys: seq<string>, combos: seq<seq<real>>, iterations: nat): seq<Call>
    requires forall m :: 0 <= m < |combos| ==> |combos[m]| == |keys|
  {
    if combos == [] then []
    else Replays(keys, combos[..|combos| - 1], iterations) + Replay(keys, combos[|combos| - 1], iterations)
  }

  /** Every replay is 2 + iterations calls long. */
  lemma {:induction false} ReplaysLength(keys: seq<string>, combos: seq<seq<real>>, iterations: nat)
    requires forall m :: 0 <= m < |combos| ==> |combos[m]| == |keys|
    ensures |Replays(keys, combos, iterations)| == |combos| * (2 + iterations)
    decreases |combos|
  {
    if combos != [] {
      var n := |combos| - 1;
      ReplaysLength(keys, combos[..n], iterations);
      assert (n + 1) * (2 + iterations) == n * (2 + iterations) + (2 + iterations);
    }
  }

  /**
   * Combination m's replay occupies the m-th block of 2 + iterations calls:
   * `setParams` with that combination, `reset`, then the updates.
   */
  lemma {:induction false} ReplayBlock(keys: seq<string>, combos: seq<seq<real>>, iterations: nat, m: nat)
    requires forall m :: 0 <= m < |combos| ==> |combos[m]| == |keys|
    requires m < |combos|
    ensures |Replays(keys, combos, iterations)| == |combos| * (2 + iterations)
    ensures Replays(keys, combos, iterations)[m * (2 + iterations)..(m + 1) * (2 + iterations)]
         == Replay(keys, combos[m], iterations)
    decreases |combos|
  {
    var w := 2 + iterations;
    var n := |combos| - 1;
    var init := combos[..n];
    ReplaysLength(keys, combos, iterations);
    ReplaysLength(keys, init, iterations);
    var front, last := Replays(keys, init, iterations), Replay(keys, combos[n], iterations);
    assert Replays(keys, combos, iterations) == front + last;
    var lo, hi := m * w, (m + 1) * w;
    NextMultiple(m, w);
    if m < n {
      ReplayBlock(keys, init, iterations, m);
      MultiplyMonotone(m + 1, n, w);
      SliceOfFront(front, last, lo, hi);
    } else {
      assert |last| == w;
      SliceOfBack(front, last);
    }
  }

  lemma NextMultiple(m: nat, w: nat)
    ensures (m + 1) * w == m * w + w
  {
  }

  lemma MultiplyMonotone(a: nat, b: nat, c: nat)
    requires a <= b
    ensures a * c <= b * c
  {
  }

  lemma SliceOfFront<T>(a: seq<T>, b: seq<T>, lo: nat, hi: nat)
    requires lo <= hi <= |a|
    ensures (a + b)[lo..hi] == a[lo..hi]
  {
  }

  lemma SliceOfBack<T>(a: seq<T>, b: seq<T>)
    ensures (a + b)[|a|..|a| + |b|] == b
  {
  }

  /**
   * Whether a new lag beats the best so far: the comparison is strict, so a
   * later combination with an equal lag does not replace the earlier one.
   */
  predicate Beats(lag: int, best: Lag)
  {
    best.NegInf? || lag > best.n
  }

  /** Index i holds the largest lag, and every earlier lag is strictly smaller. */
  predicate FirstMaximum(lags: seq<int>, i: nat)
  {
    i < |lags|
    && (forall m :: 0 <= m < i ==> lags[m] < lags[i])
    && (forall m :: 0 <= m < |lags| ==> lags[m] <= lags[i])
  }

  /** Appending a lag keeps the first maximum, unless the new lag is strictly larger. */
  lemma FirstMaximumExtends(lags: seq<int>, i: nat, lag: int)
    requires FirstMaximum(lags, i)
    ensures lag > lags[i] ==> FirstMaximum(lags + [lag], |lags|)
    ensures lag <= lags[i] ==> FirstMaximum(lags + [lag], i)
  {
  }

  /** Every visited combination has one value per key. */
  lemma ProductArity(lists: seq<seq<real>>)
    ensures forall m :: 0 <= m < |Product(lists)| ==> |Product(lists)[m]| == |lists|
  {
    forall m | 0 <= m < |Product(lists)| ensures |Product(lists)[m]| == |lists| {
      ProductMember(lists, Product(lists)[m]);
    }
  }

  /** What a successful sweep over `combos` returns. */
  ghost predicate SweepOutcome(s: Sweep, keys: seq<string>, combos: seq<seq<real>>, lag: seq<real> -> int)
  {
    |s.lagList| == |combos|
    && (forall m :: 0 <= m < |combos| ==> s.lagList[m] == lag(combos[m]))
    && (combos == [] ==> s.bestLag == NegInf && s.bestParams == None)
    && (combos != [] ==>
          exists i: nat :: FirstMaximum(s.lagList, i) && |combos[i]| == |keys|
            && s.bestLag == Finite(s.lagList[i])
            && s.bestParams == Some(Assignment(keys, combos[i])))
  }

  /** The calls of one replay per combination, one column at a time. */
  method ReplayCalls(keys: seq<string>, combo: seq<real>, iterations: nat) returns (calls: seq<Call>)
    requires |keys| == |combo|
    ensures calls == Replay(keys, combo, iterations)
  {
    calls := [SetParams(Assignment(keys, combo)), Reset];
    for index := 0 to iterations
      invariant calls == [SetParams(Assignment(keys, combo)), Reset] + Updates(index)
    {
      calls := calls + [Update(index)];
    }
  }

  /**
   * The loop over the combinations: replay each, record its lag, and keep
   * the first combination with the strictly greatest lag.
   */
  method SweepCombinations(keys: seq<string>, combos: seq<seq<real>>, numInputs: nat, iterations: nat, lag: seq<real> -> int)
    returns (s: Sweep)
    requires forall m :: 0 <= m < |combos| ==> |combos[m]| == |keys|
    ensures SweepOutcome(s, keys, combos, lag)
    ensures s.calls == [Construct(numInputs)] + Replays(keys, combos, iterations)
  {
    var bestParams: Option<seq<(string, real)>> := None;
    var bestLag := NegInf;
    var lagList: seq<int> := [];
    var calls := [Construct(numInputs)];
    ghost var bestIndex: nat := 0;
    for c := 0 to |combos|
      invariant |lagList| == c && forall m :: 0 <= m < c ==> lagList[m] == lag(combos[m])
      invariant calls == [Construct(numInputs)] + Replays(keys, combos[..c], iterations)
      invariant c == 0 ==> bestLag == NegInf && bestParams == None
      invariant c > 0 ==>
        (FirstMaximum(lagList, bestIndex) && bestLag == Finite(lagList[bestIndex])
         && bestParams == Some(Assignment(keys, combos[bestIndex])))
    {
      var assignment := Assignment(keys, combos[c]);
      var replay := ReplayCalls(keys, combos[c], iterations);
      assert combos[..c + 1][..c] == combos[..c];
      calls := calls + replay;
      var l := lag(combos[c]);
      if c > 0 {
        FirstMaximumExtends(lagList, bestIndex, l);
      }
      lagList := lagList + [l];
      if Beats(l, bestLag) {
        bestLag := Finite(l);
        bestParams := Some(assignment);
        bestIndex := c;
      }
    }
    assert combos[..|combos|] == combos;
    s := Sweep(bestLag, bestParams, lagList, calls);
    if combos != [] {
      assert FirstMaximum(s.lagList, bestIndex);
    }
  }

  /**
   * `CrossValidation(agent, data, Z, parameters)` for data with `numInputs`
   * rows and `iterations` columns, where `lag(c)` is the lag the replay of
   * combination c scores.
   */
  method CrossValidation(parameters: Parameters, numInputs: nat, iterations: nat, lag: seq<real> -> int)
    returns (r: Result<Sweep, SweepError>)
    ensures parameters.NotDict? <==> r == Err(NotADictionary)
    ensures parameters.Dict? && iterations == 0 && Product(Lists(parameters.entries)) != [] ==>
      r == Err(NoPredictions)
    ensures parameters.Dict? && (iterations > 0 || Product(Lists(parameters.entries)) == []) ==>
      (r.Ok? && SweepOutcome(r.value, Keys(parameters.entries), Product(Lists(parameters.entries)), lag))
    ensures parameters.Dict? && (iterations > 0 || Product(Lists(parameters.entries)) == []) ==>
      (ProductArity(Lists(parameters.entries));
       r.Ok? && r.value.calls ==
         [Construct(numInputs)] + Replays(Keys(parameters.entries), Product(Lists(parameters.entries)), iterations))
  {
    if parameters.NotDict? {
      return Err(NotADictionary);
    }
    var keys := Keys(parameters.entries);
    var combos := Product(Lists(parameters.entries));
    ProductArity(Lists(parameters.entries));
    if iterations == 0 && combos != [] {
      // The first combination collects no prediction, and concatenating none raises.
      return Err(NoPredictions);
    }
    var s := SweepCombinations(keys, combos, numInputs, iterations, lag);
    return Ok(s);
  }
}
