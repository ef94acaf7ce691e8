/** The forward filter of the regime model, in the probability domain: a dynamic
    program over hidden states, and the sum over all state paths it stands for. */
module HmmForward {
  import opened Common

  /** Fitted start and transition probabilities, the positive floor they are clipped
      to, and for every observation the density of each state. */
  datatype Model = Model(start: seq<real>, trans: seq<seq<real>>, floor: real, emit: seq<seq<real>>)

  function States(m: Model): nat { |m.start| }

  /** Square transitions, and a positive density for every state at every time. */
  ghost predicate Valid(m: Model) {
    && States(m) > 0 && m.floor > 0.0 && |m.trans| == States(m)
    && (forall i :: 0 <= i < States(m) ==> |m.trans[i]| == States(m))
    && (forall t :: 0 <= t < |m.emit| ==> |m.emit[t]| == States(m) && Positive(m.emit[t]))
  }

  ghost predicate Positive(row: seq<real>) { forall j :: 0 <= j < |row| ==> row[j] > 0.0 }

  function StartOf(m: Model, j: nat): real
    requires j < States(m)
  {
    Max(m.start[j], m.floor)
  }

  function TransOf(m: Model, i: nat, j: nat): real
    requires Valid(m) && i < States(m) && j < States(m)
  {
    Max(m.trans[i][j], m.floor)
  }

  /** Probability mass arriving in state j from the first k states of a row. */
  function Arriving(m: Model, row: seq<real>, j: nat, k: nat): real
    requires Valid(m) && |row| == States(m) && j < States(m) && k <= States(m)
  {
    if k == 0 then 0.0 else Arriving(m, row, j, k - 1) + Value(row[k - 1], TransOf(m, k - 1, j))
  }

  function FirstRow(m: Model): (r: seq<real>)
    requires Valid(m) && m.emit != []
    ensures |r| == States(m)
  {
    seq(States(m), j requires 0 <= j < States(m) => Value(StartOf(m, j), m.emit[0][j]))
  }

  function NextRow(m: Model, row: seq<real>, t: nat): (r: seq<real>)
    requires Valid(m) && |row| == States(m) && t < |m.emit|
    ensures |r| == States(m)
  {
    seq(States(m), j requires 0 <= j < States(m) => Value(Arriving(m, row, j, States(m)), m.emit[t][j]))
  }

  /** Unnormalised filter row at time t. */
  function Alpha(m: Model, t: nat): (r: seq<real>)
    requires Valid(m) && t < |m.emit|
    ensures |r| == States(m)
  {
    if t == 0 then FirstRow(m) else NextRow(m, Alpha(m, t - 1), t)
  }

  function Divided(row: seq<real>, d: real): (r: seq<real>)
    requires d != 0.0
    ensures |r| == |row|
  {
    seq(|row|, j requires 0 <= j < |row| => row[j] / d)
  }

  /** Filtered posterior at time t. */
  function Posterior(m: Model, t: nat): (r: seq<real>)
    requires Valid(m) && t < |m.emit|
    ensures |r| == States(m)
  {
    AlphaIsPositive(m, t);
    PositiveSum(Alpha(m, t));
    Divided(Alpha(m, t), Sum(Alpha(m, t)))
  }

  lemma PositiveProduct(x: real, y: real)
    requires x > 0.0 && y > 0.0
    ensures Value(x, y) > 0.0
  {
  }

  lemma {:induction false} ArrivingIsPositive(m: Model, row: seq<real>, j: nat, k: nat)
    requires Valid(m) && |row| == States(m) && j < States(m) && k <= States(m) && Positive(row)
    ensures Arriving(m, row, j, k) >= 0.0 && (k > 0 ==> Arriving(m, row, j, k) > 0.0)
  {
    hide Value;
    if k > 0 {
      ArrivingIsPositive(m, row, j, k - 1);
      PositiveProduct(row[k - 1], TransOf(m, k - 1, j));
    }
  }

  lemma {:induction false} AlphaIsPositive(m: Model, t: nat)
    requires Valid(m) && t < |m.emit|
    ensures Positive(Alpha(m, t))
  {
    hide Value;
    forall j | 0 <= j < States(m) ensures Alpha(m, t)[j] > 0.0 {
      assert Positive(m.emit[t]);
      if t == 0 {
        PositiveProduct(StartOf(m, j), m.emit[0][j]);
      } else {
        AlphaIsPositive(m, t - 1);
        ArrivingIsPositive(m, Alpha(m, t - 1), j, States(m));
        PositiveProduct(Arriving(m, Alpha(m, t - 1), j, States(m)), m.emit[t][j]);
      }
    }
  }

  lemma {:induction false} PositiveSum(row: seq<real>)
    requires Positive(row)
    ensures Sum(row) >= 0.0 && (row != [] ==> Sum(row) > 0.0)
  {
    if row != [] { PositiveSum(row[1..]); }
  }

  /** The recursion as it runs, one row per observation, normalised at the end. */
  method ForwardFilteredPosterior(m: Model) returns (alpha: seq<seq<real>>, posterior: seq<seq<real>>)
    requires Valid(m) && m.emit != []
    ensures |alpha| == |posterior| == |m.emit|
    ensures forall t :: 0 <= t < |m.emit| ==> alpha[t] == Alpha(m, t) && posterior[t] == Posterior(m, t)
  {
    hide FirstRow, NextRow, Divided, Positive, Sum;
    alpha := [FirstRow(m)];
    var t := 1;
    while t < |m.emit|
      invariant 1 <= t <= |m.emit| && |alpha| == t
      invariant forall s :: 0 <= s < t ==> alpha[s] == Alpha(m, s)
    {
      alpha := alpha + [NextRow(m, alpha[t - 1], t)];
      t := t + 1;
    }
    posterior := [];
    t := 0;
    while t < |m.emit|
      invariant 0 <= t <= |m.emit| && |posterior| == t
      invariant forall s :: 0 <= s < t ==> posterior[s] == Posterior(m, s)
    {
      AlphaIsPositive(m, t);
      PositiveSum(Alpha(m, t));
      posterior := posterior + [Divided(alpha[t], Sum(alpha[t]))];
      t := t + 1;
    }
  }
}

/** The filter against brute force, and what normalisation guarantees. */
module HmmForwardProofs {
  import opened Common
  import opened HmmForward

  // -------------------------------------------------------------------------
  // State paths
  // -------------------------------------------------------------------------

  /** Appends a state to every path. */
  function Extended(ps: seq<seq<nat>>, i: nat): (r: seq<seq<nat>>)
    ensures |r| == |ps| && forall k :: 0 <= k < |ps| ==> r[k] == ps[k] + [i]
  {
    seq(|ps|, k requires 0 <= k < |ps| => ps[k] + [i])
  }

  /** Appends each of the first k states to every path. */
  function Spread(ps: seq<seq<nat>>, k: nat): seq<seq<nat>> {
    if k == 0 then [] else Spread(ps, k - 1) + Extended(ps, k - 1)
  }

  /** All state paths of a length. */
  function Paths(states: nat, n: nat): seq<seq<nat>> {
    if n == 0 then [[]] else Spread(Paths(states, n - 1), states)
  }

  ghost predicate IsPath(p: seq<nat>, states: nat, n: nat) { |p| == n && forall i :: 0 <= i < n ==> p[i] < states }

  lemma {:induction false} SpreadMembers(ps: seq<seq<nat>>, k: nat, p: seq<nat>)
    ensures p in Spread(ps, k) <==> p != [] && p[|p| - 1] < k && p[..|p| - 1] in ps
  {
    if k > 0 {
      SpreadMembers(ps, k - 1, p);
      if p in Extended(ps, k - 1) {
        var i :| 0 <= i < |ps| && ps[i] + [k - 1] == p;
        assert p[..|p| - 1] == ps[i];
      }
      if p != [] && p[|p| - 1] == k - 1 && p[..|p| - 1] in ps {
        var i :| 0 <= i < |ps| && ps[i] == p[..|p| - 1];
        assert Extended(ps, k - 1)[i] == p;
      }
    }
  }

  ghost predicate NoRepeats(ps: seq<seq<nat>>) { forall i, j :: 0 <= i < j < |ps| ==> ps[i] != ps[j] }

  lemma {:induction false} SpreadHasNoRepeats(ps: seq<seq<nat>>, k: nat)
    requires NoRepeats(ps)
    ensures NoRepeats(Spread(ps, k))
  {
    if k > 0 {
      SpreadHasNoRepeats(ps, k - 1);
      var a, b := Spread(ps, k - 1), Extended(ps, k - 1);
      var c: seq<seq<nat>> := a + b;
      forall i, j | 0 <= i < j < |c| ensures c[i] != c[j] {
        if i < |a| <= j {
          SpreadMembers(ps, k - 1, a[i]);
          assert a[i] in a && b[j - |a|][|b[j - |a|]| - 1] == k - 1;
        } else if |a| <= i {
          var x, y := ps[i - |a|], ps[j - |a|];
          assert x != y && b[i - |a|] == x + [k - 1] && b[j - |a|] == y + [k - 1];
          assert (x + [k - 1])[..|x|] == x && (y + [k - 1])[..|y|] == y;
        }
      }
    }
  }

  lemma PathFront(p: seq<nat>, states: nat, n: nat)
    requires n > 0
    ensures IsPath(p, states, n) <==> p != [] && p[|p| - 1] < states && IsPath(p[..|p| - 1], states, n - 1)
  {
    if p != [] {
      assert forall i :: 0 <= i < |p| - 1 ==> p[..|p| - 1][i] == p[i];
    }
  }

  /** The enumeration lists exactly the paths of that length, each once. */
  lemma {:induction false} PathsAreAllPaths(states: nat, n: nat, p: seq<nat>)
    ensures p in Paths(states, n) <==> IsPath(p, states, n)
    ensures NoRepeats(Paths(states, n))
  {
    hide Spread;
    if n > 0 {
      PathsAreAllPaths(states, n - 1, if p == [] then [] else p[..|p| - 1]);
      PathFront(p, states, n);
      SpreadMembers(Paths(states, n - 1), states, p);
      SpreadHasNoRepeats(Paths(states, n - 1), states);
    }
  }

  // -------------------------------------------------------------------------
  // Brute force
  // -------------------------------------------------------------------------

  /** Along one path, in the model's own fields: the start probability of its first
      state, the transition from each state to the next, and every emission. */
  function Weight(m: Model, p: seq<nat>): real
    requires Valid(m) && 0 < |p| <= |m.emit| && IsPath(p, States(m), |p|)
  {
    var n := |p| - 1;
    if n == 0 then Value(Max(m.start[p[0]], m.floor), m.emit[0][p[0]])
    else Value(Value(Weight(m, p[..n]), Max(m.trans[p[n - 1]][p[n]], m.floor)), m.emit[n][p[n]])
  }

  ghost predicate ArePaths(m: Model, ps: seq<seq<nat>>, n: nat) {
    forall k :: 0 <= k < |ps| ==> IsPath(ps[k], States(m), n)
  }

  /** Total weight of the paths that extend ps by the state j. */
  function TotalWeight(m: Model, ps: seq<seq<nat>>, n: nat, j: nat): real
    requires Valid(m) && n < |m.emit| && j < States(m) && ArePaths(m, ps, n)
  {
    if ps == [] then 0.0
    else
      TotalWeight(m, ps[..|ps| - 1], n, j) + Weight(m, ps[|ps| - 1] + [j])
  }

  lemma {:induction false} TotalWeightConcat(m: Model, ps: seq<seq<nat>>, qs: seq<seq<nat>>, n: nat, j: nat)
    requires Valid(m) && n < |m.emit| && j < States(m) && ArePaths(m, ps, n) && ArePaths(m, qs, n)
    ensures ArePaths(m, ps + qs, n)
    ensures TotalWeight(m, ps + qs, n, j) == TotalWeight(m, ps, n, j) + TotalWeight(m, qs, n, j)
  {
    hide Weight;
    if qs == [] {
      assert ps + qs == ps;
    } else {
      var k := |qs| - 1;
      TotalWeightConcat(m, ps, qs[..k], n, j);
      assert (ps + qs)[..|ps + qs| - 1] == ps + qs[..k];
    }
  }

  lemma Distribute(a: real, b: real, x: real)
    ensures Value(a + b, x) == Value(a, x) + Value(b, x) && Value(0.0, x) == 0.0
  {
    assert (a + b) * x == a * x + b * x;
  }

  lemma OneStepWeight(m: Model, q: seq<nat>, n: nat, i: nat, j: nat)
    requires Valid(m) && 0 < n < |m.emit| && i < States(m) && j < States(m) && IsPath(q, States(m), n - 1)
    ensures Weight(m, q + [i] + [j]) == Value(Value(Weight(m, q + [i]), TransOf(m, i, j)), m.emit[n][j])
  {
    hide Value, Max;
    var p := q + [i] + [j];
    assert p[..n] == q + [i] && p[n - 1] == i && p[n] == j;
  }

  /** All paths through state i at time n-1 into j at time n weigh what the paths into i weigh, times one step. */
  lemma {:induction false} StepThrough(m: Model, ps: seq<seq<nat>>, n: nat, i: nat, j: nat)
    requires Valid(m) && 0 < n < |m.emit| && i < States(m) && j < States(m) && ArePaths(m, ps, n - 1)
    ensures ArePaths(m, Extended(ps, i), n)
    ensures TotalWeight(m, Extended(ps, i), n, j)
         == Value(Value(TotalWeight(m, ps, n - 1, i), TransOf(m, i, j)), m.emit[n][j])
  {
    hide Value, Weight;
    var a, e := TransOf(m, i, j), m.emit[n][j];
    if ps == [] {
      Distribute(0.0, 0.0, a);
      Distribute(0.0, 0.0, e);
    } else {
      var k := |ps| - 1;
      StepThrough(m, ps[..k], n, i, j);
      assert Extended(ps, i)[..k] == Extended(ps[..k], i);
      var w := Weight(m, ps[k] + [i]);
      OneStepWeight(m, ps[k], n, i, j);
      Distribute(TotalWeight(m, ps[..k], n - 1, i), w, a);
      Distribute(Value(TotalWeight(m, ps[..k], n - 1, i), a), Value(w, a), e);
    }
  }

  lemma {:induction false} SpreadArrives(m: Model, ps: seq<seq<nat>>, row: seq<real>, n: nat, j: nat, k: nat)
    requires Valid(m) && 0 < n < |m.emit| && j < States(m) && k <= States(m) && ArePaths(m, ps, n - 1)
    requires |row| == States(m) && forall i :: 0 <= i < States(m) ==> row[i] == TotalWeight(m, ps, n - 1, i)
    ensures ArePaths(m, Spread(ps, k), n)
    ensures TotalWeight(m, Spread(ps, k), n, j) == Value(Arriving(m, row, j, k), m.emit[n][j])
  {
    hide Value, TotalWeight, TransOf;
    var e := m.emit[n][j];
    if k == 0 {
      Distribute(0.0, 0.0, e);
      assert TotalWeight(m, [], n, j) == 0.0 by { NoPaths(m, n, j); }
    } else {
      SpreadArrives(m, ps, row, n, j, k - 1);
      StepThrough(m, ps, n, k - 1, j);
      TotalWeightConcat(m, Spread(ps, k - 1), Extended(ps, k - 1), n, j);
      Distribute(Arriving(m, row, j, k - 1), Value(row[k - 1], TransOf(m, k - 1, j)), e);
    }
  }

  lemma NoPaths(m: Model, n: nat, j: nat)
    requires Valid(m) && n < |m.emit| && j < States(m)
    ensures TotalWeight(m, [], n, j) == 0.0
  {
  }

  lemma PathsArePaths(m: Model, n: nat)
    ensures ArePaths(m, Paths(States(m), n), n)
  {
    forall k | 0 <= k < |Paths(States(m), n)| ensures IsPath(Paths(States(m), n)[k], States(m), n) {
      PathsAreAllPaths(States(m), n, Paths(States(m), n)[k]);
    }
  }

  lemma FirstPaths(m: Model, j: nat)
    requires Valid(m) && 0 < |m.emit| && j < States(m)
    ensures ArePaths(m, Paths(States(m), 0), 0)
    ensures Alpha(m, 0)[j] == TotalWeight(m, Paths(States(m), 0), 0, j)
  {
    hide Value;
    var ps := Paths(States(m), 0);
    assert ps[..0] == [] && ps[0] + [j] == [j];
    assert TotalWeight(m, ps, 0, j) == TotalWeight(m, [], 0, j) + Weight(m, [j]);
  }

  /** The dynamic program is brute force: alpha[t][j] is the sum, over all state
      paths of length t + 1 that end in j, of start, transitions and emissions. */
  lemma {:induction false} AlphaIsSumOverPaths(m: Model, t: nat, j: nat)
    requires Valid(m) && t < |m.emit| && j < States(m)
    ensures ArePaths(m, Paths(States(m), t), t)
    ensures Alpha(m, t)[j] == TotalWeight(m, Paths(States(m), t), t, j)
  {
    hide Value, Arriving, Weight, TotalWeight, Spread, Valid;
    PathsArePaths(m, t);
    if t == 0 {
      FirstPaths(m, j);
    } else {
      PathsArePaths(m, t - 1);
      var row := Alpha(m, t - 1);
      forall i | 0 <= i < |row| ensures row[i] == TotalWeight(m, Paths(States(m), t - 1), t - 1, i) {
        AlphaIsSumOverPaths(m, t - 1, i);
      }
      SpreadArrives(m, Paths(States(m), t - 1), row, t, j, States(m));
    }
  }

  // -------------------------------------------------------------------------
  // Normalised rows
  // -------------------------------------------------------------------------

  lemma {:induction false} DividedSum(row: seq<real>, d: real)
    requires d != 0.0
    ensures Sum(Divided(row, d)) == Sum(row) / d
  {
    if row != [] {
      DividedSum(row[1..], d);
      assert Divided(row, d)[1..] == Divided(row[1..], d);
      AddQuotients(row[0], Sum(row[1..]), d);
    }
  }

  lemma AddQuotients(a: real, b: real, d: real)
    requires d != 0.0
    ensures (a + b) / d == a / d + b / d
  {
    var x, y := a / d, b / d;
    assert x * d == a && y * d == b;
    assert (x + y) * d == a + b;
  }

  /** Every posterior row is a probability distribution with no zero. */
  lemma PosteriorIsDistribution(m: Model, t: nat)
    requires Valid(m) && t < |m.emit|
    ensures Positive(Posterior(m, t)) && Sum(Posterior(m, t)) == 1.0
  {
    hide Alpha, Sum, Valid;
    assert States(m) > 0 by { HasStates(m); }
    AlphaIsPositive(m, t);
    PositiveSum(Alpha(m, t));
    var total := Sum(Alpha(m, t));
    DividedSum(Alpha(m, t), total);
    OwnShare(total);
    forall j | 0 <= j < States(m) ensures Posterior(m, t)[j] > 0.0 { QuotientSign(Alpha(m, t)[j], total); }
  }

  lemma OwnShare(x: real)
    requires x != 0.0
    ensures x / x == 1.0
  {
  }

  lemma HasStates(m: Model)
    requires Valid(m)
    ensures States(m) > 0
  {
  }

  function Times(row: seq<real>, c: real): (r: seq<real>)
    ensures |r| == |row|
  {
    seq(|row|, j requires 0 <= j < |row| => Value(row[j], c))
  }

  /** The same model with the densities of one observation scaled. */
  function Rescaled(m: Model, s: nat, c: real): Model
    requires s < |m.emit|
  {
    m.(emit := m.emit[s := Times(m.emit[s], c)])
  }

  lemma RescaledIsValid(m: Model, s: nat, c: real)
    requires Valid(m) && s < |m.emit| && c > 0.0
    ensures Valid(Rescaled(m, s, c))
  {
    hide Value;
    forall j | 0 <= j < States(m) ensures Times(m.emit[s], c)[j] > 0.0 {
      assert Positive(m.emit[s]);
      PositiveProduct(m.emit[s][j], c);
    }
  }

  lemma Commute(x: real, y: real, c: real)
    ensures Value(Value(x, c), y) == Value(Value(x, y), c) && Value(x, Value(y, c)) == Value(Value(x, y), c)
  {
    assert x * c * y == x * y * c;
  }

  lemma {:induction false} ArrivingScales(m: Model, n: Model, row: seq<real>, c: real, j: nat, k: nat)
    requires Valid(m) && Valid(n) && n.start == m.start && n.trans == m.trans && n.floor == m.floor
    requires |row| == States(m) && j < States(m) && k <= States(m)
    ensures Arriving(n, Times(row, c), j, k) == Value(Arriving(m, row, j, k), c)
  {
    hide Value;
    Distribute(0.0, 0.0, c);
    if k > 0 {
      ArrivingScales(m, n, row, c, j, k - 1);
      Commute(row[k - 1], TransOf(m, k - 1, j), c);
      Distribute(Arriving(m, row, j, k - 1), Value(row[k - 1], TransOf(m, k - 1, j)), c);
    }
  }

  lemma {:induction false} AlphaScales(m: Model, s: nat, c: real, t: nat)
    requires Valid(m) && s < |m.emit| && c > 0.0 && t < |m.emit| && Valid(Rescaled(m, s, c))
    ensures Alpha(Rescaled(m, s, c), t) == if t < s then Alpha(m, t) else Times(Alpha(m, t), c)
  {
    hide Value, Arriving, Valid;
    var n := Rescaled(m, s, c);
    if t > 0 { AlphaScales(m, s, c, t - 1); }
    forall j | 0 <= j < States(m)
      ensures Alpha(n, t)[j] == if t < s then Alpha(m, t)[j] else Value(Alpha(m, t)[j], c)
    {
      ScaledCell(m, s, c, t, j);
    }
  }

  lemma ScaledCell(m: Model, s: nat, c: real, t: nat, j: nat)
    requires Valid(m) && s < |m.emit| && c > 0.0 && t < |m.emit| && j < States(m) && Valid(Rescaled(m, s, c))
    requires t > 0 ==>
      Alpha(Rescaled(m, s, c), t - 1) == if t - 1 < s then Alpha(m, t - 1) else Times(Alpha(m, t - 1), c)
    ensures Alpha(Rescaled(m, s, c), t)[j] == if t < s then Alpha(m, t)[j] else Value(Alpha(m, t)[j], c)
  {
    hide Value;
    var n := Rescaled(m, s, c);
    if t == 0 {
      Commute(StartOf(m, j), m.emit[0][j], c);
    } else {
      var row := Alpha(m, t - 1);
      var sum := Arriving(m, row, j, States(m));
      ArrivingSame(m, n, row, j, States(m));
      ArrivingScales(m, n, row, c, j, States(m));
      Commute(sum, m.emit[t][j], c);
    }
  }

  lemma {:induction false} ArrivingSame(m: Model, n: Model, row: seq<real>, j: nat, k: nat)
    requires Valid(m) && Valid(n) && n.start == m.start && n.trans == m.trans && n.floor == m.floor
    requires |row| == States(m) && j < States(m) && k <= States(m)
    ensures Arriving(n, row, j, k) == Arriving(m, row, j, k)
  {
    hide Value;
    if k > 0 { ArrivingSame(m, n, row, j, k - 1); }
  }

  lemma {:induction false} TimesSum(row: seq<real>, c: real)
    ensures Sum(Times(row, c)) == Value(Sum(row), c)
  {
    hide Value;
    Distribute(0.0, 0.0, c);
    if row != [] {
      TimesSum(row[1..], c);
      assert Times(row, c)[1..] == Times(row[1..], c);
      Distribute(row[0], Sum(row[1..]), c);
    }
  }

  lemma SameRatio(x: real, d: real, c: real)
    requires d > 0.0 && c > 0.0
    ensures Value(d, c) > 0.0 && Value(x, c) / Value(d, c) == x / d
  {
    var q := x / d;
    assert q * d == x;
    assert q * (d * c) == x * c;
  }

  /** Scaling all densities of one observation by a positive constant changes no posterior row. */
  lemma PosteriorIsScaleFree(m: Model, s: nat, c: real, t: nat)
    requires Valid(m) && s < |m.emit| && c > 0.0 && t < |m.emit|
    ensures Valid(Rescaled(m, s, c)) && Posterior(Rescaled(m, s, c), t) == Posterior(m, t)
  {
    hide Alpha, Value, Sum, Valid;
    RescaledIsValid(m, s, c);
    AlphaScales(m, s, c, t);
    if t >= s {
      var row := Alpha(m, t);
      HasStates(m);
      AlphaIsPositive(m, t);
      PositiveSum(row);
      TimesSum(row, c);
      SameRatio(0.0, Sum(row), c);
      forall j | 0 <= j < |row| ensures Value(row[j], c) / Sum(Times(row, c)) == row[j] / Sum(row) {
        SameRatio(row[j], Sum(row), c);
      }
      AlphaIsPositive(Rescaled(m, s, c), t);
      PositiveSum(Times(row, c));
      assert Divided(Times(row, c), Sum(Times(row, c))) == Divided(row, Sum(row));
    }
  }

  /** The model as it stood after the first n observations. */
  function UpTo(m: Model, n: nat): Model
    requires n <= |m.emit|
  {
    m.(emit := m.emit[..n])
  }

  lemma UpToIsValid(m: Model, n: nat)
    requires Valid(m) && n <= |m.emit|
    ensures Valid(UpTo(m, n))
  {
  }

  lemma {:induction false} AlphaIsCausal(m: Model, n: nat, t: nat)
    requires Valid(m) && t < n <= |m.emit| && Valid(UpTo(m, n))
    ensures Alpha(UpTo(m, n), t) == Alpha(m, t)
  {
    hide Value, Arriving, Valid;
    if t > 0 { AlphaIsCausal(m, n, t - 1); }
    forall j | 0 <= j < States(m) ensures Alpha(UpTo(m, n), t)[j] == Alpha(m, t)[j] { CausalCell(m, n, t, j); }
  }

  lemma CausalCell(m: Model, n: nat, t: nat, j: nat)
    requires Valid(m) && t < n <= |m.emit| && j < States(m) && Valid(UpTo(m, n))
    requires t > 0 ==> Alpha(UpTo(m, n), t - 1) == Alpha(m, t - 1)
    ensures Alpha(UpTo(m, n), t)[j] == Alpha(m, t)[j]
  {
    hide Value;
    if t > 0 { ArrivingSame(m, UpTo(m, n), Alpha(m, t - 1), j, States(m)); }
  }

  /** Causality: the posterior at t is the last row of a run on the first t + 1 observations only. */
  lemma PosteriorIsCausal(m: Model, t: nat)
    requires Valid(m) && t < |m.emit|
    ensures Valid(UpTo(m, t + 1)) && |UpTo(m, t + 1).emit| == t + 1
    ensures Posterior(UpTo(m, t + 1), t) == Posterior(m, t)
  {
    hide Alpha, Valid;
    UpToIsValid(m, t + 1);
    AlphaIsCausal(m, t + 1, t);
  }

  // -------------------------------------------------------------------------
  // Conditional probability
  // -------------------------------------------------------------------------

  /** Total weight of whole paths of length n. */
  function PathsWeight(m: Model, ps: seq<seq<nat>>, n: nat): real
    requires Valid(m) && 0 < n <= |m.emit| && ArePaths(m, ps, n)
  {
    if ps == [] then 0.0 else PathsWeight(m, ps[..|ps| - 1], n) + Weight(m, ps[|ps| - 1])
  }

  lemma {:induction false} PathsWeightConcat(m: Model, ps: seq<seq<nat>>, qs: seq<seq<nat>>, n: nat)
    requires Valid(m) && 0 < n <= |m.emit| && ArePaths(m, ps, n) && ArePaths(m, qs, n)
    ensures ArePaths(m, ps + qs, n)
    ensures PathsWeight(m, ps + qs, n) == PathsWeight(m, ps, n) + PathsWeight(m, qs, n)
  {
    hide Weight;
    if qs == [] {
      assert ps + qs == ps;
    } else {
      var k := |qs| - 1;
      PathsWeightConcat(m, ps, qs[..k], n);
      assert (ps + qs)[..|ps + qs| - 1] == ps + qs[..k];
    }
  }

  lemma NothingWeighs(m: Model, n: nat)
    requires Valid(m) && 0 < n <= |m.emit|
    ensures ArePaths(m, [], n) && PathsWeight(m, [], n) == 0.0 && Sum([]) == 0.0
  {
  }

  lemma {:induction false} ExtendedWeight(m: Model, ps: seq<seq<nat>>, n: nat, j: nat)
    requires Valid(m) && n < |m.emit| && j < States(m) && ArePaths(m, ps, n)
    ensures ArePaths(m, Extended(ps, j), n + 1)
    ensures PathsWeight(m, Extended(ps, j), n + 1) == TotalWeight(m, ps, n, j)
  {
    hide Weight;
    if ps != [] {
      var k := |ps| - 1;
      ExtendedWeight(m, ps[..k], n, j);
      assert Extended(ps, j)[..k] == Extended(ps[..k], j);
    }
  }

  /** Whole paths are the paths into each of their last states. */
  lemma {:induction false} SpreadWeight(m: Model, ps: seq<seq<nat>>, row: seq<real>, n: nat, k: nat)
    requires Valid(m) && n < |m.emit| && k <= States(m) && ArePaths(m, ps, n)
    requires |row| == States(m) && forall j :: 0 <= j < States(m) ==> row[j] == TotalWeight(m, ps, n, j)
    ensures ArePaths(m, Spread(ps, k), n + 1)
    ensures PathsWeight(m, Spread(ps, k), n + 1) == Sum(row[..k])
  {
    hide Weight, TotalWeight, PathsWeight, Valid, Sum, Extended, ArePaths;
    if k == 0 {
      NothingWeighs(m, n + 1);
    } else {
      SpreadWeight(m, ps, row, n, k - 1);
      ExtendedWeight(m, ps, n, k - 1);
      PathsWeightConcat(m, Spread(ps, k - 1), Extended(ps, k - 1), n + 1);
      SumSnoc(row[..k - 1], row[k - 1]);
      assert row[..k] == row[..k - 1] + [row[k - 1]];
    }
  }

  /** Bayes: the posterior of state j at time t is the weight of the state paths that
      end in j, as a share of the weight of all state paths of that length. */
  lemma PosteriorIsConditional(m: Model, t: nat, j: nat)
    requires Valid(m) && t < |m.emit| && j < States(m)
    ensures ArePaths(m, Paths(States(m), t), t) && ArePaths(m, Paths(States(m), t + 1), t + 1)
    ensures var all := PathsWeight(m, Paths(States(m), t + 1), t + 1);
            all > 0.0 && Posterior(m, t)[j] == TotalWeight(m, Paths(States(m), t), t, j) / all
  {
    hide Alpha, Sum, Weight, TotalWeight, PathsWeight, Spread, Valid;
    var row := Alpha(m, t);
    PathsArePaths(m, t);
    PathsArePaths(m, t + 1);
    forall i | 0 <= i < |row| ensures row[i] == TotalWeight(m, Paths(States(m), t), t, i) {
      AlphaIsSumOverPaths(m, t, i);
    }
    SpreadWeight(m, Paths(States(m), t), row, t, States(m));
    assert row[..States(m)] == row;
    HasStates(m);
    AlphaIsPositive(m, t);
    PositiveSum(row);
  }

  // -------------------------------------------------------------------------
  // Conservation of mass
  // -------------------------------------------------------------------------

  /** From every state the probabilities of the next one sum to one, and none is below the floor. */
  ghost predicate Stochastic(m: Model) {
    forall i :: 0 <= i < |m.trans| ==>
      Sum(m.trans[i]) == 1.0 && forall j :: 0 <= j < |m.trans[i]| ==> m.trans[i][j] >= m.floor
  }

  lemma {:induction false} SumAdds(a: seq<real>, b: seq<real>, c: seq<real>)
    requires |a| == |b| == |c| && forall j :: 0 <= j < |a| ==> c[j] == a[j] + b[j]
    ensures Sum(c) == Sum(a) + Sum(b)
  {
    if a != [] { SumAdds(a[1..], b[1..], c[1..]); }
  }

  lemma {:induction false} SumOfZeros(s: seq<real>)
    requires forall j :: 0 <= j < |s| ==> s[j] == 0.0
    ensures Sum(s) == 0.0
  {
    if s != [] { SumOfZeros(s[1..]); }
  }

  /** What all states receive from the first k ones. */
  function Received(m: Model, row: seq<real>, k: nat): (r: seq<real>)
    requires Valid(m) && |row| == States(m) && k <= States(m)
    ensures |r| == States(m)
  {
    seq(States(m), j requires 0 <= j < States(m) => Arriving(m, row, j, k))
  }

  lemma {:induction false} ReceivedIsSent(m: Model, row: seq<real>, k: nat)
    requires Valid(m) && Stochastic(m) && |row| == States(m) && k <= States(m)
    ensures Sum(Received(m, row, k)) == Sum(row[..k])
  {
    hide Value;
    if k == 0 {
      SumOfZeros(Received(m, row, 0));
    } else {
      ReceivedIsSent(m, row, k - 1);
      var sent := Times(m.trans[k - 1], row[k - 1]);
      forall j | 0 <= j < States(m)
        ensures Received(m, row, k)[j] == Received(m, row, k - 1)[j] + sent[j]
      {
        SwapFactors(row[k - 1], m.trans[k - 1][j]);
      }
      SumAdds(Received(m, row, k - 1), sent, Received(m, row, k));
      TimesSum(m.trans[k - 1], row[k - 1]);
      SwapFactors(1.0, row[k - 1]);
      SumSnoc(row[..k - 1], row[k - 1]);
      assert row[..k] == row[..k - 1] + [row[k - 1]];
    }
  }

  lemma SwapFactors(x: real, y: real)
    ensures Value(x, y) == Value(y, x) && Value(1.0, y) == y && Value(x, 1.0) == x
  {
  }

  /** Conservation of mass: an observation that is equally likely in every state
      redistributes the probability among the states and loses none. */
  lemma MassIsConserved(m: Model, t: nat)
    requires Valid(m) && Stochastic(m) && 0 < t < |m.emit|
    requires forall j :: 0 <= j < States(m) ==> m.emit[t][j] == 1.0
    ensures Sum(Alpha(m, t)) == Sum(Alpha(m, t - 1))
  {
    hide Value, Sum, Arriving;
    var row := Alpha(m, t - 1);
    ReceivedIsSent(m, row, States(m));
    assert row[..States(m)] == row;
    forall j | 0 <= j < States(m) ensures Alpha(m, t)[j] == Received(m, row, States(m))[j] {
      SwapFactors(Arriving(m, row, j, States(m)), 1.0);
    }
    assert Alpha(m, t) == Received(m, row, States(m));
  }
}
