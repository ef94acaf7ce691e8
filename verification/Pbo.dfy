/** Probability of backtest overfitting by combinatorially symmetric cross-validation. */
module Pbo {
  import opened Common

  /** One period's returns, one entry per strategy. */
  type Row = seq<real>

  ghost predicate Rect(rows: seq<Row>, n: nat) {
    forall i :: 0 <= i < |rows| ==> |rows[i]| == n
  }

  // -------------------------------------------------------------------------
  // Ranks: 1 is best, ties share the mean of the places they take up
  // -------------------------------------------------------------------------

  function Greater(row: Row, v: real): nat {
    if row == [] then 0 else Greater(row[..|row| - 1], v) + if row[|row| - 1] > v then 1 else 0
  }

  function Equal(row: Row, v: real): nat {
    if row == [] then 0 else Equal(row[..|row| - 1], v) + if row[|row| - 1] == v then 1 else 0
  }

  function Rank(row: Row, v: real): real {
    Greater(row, v) as real + (Equal(row, v) as real + 1.0) / 2.0
  }

  function RankTotal(rows: seq<Row>, n: nat, j: nat): real
    requires Rect(rows, n) && j < n
  {
    if rows == [] then 0.0
    else RankTotal(rows[..|rows| - 1], n, j) + Rank(rows[|rows| - 1], rows[|rows| - 1][j])
  }

  /** Mean rank of strategy j over the rows, scaled into (0, 1). */
  function Lambda(rows: seq<Row>, n: nat, j: nat): real
    requires Rect(rows, n) && j < n && rows != []
  {
    RankTotal(rows, n, j) / |rows| as real / (n + 1) as real
  }

  const LOGIT_EPS: real := 0.000000000001

  function Clip(x: real, lo: real, hi: real): real { Min(Max(x, lo), hi) }

  function Logit(ln: real -> real, relative: real): real {
    var c := Clip(relative, LOGIT_EPS, 1.0 - LOGIT_EPS);
    ln(c / (1.0 - c))
  }

  // -------------------------------------------------------------------------
  // Contiguous blocks and the in-sample/out-of-sample splits
  // -------------------------------------------------------------------------

  /** Cutting n rows into t blocks: the first n mod t blocks are one row longer. */
  function BlockSize(n: nat, t: nat, b: nat): nat
    requires 0 < t
  {
    n / t + if b < n % t then 1 else 0
  }

  function BlockStart(n: nat, t: nat, b: nat): nat
    requires 0 < t
  {
    if b == 0 then 0 else BlockStart(n, t, b - 1) + BlockSize(n, t, b - 1)
  }

  lemma {:induction false} BlockStartClosed(n: nat, t: nat, b: nat, q: nat, r: nat)
    requires 0 < t && q == n / t && r == n % t
    ensures BlockStart(n, t, b) == b * q + if b < r then b else r
  {
    hide BlockSize;
    if b != 0 {
      BlockStartClosed(n, t, b - 1, q, r);
      SizeIs(n, t, b - 1, q, r);
      assert b * q == (b - 1) * q + q;
    }
  }

  lemma SizeIs(n: nat, t: nat, b: nat, q: nat, r: nat)
    requires 0 < t && q == n / t && r == n % t
    ensures BlockSize(n, t, b) == q + if b < r then 1 else 0
  {
  }

  lemma {:induction false} BlockStartGrows(n: nat, t: nat, b: nat, c: nat)
    requires 0 < t && b <= c
    ensures BlockStart(n, t, b) <= BlockStart(n, t, c)
  {
    hide BlockSize;
    if b < c { BlockStartGrows(n, t, b, c - 1); }
  }

  /** The last block ends at the last row. */
  lemma BlocksEnd(n: nat, t: nat)
    requires 0 < t
    ensures BlockStart(n, t, t) == n
  {
    BlockStartClosed(n, t, t, n / t, n % t);
  }

  lemma BlockBounds(n: nat, t: nat, b: nat)
    requires b < t
    ensures BlockStart(n, t, b) + n / t <= BlockStart(n, t, b + 1) <= n
  {
    BlockStartGrows(n, t, b + 1, t);
    BlocksEnd(n, t);
  }

  lemma BlockFits(n: nat, t: nat, b: nat)
    requires b < t
    ensures BlockStart(n, t, b) <= BlockStart(n, t, b + 1) <= n
  {
    BlockBounds(n, t, b);
  }

  function Block(m: seq<Row>, t: nat, b: nat): seq<Row>
    requires b < t
  {
    hide BlockStart;
    BlockFits(|m|, t, b);
    m[BlockStart(|m|, t, b)..BlockStart(|m|, t, b + 1)]
  }

  /** Rows of the blocks below b that are chosen (or, for `inside` false, not chosen). */
  function Pick(m: seq<Row>, t: nat, combo: seq<nat>, inside: bool, b: nat): seq<Row>
    requires b <= t
  {
    if b == 0 then []
    else Pick(m, t, combo, inside, b - 1) + if (b - 1 in combo) == inside then Block(m, t, b - 1) else []
  }

  function PrependAll(x: nat, s: seq<seq<nat>>): seq<seq<nat>> {
    if s == [] then [] else [[x] + s[0]] + PrependAll(x, s[1..])
  }

  /** All k-element selections from lo..t-1, in lexicographic order. */
  function Combinations(lo: nat, t: nat, k: nat): seq<seq<nat>>
    requires lo <= t
    decreases t - lo
  {
    if k == 0 then [[]]
    else if t - lo < k then []
    else PrependAll(lo, Combinations(lo + 1, t, k - 1)) + Combinations(lo + 1, t, k)
  }

  ghost predicate Selection(c: seq<nat>, lo: nat, t: nat, k: nat) {
    && |c| == k
    && (forall i :: 0 <= i < |c| ==> lo <= c[i] < t)
    && forall i, j :: 0 <= i < j < |c| ==> c[i] < c[j]
  }

  function Chosen(all: seq<seq<nat>>, picked: seq<nat>): seq<seq<nat>>
    requires forall i :: 0 <= i < |picked| ==> picked[i] < |all|
  {
    if picked == [] then [] else Chosen(all, picked[..|picked| - 1]) + [all[picked[|picked| - 1]]]
  }

  // -------------------------------------------------------------------------
  // In-sample selection
  // -------------------------------------------------------------------------

  datatype Metric = MeanReturn | Sharpe

  datatype Config = Config(nBlocks: int, maxSplits: int, metric: Metric)

  function ColumnTotal(rows: seq<Row>, n: nat, j: nat): real
    requires Rect(rows, n) && j < n
  {
    if rows == [] then 0.0 else ColumnTotal(rows[..|rows| - 1], n, j) + rows[|rows| - 1][j]
  }

  function MeanScores(rows: seq<Row>, n: nat, upTo: nat): (s: seq<real>)
    requires Rect(rows, n) && upTo <= n && rows != []
    ensures |s| == upTo
  {
    if upTo == 0 then [] else MeanScores(rows, n, upTo - 1) + [ColumnTotal(rows, n, upTo - 1) / |rows| as real]
  }

  /** The first position of the largest entry. */
  function ArgMax(s: seq<real>): (r: nat)
    requires s != []
    ensures r < |s|
    ensures forall i :: 0 <= i < |s| ==> s[i] <= s[r]
    ensures forall i :: 0 <= i < r ==> s[i] < s[r]
  {
    if |s| == 1 then 0
    else
      var r := ArgMax(s[..|s| - 1]);
      assert forall i :: 0 <= i < |s| - 1 ==> s[..|s| - 1][i] == s[i];
      if s[|s| - 1] > s[r] then |s| - 1 else r
  }

  /** Sharpe scores of a sample, or None when fewer than two strategies vary in it. */
  type SharpeScores = seq<Row> -> Option<seq<real>>

  ghost predicate OnePerStrategy(sharpe: SharpeScores, n: nat) {
    forall rows :: sharpe(rows).Some? ==> |sharpe(rows).value| == n
  }

  function IsScores(rows: seq<Row>, n: nat, metric: Metric, sharpe: SharpeScores): Option<seq<real>>
    requires Rect(rows, n) && rows != []
  {
    match metric
    case MeanReturn => Some(MeanScores(rows, n, n))
    case Sharpe => sharpe(rows)
  }

  // -------------------------------------------------------------------------
  // Aggregates
  // -------------------------------------------------------------------------

  function Positive(logits: seq<real>): nat {
    if logits == [] then 0 else Positive(logits[..|logits| - 1]) + if logits[|logits| - 1] > 0.0 then 1 else 0
  }

  function Wins(best: seq<nat>, s: nat): nat {
    if best == [] then 0 else Wins(best[..|best| - 1], s) + if best[|best| - 1] == s then 1 else 0
  }

  function PositiveWins(best: seq<nat>, logits: seq<real>, s: nat): nat
    requires |best| == |logits|
  {
    if best == [] then 0
    else
      var n := |best| - 1;
      PositiveWins(best[..n], logits[..n], s) + if best[n] == s && logits[n] > 0.0 then 1 else 0
  }

  function Fraction(hits: nat, outOf: nat): real
    requires outOf > 0
  {
    hits as real / outOf as real
  }

  lemma {:induction false} WinnersWin(best: seq<nat>, s: nat)
    ensures Wins(best, s) > 0 <==> s in best
  {
    if best != [] {
      WinnersWin(best[..|best| - 1], s);
      assert best == best[..|best| - 1] + [best[|best| - 1]];
    }
  }

  /** Overfitting frequency among the splits strategy s won. */
  function Conditional(best: seq<nat>, logits: seq<real>, s: nat): real
    requires |best| == |logits| && s in best
  {
    WinnersWin(best, s);
    Fraction(PositiveWins(best, logits, s), Wins(best, s))
  }

  function StandardErrorSquared(pbo: real, n: nat): real
    requires n > 0
  {
    pbo * (1.0 - pbo) / n as real
  }

  datatype Analysis = Analysis(
    pbo: real, nTotal: nat, combinations: seq<seq<nat>>, lambdas: seq<real>, logits: seq<real>, isBest: seq<nat>,
    conditional: map<nat, real>, maxConditional: real, stderrSquared: real)

  datatype Refusal = BadBlocks | BadSplits | TooFewObservations | TooFewStrategies | DegenerateField

  datatype Outcome = Computed(analysis: Analysis) | Refused(reason: Refusal)

  // -------------------------------------------------------------------------
  // Splits are usable: both samples of a split are non-empty
  // -------------------------------------------------------------------------

  lemma SliceIsRect(m: seq<Row>, n: nat, lo: nat, hi: nat)
    requires Rect(m, n) && lo <= hi <= |m|
    ensures Rect(m[lo..hi], n)
  {
  }

  lemma BlockIsRect(m: seq<Row>, n: nat, t: nat, b: nat)
    requires Rect(m, n) && b < t
    ensures Rect(Block(m, t, b), n)
  {
    hide BlockStart, Rect;
    BlockBounds(|m|, t, b);
    SliceIsRect(m, n, BlockStart(|m|, t, b), BlockStart(|m|, t, b + 1));
  }

  lemma {:induction false} PickIsRect(m: seq<Row>, n: nat, t: nat, combo: seq<nat>, inside: bool, b: nat)
    requires Rect(m, n) && b <= t
    ensures Rect(Pick(m, t, combo, inside, b), n)
  {
    hide Block;
    if b != 0 {
      PickIsRect(m, n, t, combo, inside, b - 1);
      BlockIsRect(m, n, t, b - 1);
    }
  }

  lemma BlockIsNotEmpty(m: seq<Row>, t: nat, b: nat)
    requires b < t && |m| >= t
    ensures Block(m, t, b) != []
  {
    hide BlockStart;
    BlockBounds(|m|, t, b);
    assert |m| / t >= 1;
  }

  lemma {:induction false} PickHolds(m: seq<Row>, t: nat, combo: seq<nat>, inside: bool, b: nat, x: nat)
    requires x < b <= t && (x in combo) == inside && |m| >= t
    ensures Pick(m, t, combo, inside, b) != []
  {
    hide BlockStart;
    if x == b - 1 {
      BlockIsNotEmpty(m, t, x);
    } else {
      PickHolds(m, t, combo, inside, b - 1, x);
    }
  }

  /** A selection of fewer than t blocks misses one. */
  lemma {:induction false} SomeBlockIsLeft(c: seq<nat>, t: nat) returns (x: nat)
    requires Selection(c, 0, t, |c|) && |c| < t
    ensures x < t && x !in c
  {
    if c == [] || c[|c| - 1] != t - 1 {
      x := t - 1;
    } else {
      x := SomeBlockIsLeft(c[..|c| - 1], t - 1);
      assert c == c[..|c| - 1] + [t - 1];
    }
  }

  lemma SplitIsUsable(m: seq<Row>, n: nat, t: nat, combo: seq<nat>)
    requires Rect(m, n) && |m| >= 2 * t && 0 < |combo| < t && Selection(combo, 0, t, |combo|)
    ensures Rect(Pick(m, t, combo, true, t), n) && Pick(m, t, combo, true, t) != []
    ensures Rect(Pick(m, t, combo, false, t), n) && Pick(m, t, combo, false, t) != []
  {
    PickIsRect(m, n, t, combo, true, t);
    PickIsRect(m, n, t, combo, false, t);
    assert combo[0] in combo;
    PickHolds(m, t, combo, true, t, combo[0]);
    var x := SomeBlockIsLeft(combo, t);
    PickHolds(m, t, combo, false, t, x);
  }

  lemma {:induction false} ChosenAreDifferent(all: seq<seq<nat>>, picked: seq<nat>)
    requires forall i :: 0 <= i < |picked| ==> picked[i] < |all|
    requires NoRepeats(all) && forall i, j :: 0 <= i < j < |picked| ==> picked[i] < picked[j]
    ensures NoRepeats(Chosen(all, picked))
  {
    ChosenComeFromAll(all, picked);
  }

  /** No split is evaluated twice. */
  lemma SplitsAreDifferent(cfg: Config, picked: seq<nat>)
    requires ValidConfig(cfg)
    requires |Combinations(0, cfg.nBlocks, cfg.nBlocks / 2)| > cfg.maxSplits ==>
               ValidSample(picked, cfg, |Combinations(0, cfg.nBlocks, cfg.nBlocks / 2)|)
    ensures NoRepeats(Splits(cfg, picked))
  {
    hide Combinations, NoRepeats;
    CombinationsAreDifferent(0, cfg.nBlocks, cfg.nBlocks / 2);
    var all := Combinations(0, cfg.nBlocks, cfg.nBlocks / 2);
    if |all| > cfg.maxSplits { ChosenAreDifferent(all, picked); }
  }

  /** What one split contributes: the in-sample winner and its out-of-sample lambda. */
  function SplitOutcome(m: seq<Row>, n: nat, t: nat, combo: seq<nat>, metric: Metric,
                        sharpe: SharpeScores): Option<(nat, real)>
    requires Rect(m, n) && |m| >= 2 * t && 0 < |combo| < t && Selection(combo, 0, t, |combo|) && n > 0
    requires OnePerStrategy(sharpe, n)
  {
    SplitIsUsable(m, n, t, combo);
    var scores := IsScores(Pick(m, t, combo, true, t), n, metric, sharpe);
    if scores.None? then None
    else
      var j := ArgMax(scores.value);
      Some((j, Lambda(Pick(m, t, combo, false, t), n, j)))
  }

  // -------------------------------------------------------------------------
  // Combinations are exactly the selections
  // -------------------------------------------------------------------------

  lemma {:induction false} PrependAllMembers(x: nat, s: seq<seq<nat>>, c: seq<nat>)
    ensures |PrependAll(x, s)| == |s|
    ensures c in PrependAll(x, s) <==> c != [] && c[0] == x && c[1..] in s
  {
    if s != [] {
      PrependAllMembers(x, s[1..], c);
      assert s == [s[0]] + s[1..];
      assert ([x] + s[0])[1..] == s[0];
      assert c != [] && c[0] == x && c[1..] == s[0] ==> c == [x] + s[0];
    }
  }

  lemma SelectionHead(c: seq<nat>, lo: nat, t: nat, k: nat)
    requires 0 < k && lo < t
    ensures Selection(c, lo, t, k)
      <==> (c != [] && c[0] == lo && Selection(c[1..], lo + 1, t, k - 1)) || Selection(c, lo + 1, t, k)
  {
    if Selection(c, lo, t, k) {
      assert forall i :: 0 < i < |c| ==> c[0] < c[i];
      if c[0] == lo {
        assert Selection(c[1..], lo + 1, t, k - 1);
      } else {
        assert Selection(c, lo + 1, t, k);
      }
    }
    if c != [] && c[0] == lo && Selection(c[1..], lo + 1, t, k - 1) {
      forall i, j | 0 <= i < j < |c| ensures c[i] < c[j] {
        assert c[j] == c[1..][j - 1];
        if i > 0 { assert c[i] == c[1..][i - 1]; }
      }
      forall i | 0 <= i < |c| ensures lo <= c[i] < t {
        if i > 0 { assert c[i] == c[1..][i - 1]; }
      }
    }
  }

  lemma {:induction false} SelectionNeedsRoom(c: seq<nat>, lo: nat, t: nat, k: nat)
    requires Selection(c, lo, t, k) && lo <= t
    ensures k <= t - lo
  {
    if k > 0 { SelectionNeedsRoom(c[..k - 1], lo, c[k - 1], k - 1); }
  }

  /** The enumeration lists a combination exactly when it is an ascending selection of k blocks. */
  lemma {:induction false} CombinationsAreSelections(lo: nat, t: nat, k: nat, c: seq<nat>)
    requires lo <= t
    ensures c in Combinations(lo, t, k) <==> Selection(c, lo, t, k)
    decreases t - lo
  {
    hide Selection;
    if k == 0 {
      NoSelection(c, lo, t);
    } else if t - lo < k {
      if Selection(c, lo, t, k) { SelectionNeedsRoom(c, lo, t, k); }
    } else {
      SelectionHead(c, lo, t, k);
      PrependAllMembers(lo, Combinations(lo + 1, t, k - 1), c);
      CombinationsAreSelections(lo + 1, t, k, c);
      if c != [] { CombinationsAreSelections(lo + 1, t, k - 1, c[1..]); }
    }
  }

  ghost predicate NoRepeats(s: seq<seq<nat>>) { forall i, j :: 0 <= i < j < |s| ==> s[i] != s[j] }

  lemma {:induction false} PrependKeepsDifferent(x: nat, s: seq<seq<nat>>)
    requires NoRepeats(s)
    ensures NoRepeats(PrependAll(x, s))
  {
    if s != [] {
      PrependKeepsDifferent(x, s[1..]);
      assert [x] + s[0] !in PrependAll(x, s[1..]) by {
        PrependAllMembers(x, s[1..], [x] + s[0]);
        assert ([x] + s[0])[1..] == s[0];
        assert forall j :: 0 <= j < |s[1..]| ==> s[1..][j] != s[0];
      }
    }
  }

  lemma JoinDifferent(a: seq<seq<nat>>, b: seq<seq<nat>>)
    requires NoRepeats(a) && NoRepeats(b) && forall c :: !(c in a && c in b)
    ensures NoRepeats(a + b)
  {
    var s: seq<seq<nat>> := a + b;
    forall i, j | 0 <= i < j < |s| ensures s[i] != s[j] {
      if i < |a| <= j { assert s[i] in a && s[j] in b; }
    }
  }

  /** Each selection is listed once. */
  lemma {:induction false} CombinationsAreDifferent(lo: nat, t: nat, k: nat)
    requires lo <= t
    ensures NoRepeats(Combinations(lo, t, k))
    decreases t - lo
  {
    hide NoRepeats;
    if k == 0 || t - lo < k {
      FewAreDifferent();
    } else {
      var a, b := PrependAll(lo, Combinations(lo + 1, t, k - 1)), Combinations(lo + 1, t, k);
      CombinationsAreDifferent(lo + 1, t, k - 1);
      CombinationsAreDifferent(lo + 1, t, k);
      PrependKeepsDifferent(lo, Combinations(lo + 1, t, k - 1));
      forall c ensures !(c in a && c in b) {
        PrependAllMembers(lo, Combinations(lo + 1, t, k - 1), c);
        CombinationsAreSelections(lo + 1, t, k, c);
      }
      JoinDifferent(a, b);
    }
  }

  lemma FewAreDifferent()
    ensures NoRepeats([]) && NoRepeats([[]])
  {
  }

  function Factorial(n: nat): nat { if n == 0 then 1 else n * Factorial(n - 1) }

  /** How many there are: the binomial coefficient, n! / (k! (n - k)!). */
  lemma {:induction false} CombinationsCount(lo: nat, t: nat, k: nat)
    requires lo <= t
    ensures k > t - lo ==> Combinations(lo, t, k) == []
    ensures k <= t - lo ==>
              |Combinations(lo, t, k)| * (Factorial(k) * Factorial(t - lo - k)) == Factorial(t - lo)
    decreases t - lo
  {
    var n := t - lo;
    if 0 < k <= n {
      var first, rest := Combinations(lo + 1, t, k - 1), Combinations(lo + 1, t, k);
      CombinationsCount(lo + 1, t, k - 1);
      CombinationsCount(lo + 1, t, k);
      PrependAllMembers(lo, first, []);
      if k == n {
        PascalEnd(|first|, n, Factorial(n - 1));
      } else {
        PascalStep(|first|, |rest|, n, k, Factorial(k - 1), Factorial(n - k - 1), Factorial(n - 1));
      }
    }
  }

  lemma PascalEnd(first: nat, n: nat, f: nat)
    requires n > 0 && first * (f * 1) == f
    ensures first * (n * f * 1) == n * f
  {
    assert first * (n * f) == n * (first * f);
  }

  lemma PascalStep(first: nat, rest: nat, n: nat, k: nat, fk: nat, fr: nat, f: nat)
    requires 0 < k < n
    requires first * (fk * ((n - k) * fr)) == f && rest * (k * fk * fr) == f
    ensures (first + rest) * (k * fk * ((n - k) * fr)) == n * f
  {
    var p := fk * fr;
    assert first * (fk * ((n - k) * fr)) == first * p * (n - k);
    assert rest * (k * fk * fr) == rest * p * k;
    assert (first + rest) * (k * fk * ((n - k) * fr)) == (first * p * (n - k)) * k + (rest * p * k) * (n - k);
  }

  lemma NoSelection(c: seq<nat>, lo: nat, t: nat)
    ensures Selection(c, lo, t, 0) <==> c == []
  {
  }

  lemma {:induction false} CombinationsExist(lo: nat, t: nat, k: nat)
    requires lo + k <= t
    ensures |Combinations(lo, t, k)| > 0
    decreases t - lo
  {
    if k > 0 {
      CombinationsExist(lo + 1, t, k - 1);
      PrependAllMembers(lo, Combinations(lo + 1, t, k - 1), []);
    }
  }

  lemma {:induction false} ChosenComeFromAll(all: seq<seq<nat>>, picked: seq<nat>)
    requires forall i :: 0 <= i < |picked| ==> picked[i] < |all|
    ensures |Chosen(all, picked)| == |picked|
    ensures forall i :: 0 <= i < |picked| ==> Chosen(all, picked)[i] == all[picked[i]]
  {
    if picked != [] { ChosenComeFromAll(all, picked[..|picked| - 1]); }
  }

  // -------------------------------------------------------------------------
  // The computation
  // -------------------------------------------------------------------------

  /** A configuration the constructor accepts. */
  predicate ValidConfig(cfg: Config) { cfg.nBlocks >= 4 && cfg.nBlocks % 2 == 0 && cfg.maxSplits >= 1 }

  /** What the seeded generator may answer: maxSplits different positions, ascending. */
  ghost predicate ValidSample(picked: seq<nat>, cfg: Config, total: nat) {
    && |picked| == cfg.maxSplits
    && (forall i :: 0 <= i < |picked| ==> picked[i] < total)
    && forall i, j :: 0 <= i < j < |picked| ==> picked[i] < picked[j]
  }

  /** The splits that are evaluated. */
  function Splits(cfg: Config, picked: seq<nat>): seq<seq<nat>>
    requires ValidConfig(cfg)
    requires |Combinations(0, cfg.nBlocks, cfg.nBlocks / 2)| > cfg.maxSplits ==>
               ValidSample(picked, cfg, |Combinations(0, cfg.nBlocks, cfg.nBlocks / 2)|)
  {
    var all := Combinations(0, cfg.nBlocks, cfg.nBlocks / 2);
    if |all| > cfg.maxSplits then Chosen(all, picked) else all
  }

  lemma SplitsAreHalves(cfg: Config, picked: seq<nat>)
    requires ValidConfig(cfg)
    requires |Combinations(0, cfg.nBlocks, cfg.nBlocks / 2)| > cfg.maxSplits ==>
               ValidSample(picked, cfg, |Combinations(0, cfg.nBlocks, cfg.nBlocks / 2)|)
    ensures |Splits(cfg, picked)| > 0
    ensures forall k :: 0 <= k < |Splits(cfg, picked)| ==>
              && |Splits(cfg, picked)[k]| == cfg.nBlocks / 2
              && Selection(Splits(cfg, picked)[k], 0, cfg.nBlocks, cfg.nBlocks / 2)
  {
    hide Combinations;
    var all := Combinations(0, cfg.nBlocks, cfg.nBlocks / 2);
    CombinationsExist(0, cfg.nBlocks, cfg.nBlocks / 2);
    forall c | c in all ensures Selection(c, 0, cfg.nBlocks, cfg.nBlocks / 2) {
      CombinationsAreSelections(0, cfg.nBlocks, cfg.nBlocks / 2, c);
    }
    if |all| > cfg.maxSplits { ChosenComeFromAll(all, picked); }
    forall k | 0 <= k < |Splits(cfg, picked)|
      ensures Selection(Splits(cfg, picked)[k], 0, cfg.nBlocks, cfg.nBlocks / 2)
    {
      assert Splits(cfg, picked)[k] in all;
    }
  }

  ghost predicate WellPosed(m: seq<Row>, n: nat, cfg: Config, picked: seq<nat>, sharpe: SharpeScores) {
    && Rect(m, n) && OnePerStrategy(sharpe, n)
    && (ValidConfig(cfg) && |Combinations(0, cfg.nBlocks, cfg.nBlocks / 2)| > cfg.maxSplits ==>
          ValidSample(picked, cfg, |Combinations(0, cfg.nBlocks, cfg.nBlocks / 2)|))
  }

  /** The input checks, in their order. */
  function Objection(rows: nat, n: nat, cfg: Config): Option<Refusal> {
    if cfg.nBlocks < 4 || cfg.nBlocks % 2 != 0 then Some(BadBlocks)
    else if cfg.maxSplits < 1 then Some(BadSplits)
    else if rows < 2 * cfg.nBlocks then Some(TooFewObservations)
    else if n < 2 then Some(TooFewStrategies)
    else None
  }

  /** Outcome of the k-th evaluated split. */
  ghost function OutcomeAt(
    m: seq<Row>, n: nat, cfg: Config, picked: seq<nat>, sharpe: SharpeScores, k: nat
  ): Option<(nat, real)>
    requires WellPosed(m, n, cfg, picked, sharpe) && Objection(|m|, n, cfg).None?
    requires k < |Splits(cfg, picked)|
  {
    SplitsAreHalves(cfg, picked);
    SplitOutcome(m, n, cfg.nBlocks, Splits(cfg, picked)[k], cfg.metric, sharpe)
  }

  /** The fields of an analysis that come out of the loop over the splits. */
  ghost predicate Evaluated(
    m: seq<Row>, n: nat, cfg: Config, picked: seq<nat>, sharpe: SharpeScores, ln: real -> real,
    lambdas: seq<real>, logits: seq<real>, isBest: seq<nat>)
    requires WellPosed(m, n, cfg, picked, sharpe) && Objection(|m|, n, cfg).None?
  {
    && |lambdas| == |logits| == |isBest| == |Splits(cfg, picked)|
    && (forall k :: 0 <= k < |isBest| ==> OutcomeAt(m, n, cfg, picked, sharpe, k) == Some((isBest[k], lambdas[k])))
    && forall k :: 0 <= k < |isBest| ==> logits[k] == Logit(ln, lambdas[k])
  }

  /** The aggregate fields of an analysis. */
  ghost predicate Aggregated(a: Analysis) {
    && |a.isBest| == |a.logits| > 0
    && a.pbo == Fraction(Positive(a.logits), |a.logits|)
    && (forall s :: s in a.conditional <==> s in a.isBest)
    && (forall s :: s in a.conditional ==> a.conditional[s] == Conditional(a.isBest, a.logits, s))
    && (forall s :: s in a.conditional ==> a.conditional[s] <= a.maxConditional)
    && (exists s :: s in a.conditional && a.conditional[s] == a.maxConditional)
    && Value(a.stderrSquared, |a.logits| as real) == Value(a.pbo, 1.0 - a.pbo)
  }

  /** The loop over the splits; stops at the first sample the metric refuses. */
  method EvaluateSplits(m: seq<Row>, n: nat, cfg: Config, picked: seq<nat>, sharpe: SharpeScores)
    returns (lambdas: seq<real>, isBest: seq<nat>, degenerate: bool)
    requires WellPosed(m, n, cfg, picked, sharpe) && Objection(|m|, n, cfg).None?
    ensures degenerate <==> exists k :: 0 <= k < |Splits(cfg, picked)| && OutcomeAt(m, n, cfg, picked, sharpe, k).None?
    ensures !degenerate ==> |lambdas| == |isBest| == |Splits(cfg, picked)|
    ensures !degenerate ==>
              forall k :: 0 <= k < |isBest| ==> OutcomeAt(m, n, cfg, picked, sharpe, k) == Some((isBest[k], lambdas[k]))
  {
    hide SplitOutcome, Splits, Selection, Combinations;
    var combos := Splits(cfg, picked);
    var lams, best := new real[|combos|], new nat[|combos|];
    lambdas, isBest := [], [];
    for k := 0 to |combos|
      invariant forall i :: 0 <= i < k ==> OutcomeAt(m, n, cfg, picked, sharpe, i) == Some((best[i], lams[i]))
    {
      SplitsAreHalves(cfg, picked);
      var outcome := SplitOutcome(m, n, cfg.nBlocks, combos[k], cfg.metric, sharpe);
      assert outcome == OutcomeAt(m, n, cfg, picked, sharpe, k);
      if outcome.None? {
        return [], [], true;
      }
      best[k], lams[k] := outcome.value.0, outcome.value.1;
    }
    return lams[..], best[..], false;
  }

  /** Conditional frequencies of the strategies that won a split, and the largest of them. */
  method Condition(n: nat, isBest: seq<nat>, logits: seq<real>) returns (conditional: map<nat, real>, largest: real)
    requires |isBest| == |logits| > 0
    requires forall k :: 0 <= k < |isBest| ==> isBest[k] < n
    ensures forall s :: s in conditional <==> s in isBest
    ensures forall s :: s in conditional ==>
              conditional[s] == Conditional(isBest, logits, s) && conditional[s] <= largest
    ensures exists s :: s in conditional && conditional[s] == largest
  {
    hide Conditional;
    conditional, largest := map[], 0.0;
    ghost var top := 0;
    for s := 0 to n
      invariant forall x :: x in conditional <==> x in isBest && x < s
      invariant forall x :: x in conditional ==>
                  conditional[x] == Conditional(isBest, logits, x) && conditional[x] <= largest
      invariant conditional != map[] ==> top in conditional && conditional[top] == largest
    {
      if s in isBest {
        var c := Conditional(isBest, logits, s);
        if conditional == map[] || c > largest {
          largest, top := c, s;
        }
        conditional := conditional[s := c];
      }
    }
    assert isBest[0] in conditional;
  }

  method ComputePboCscv(
    m: seq<Row>, n: nat, cfg: Config, picked: seq<nat>, sharpe: SharpeScores, ln: real -> real
  ) returns (r: Outcome)
    requires WellPosed(m, n, cfg, picked, sharpe)
    ensures Objection(|m|, n, cfg).Some? ==> r == Refused(Objection(|m|, n, cfg).value)
    ensures cfg.nBlocks < 4 || cfg.nBlocks % 2 == 1 <==> r == Refused(BadBlocks)
    ensures r == Refused(BadSplits) ==> cfg.maxSplits < 1
    ensures r == Refused(TooFewObservations) ==> |m| < 2 * cfg.nBlocks
    ensures r == Refused(TooFewStrategies) ==> n < 2
    ensures r.Computed? ==> cfg.maxSplits >= 1 && |m| >= 2 * cfg.nBlocks && n >= 2
    ensures Objection(|m|, n, cfg).None? ==>
              (r.Refused? <==> exists k ::
                                 0 <= k < |Splits(cfg, picked)| && OutcomeAt(m, n, cfg, picked, sharpe, k).None?)
    ensures Objection(|m|, n, cfg).None? && r.Refused? ==> r.reason == DegenerateField
    ensures r.Computed? ==>
              && r.analysis.combinations == Splits(cfg, picked) && NoRepeats(r.analysis.combinations)
              && r.analysis.nTotal * (Factorial(cfg.nBlocks / 2) * Factorial(cfg.nBlocks / 2)) == Factorial(cfg.nBlocks)
              && Evaluated(m, n, cfg, picked, sharpe, ln, r.analysis.lambdas, r.analysis.logits, r.analysis.isBest)
              && Aggregated(r.analysis)
  {
    hide Splits, Combinations, OutcomeAt, Conditional, Logit, Factorial, NoRepeats;
    var objection := Objection(|m|, n, cfg);
    if objection.Some? {
      return Refused(objection.value);
    }
    var lambdas, isBest, degenerate := EvaluateSplits(m, n, cfg, picked, sharpe);
    if degenerate {
      return Refused(DegenerateField);
    }
    SplitsAreHalves(cfg, picked);
    forall k | 0 <= k < |isBest| ensures isBest[k] < n { BestIsAStrategy(m, n, cfg, picked, sharpe, k); }
    var logits := seq(|lambdas|, i requires 0 <= i < |lambdas| => Logit(ln, lambdas[i]));
    SplitsAreDifferent(cfg, picked);
    CombinationsCount(0, cfg.nBlocks, cfg.nBlocks / 2);
    assert cfg.nBlocks - cfg.nBlocks / 2 == cfg.nBlocks / 2;
    var pbo := Fraction(Positive(logits), |logits|);
    var conditional, largest := Condition(n, isBest, logits);
    r := Computed(Analysis(
      pbo, |Combinations(0, cfg.nBlocks, cfg.nBlocks / 2)|, Splits(cfg, picked), lambdas, logits, isBest,
      conditional, largest, StandardErrorSquared(pbo, |logits|)));
  }

  lemma BestIsAStrategy(m: seq<Row>, n: nat, cfg: Config, picked: seq<nat>, sharpe: SharpeScores, k: nat)
    requires WellPosed(m, n, cfg, picked, sharpe) && Objection(|m|, n, cfg).None? && k < |Splits(cfg, picked)|
    requires OutcomeAt(m, n, cfg, picked, sharpe, k).Some?
    ensures OutcomeAt(m, n, cfg, picked, sharpe, k).value.0 < n
  {
    hide Lambda, Pick;
  }
}

module PboProofs {
  import opened Common
  import opened Pbo

  // -------------------------------------------------------------------------
  // Rank arithmetic with ties
  // -------------------------------------------------------------------------

  function Less(row: Row, v: real): nat {
    if row == [] then 0 else Less(row[..|row| - 1], v) + if row[|row| - 1] < v then 1 else 0
  }

  lemma {:induction false} Trichotomy(row: Row, v: real)
    ensures Less(row, v) + Equal(row, v) + Greater(row, v) == |row|
  {
    if row != [] { Trichotomy(row[..|row| - 1], v); }
  }

  lemma CountsSnoc(row: Row, x: real, v: real)
    ensures Greater(row + [x], v) == Greater(row, v) + if x > v then 1 else 0
    ensures Equal(row + [x], v) == Equal(row, v) + if x == v then 1 else 0
    ensures Less(row + [x], v) == Less(row, v) + if x < v then 1 else 0
  {
    assert (row + [x])[..|row|] == row;
  }

  /** Ranks within `row` of all the given values, added up. */
  function RankSum(values: seq<real>, row: Row): real {
    if values == [] then 0.0 else RankSum(values[..|values| - 1], row) + Rank(row, values[|values| - 1])
  }

  /** A further competitor pushes back everyone it beats by one place, and everyone it ties with by half. */
  lemma {:induction false} RankSumPushed(values: seq<real>, row: Row, x: real)
    ensures RankSum(values, row + [x])
         == RankSum(values, row) + Less(values, x) as real + Equal(values, x) as real / 2.0
  {
    if values != [] {
      RankSumPushed(values[..|values| - 1], row, x);
      CountsSnoc(row, x, values[|values| - 1]);
    }
  }

  lemma RankSumSnoc(values: seq<real>, v: real, row: Row)
    ensures RankSum(values + [v], row) == RankSum(values, row) + Rank(row, v)
  {
    assert (values + [v])[..|values|] == values;
  }

  function Triangle(n: nat): real { n as real * (n + 1) as real / 2.0 }

  lemma TriangleStep(n: nat)
    ensures Triangle(n + 1) == Triangle(n) + (n + 1) as real
  {
  }

  /** However the ties fall, the ranks of a row of N entries add up to N(N+1)/2. */
  lemma {:induction false} RanksAddUp(row: Row)
    ensures RankSum(row, row) == Triangle(|row|)
  {
    hide Triangle;
    if row == [] {
      assert Triangle(0) == 0.0 by { EmptyTriangle(); }
    } else {
      var n := |row| - 1;
      var front, x := row[..n], row[n];
      assert row == front + [x];
      RanksAddUp(front);
      RankSumPushed(front, front, x);
      RankSumSnoc(front, x, row);
      CountsSnoc(front, x, x);
      Trichotomy(front, x);
      TriangleStep(n);
    }
  }

  lemma EmptyTriangle()
    ensures Triangle(0) == 0.0
  {
  }

  lemma {:induction false} OwnTie(row: Row, j: nat)
    requires j < |row|
    ensures Equal(row, row[j]) >= 1
  {
    if j < |row| - 1 { OwnTie(row[..|row| - 1], j); }
  }

  lemma RankInRange(row: Row, j: nat)
    requires j < |row|
    ensures 1.0 <= Rank(row, row[j]) <= |row| as real
  {
    OwnTie(row, j);
    Trichotomy(row, row[j]);
  }

  // The rank is the one a sort gives: equal entries stand next to each other, and
  // share the mean of the places they occupy.

  function Descending(row: Row): Row { StableSort(row, (a, b) => a > b) }

  lemma TakeOut(front: Row, x: real, b: Row) returns (i: nat)
    requires multiset(front + [x]) == multiset(b)
    ensures i < |b| && b[i] == x && multiset(front) == multiset(b[..i] + b[i + 1..])
  {
    assert x in multiset(b);
    i :| 0 <= i < |b| && b[i] == x;
    assert b == b[..i] + [x] + b[i + 1..];
    assert multiset(front) == multiset(b) - multiset{x};
  }

  lemma {:induction false} CountsByMultiset(a: Row, b: Row, v: real)
    requires multiset(a) == multiset(b)
    ensures Equal(a, v) == Equal(b, v) && Greater(a, v) == Greater(b, v)
    decreases |a|
  {
    if a == [] {
      assert |b| == |multiset(b)|;
    } else {
      var n, x := |a| - 1, a[|a| - 1];
      assert a == a[..n] + [x];
      var i := TakeOut(a[..n], x, b);
      CountsByMultiset(a[..n], b[..i] + b[i + 1..], v);
      CountsTakeOut(b, i, v);
    }
  }

  lemma {:induction false} CountsTakeOut(b: Row, i: nat, v: real)
    requires i < |b|
    ensures Equal(b, v) == Equal(b[..i] + b[i + 1..], v) + if b[i] == v then 1 else 0
    ensures Greater(b, v) == Greater(b[..i] + b[i + 1..], v) + if b[i] > v then 1 else 0
  {
    var n := |b| - 1;
    if i == n {
      assert b[..i] + b[i + 1..] == b[..n];
    } else {
      CountsTakeOut(b[..n], i, v);
      assert b[..i] + b[i + 1..] == (b[..n][..i] + b[..n][i + 1..]) + [b[n]];
      CountsSnoc(b[..n][..i] + b[..n][i + 1..], b[n], v);
    }
  }

  /** In a descending list the entries equal to v are those from place Greater+1 to place Greater+Equal. */
  lemma {:induction false} TiesStandTogether(s: Row, v: real, k: nat)
    requires k < |s| && forall i, j :: 0 <= i < j < |s| ==> s[i] >= s[j]
    ensures s[k] == v <==> Greater(s, v) <= k < Greater(s, v) + Equal(s, v)
    ensures s[k] > v <==> k < Greater(s, v)
  {
    var n := |s| - 1;
    if s[n] > v {
      AllGreater(s, v);
    } else if k < n {
      TiesStandTogether(s[..n], v, k);
      assert s[..n][k] == s[k];
    } else {
      NothingBelow(s, v);
      Trichotomy(s, v);
      assert s[k] == v ==> Less(s, v) == 0;
      assert s[k] < v ==> Less(s, v) > 0;
    }
  }

  lemma {:induction false} AllGreater(s: Row, v: real)
    requires forall i :: 0 <= i < |s| ==> s[i] > v
    ensures Greater(s, v) == |s| && Equal(s, v) == 0
  {
    if s != [] { AllGreater(s[..|s| - 1], v); }
  }

  lemma {:induction false} NothingBelow(s: Row, v: real)
    ensures (forall i :: 0 <= i < |s| ==> s[i] >= v) ==> Less(s, v) == 0
  {
    if s != [] { NothingBelow(s[..|s| - 1], v); }
  }

  /** Sum of the places lo+1..hi. */
  function Places(lo: nat, hi: nat): real
    requires lo <= hi
    decreases hi
  {
    if lo == hi then 0.0 else Places(lo, hi - 1) + hi as real
  }

  lemma {:induction false} PlacesSum(lo: nat, ties: nat)
    ensures Places(lo, lo + ties) == Value(ties as real, lo as real + (ties as real + 1.0) / 2.0)
  {
    if ties > 0 { PlacesSum(lo, ties - 1); }
  }

  lemma MeanOfPlaces(lo: nat, ties: nat)
    requires ties > 0
    ensures Places(lo, lo + ties) / ties as real == lo as real + (ties as real + 1.0) / 2.0
  {
    hide Places, Value;
    PlacesSum(lo, ties);
    DivideBack(ties as real, lo as real + (ties as real + 1.0) / 2.0);
  }

  lemma DivideBack(c: real, r: real)
    requires c > 0.0
    ensures Value(c, r) / c == r
  {
  }

  /** The rank of an entry is the mean of the places that its ties occupy in the descending row. */
  lemma RankIsMeanPlace(row: Row, j: nat)
    requires j < |row|
    ensures var s, v := Descending(row), row[j];
            var lo := Greater(row, v);
            var hi := lo + Equal(row, v);
            && multiset(s) == multiset(row) && |s| == |row|
            && (forall k :: 0 <= k < |s| ==> (s[k] == v <==> lo <= k < hi))
            && lo < hi
            && Rank(row, v) == Places(lo, hi) / (hi - lo) as real
  {
    hide Greater, Equal, Places, StableSort;
    var s, v := Descending(row), row[j];
    var before := (a: real, b: real) => a > b;
    StableSortSorts(row, before);
    StableSortKeepsAll(row, before);
    assert forall a: real, b: real :: before(a, b) == (a > b);
    CountsByMultiset(row, s, v);
    forall k | 0 <= k < |s| ensures s[k] == v <==> Greater(row, v) <= k < Greater(row, v) + Equal(row, v) {
      TiesStandTogether(s, v, k);
    }
    OwnTie(row, j);
    MeanOfPlaces(Greater(row, v), Equal(row, v));
  }

  // -------------------------------------------------------------------------
  // Lambda
  // -------------------------------------------------------------------------

  lemma {:induction false} RankTotalInRange(rows: seq<Row>, n: nat, j: nat)
    requires Rect(rows, n) && j < n
    ensures |rows| as real <= RankTotal(rows, n, j) <= Value(|rows| as real, n as real)
  {
    hide Rank;
    if rows != [] {
      RankTotalInRange(rows[..|rows| - 1], n, j);
      RankInRange(rows[|rows| - 1], j);
    }
  }

  lemma DivideWithin(x: real, lo: real, hi: real, c: real, d: real)
    requires c > 0.0 && d > 0.0 && Value(c, lo) <= x <= Value(c, hi)
    ensures lo / d <= x / c / d <= hi / d
  {
    DivideMonotone(Value(c, lo), x, c);
    DivideMonotone(x, Value(c, hi), c);
    DivideBack(c, lo);
    DivideBack(c, hi);
    DivideMonotone(lo, x / c, d);
    DivideMonotone(x / c, hi, d);
  }

  lemma DivideMonotone(x: real, y: real, c: real)
    requires c > 0.0 && x <= y
    ensures x / c <= y / c
  {
  }

  /** Lambda lies between 1/(N+1), always best, and N/(N+1), always worst. */
  lemma LambdaInRange(rows: seq<Row>, n: nat, j: nat)
    requires Rect(rows, n) && j < n && rows != []
    ensures 1.0 / (n + 1) as real <= Lambda(rows, n, j) <= n as real / (n + 1) as real
    ensures 0.0 < Lambda(rows, n, j) < 1.0
  {
    hide RankTotal, Rect;
    RankTotalInRange(rows, n, j);
    assert Value(|rows| as real, 1.0) == |rows| as real;
    DivideWithin(RankTotal(rows, n, j), 1.0, n as real, |rows| as real, (n + 1) as real);
  }

  function RankTotalSum(rows: seq<Row>, n: nat, k: nat): real
    requires Rect(rows, n) && k <= n
  {
    if k == 0 then 0.0 else RankTotalSum(rows, n, k - 1) + RankTotal(rows, n, k - 1)
  }

  /** Sum of the lambdas of the first k strategies. */
  function LambdaSum(rows: seq<Row>, n: nat, k: nat): real
    requires Rect(rows, n) && k <= n && rows != []
  {
    if k == 0 then 0.0 else LambdaSum(rows, n, k - 1) + Lambda(rows, n, k - 1)
  }

  /** One more row adds its ranks to the totals. */
  lemma {:induction false} RankTotalSumSnoc(rows: seq<Row>, n: nat, k: nat)
    requires Rect(rows, n) && k <= n && rows != []
    ensures var row := rows[|rows| - 1];
            RankTotalSum(rows, n, k) == RankTotalSum(rows[..|rows| - 1], n, k) + RankSum(row[..k], row)
  {
    hide Rank;
    var row := rows[|rows| - 1];
    if k > 0 {
      RankTotalSumSnoc(rows, n, k - 1);
      assert row[..k] == row[..k - 1] + [row[k - 1]];
      RankSumSnoc(row[..k - 1], row[k - 1], row);
    }
  }

  lemma {:induction false} NoRows(n: nat, k: nat)
    requires k <= n
    ensures RankTotalSum([], n, k) == 0.0
  {
    if k > 0 { NoRows(n, k - 1); }
  }

  lemma {:induction false} RankTotalsAddUp(rows: seq<Row>, n: nat)
    requires Rect(rows, n)
    ensures RankTotalSum(rows, n, n) == Value(|rows| as real, Triangle(n))
  {
    hide RankTotalSum, Triangle, RankSum;
    if rows == [] {
      NoRows(n, n);
    } else {
      var m := |rows| - 1;
      RankTotalsAddUp(rows[..m], n);
      RankTotalSumSnoc(rows, n, n);
      assert rows[m][..n] == rows[m];
      RanksAddUp(rows[m]);
    }
  }

  lemma {:induction false} LambdaSumScales(rows: seq<Row>, n: nat, k: nat)
    requires Rect(rows, n) && k <= n && rows != []
    ensures LambdaSum(rows, n, k) == RankTotalSum(rows, n, k) / |rows| as real / (n + 1) as real
  {
    hide RankTotal;
    if k > 0 {
      LambdaSumScales(rows, n, k - 1);
      DivideSum(RankTotalSum(rows, n, k - 1), RankTotal(rows, n, k - 1), |rows| as real, (n + 1) as real);
    }
  }

  lemma DivideSum(a: real, b: real, c: real, d: real)
    requires c > 0.0 && d > 0.0
    ensures (a + b) / c / d == a / c / d + b / c / d
  {
    assert (a + b) / c == a / c + b / c;
  }

  /** The lambdas of all strategies on one sample average exactly one half: an
      uninformative winner is as likely to land above as below. */
  lemma LambdasAverageHalf(rows: seq<Row>, n: nat)
    requires Rect(rows, n) && rows != [] && n > 0
    ensures LambdaSum(rows, n, n) / n as real == 0.5
  {
    hide LambdaSum, RankTotalSum, Rect, Triangle;
    LambdaSumScales(rows, n, n);
    RankTotalsAddUp(rows, n);
    DivideBack(|rows| as real, Triangle(n));
    HalfOfTriangle(n);
  }

  lemma HalfOfTriangle(n: nat)
    requires n > 0
    ensures Triangle(n) / (n + 1) as real / n as real == 0.5
  {
    var a, b := n as real, (n + 1) as real;
    assert Triangle(n) == Value(b, a / 2.0);
    DivideBack(b, a / 2.0);
  }

  function Negated(row: Row): Row { seq(|row|, i requires 0 <= i < |row| => -row[i]) }

  function NegatedAll(rows: seq<Row>): seq<Row> { seq(|rows|, i requires 0 <= i < |rows| => Negated(rows[i])) }

  lemma {:induction false} NegationSwaps(row: Row, v: real)
    ensures Greater(Negated(row), -v) == Less(row, v) && Equal(Negated(row), -v) == Equal(row, v)
  {
    if row != [] {
      NegationSwaps(row[..|row| - 1], v);
      assert Negated(row)[..|row| - 1] == Negated(row[..|row| - 1]);
    }
  }

  lemma RanksMirror(row: Row, v: real)
    ensures Rank(row, v) + Rank(Negated(row), -v) == (|row| + 1) as real
  {
    NegationSwaps(row, v);
    Trichotomy(row, v);
  }

  lemma OneMoreRow(rows: nat, c: real)
    ensures Value((rows + 1) as real, c) == Value(rows as real, c) + c
  {
  }

  lemma NegatedAllFront(rows: seq<Row>)
    requires rows != []
    ensures NegatedAll(rows)[..|rows| - 1] == NegatedAll(rows[..|rows| - 1])
  {
  }

  lemma NegatedAllIsRect(rows: seq<Row>, n: nat)
    requires Rect(rows, n)
    ensures Rect(NegatedAll(rows), n)
  {
  }

  lemma {:induction false} MirroredTotals(rows: seq<Row>, n: nat, j: nat)
    requires Rect(rows, n) && Rect(NegatedAll(rows), n) && j < n
    ensures RankTotal(rows, n, j) + RankTotal(NegatedAll(rows), n, j) == Value(|rows| as real, (n + 1) as real)
  {
    hide Rank, Value;
    if rows == [] {
      NoValue((n + 1) as real);
    } else {
      var m := |rows| - 1;
      NegatedAllIsRect(rows[..m], n);
      MirroredTotals(rows[..m], n, j);
      NegatedAllFront(rows);
      RanksMirror(rows[m], rows[m][j]);
      OneMoreRow(m, (n + 1) as real);
    }
  }

  /** Turning every return around mirrors lambda at one half. */
  lemma LambdaMirrors(rows: seq<Row>, n: nat, j: nat)
    requires Rect(rows, n) && j < n && rows != []
    ensures Rect(NegatedAll(rows), n)
    ensures Lambda(NegatedAll(rows), n, j) == 1.0 - Lambda(rows, n, j)
  {
    hide RankTotal, Rect;
    NegatedAllIsRect(rows, n);
    MirroredTotals(rows, n, j);
    var a, b := RankTotal(rows, n, j), RankTotal(NegatedAll(rows), n, j);
    DivideSum(a, b, |rows| as real, (n + 1) as real);
    DivideBack(|rows| as real, (n + 1) as real);
  }

  // -------------------------------------------------------------------------
  // The logit and the pooled estimate
  // -------------------------------------------------------------------------

  /** The one thing the estimate needs of the logarithm: it is positive exactly above one. */
  ghost predicate SignedLikeLog(ln: real -> real) {
    forall x: real :: x > 0.0 ==> (ln(x) > 0.0 <==> x > 1.0)
  }

  lemma OddsAboveOne(c: real)
    requires 0.0 < c < 1.0
    ensures 0.0 < c / (1.0 - c) && (c / (1.0 - c) > 1.0 <==> c > 0.5)
  {
    var d := 1.0 - c;
    assert d / d == 1.0;
    if c > 0.5 {
      assert (c - d) / d > 0.0;
      assert c / d == (c - d) / d + d / d;
    } else {
      assert (d - c) / d >= 0.0;
      assert c / d == d / d - (d - c) / d;
    }
  }

  /** The clipped logit is positive exactly when lambda lies above one half. */
  lemma LogitSign(ln: real -> real, relative: real)
    requires SignedLikeLog(ln)
    ensures Logit(ln, relative) > 0.0 <==> relative > 0.5
  {
    var c := Clip(relative, LOGIT_EPS, 1.0 - LOGIT_EPS);
    assert c > 0.5 <==> relative > 0.5;
    OddsAboveOne(c);
  }

  /** Sum over the strategies below k of share of splits won times conditional estimate. */
  function WeightedConditionals(best: seq<nat>, logits: seq<real>, k: nat): real
    requires |best| == |logits| > 0
  {
    if k == 0 then 0.0
    else
      WeightedConditionals(best, logits, k - 1)
        + if k - 1 in best then Value(Fraction(Wins(best, k - 1), |best|), Conditional(best, logits, k - 1)) else 0.0
  }

  function PositiveWinsBelow(best: seq<nat>, logits: seq<real>, k: nat): nat
    requires |best| == |logits|
  {
    if k == 0 then 0 else PositiveWinsBelow(best, logits, k - 1) + PositiveWins(best, logits, k - 1)
  }

  lemma {:induction false} OneMoreSplit(best: seq<nat>, logits: seq<real>, k: nat)
    requires |best| == |logits| > 0
    ensures var m := |best| - 1;
            PositiveWinsBelow(best, logits, k)
            == PositiveWinsBelow(best[..m], logits[..m], k) + if best[m] < k && logits[m] > 0.0 then 1 else 0
  {
    if k > 0 { OneMoreSplit(best, logits, k - 1); }
  }

  lemma {:induction false} NoSplits(k: nat)
    ensures PositiveWinsBelow([], [], k) == 0
  {
    if k > 0 { NoSplits(k - 1); }
  }

  /** Every overfitted split is attributed to exactly one winner. */
  lemma {:induction false} PositivesByWinner(best: seq<nat>, logits: seq<real>, n: nat)
    requires |best| == |logits| && forall k :: 0 <= k < |best| ==> best[k] < n
    ensures PositiveWinsBelow(best, logits, n) == Positive(logits)
  {
    if best == [] {
      NoSplits(n);
    } else {
      var m := |best| - 1;
      PositivesByWinner(best[..m], logits[..m], n);
      OneMoreSplit(best, logits, n);
    }
  }

  lemma {:induction false} NoWinNoPositive(best: seq<nat>, logits: seq<real>, s: nat)
    requires |best| == |logits|
    ensures PositiveWins(best, logits, s) <= Wins(best, s)
  {
    if best != [] { NoWinNoPositive(best[..|best| - 1], logits[..|best| - 1], s); }
  }

  lemma ShareTimesRate(hits: nat, wins: nat, total: nat)
    requires wins > 0 && total > 0
    ensures Value(Fraction(wins, total), Fraction(hits, wins)) == Fraction(hits, total)
  {
    var h, w, t := hits as real, wins as real, total as real;
    assert w / t * (h / w) == h / t by { Cancel(h, w, t); }
  }

  lemma Cancel(h: real, w: real, t: real)
    requires w > 0.0 && t > 0.0
    ensures w / t * (h / w) == h / t
  {
    var x, y := w / t, h / w;
    assert x * t == w && y * w == h;
    assert (x * y) * t == (x * t) * y;
    assert (x * y) * t == h;
  }

  lemma AddFractions(a: nat, b: nat, t: nat)
    requires t > 0
    ensures Fraction(a, t) + Fraction(b, t) == Fraction(a + b, t)
  {
  }

  lemma {:induction false} WeightedIsCount(best: seq<nat>, logits: seq<real>, k: nat)
    requires |best| == |logits| > 0
    ensures WeightedConditionals(best, logits, k) == Fraction(PositiveWinsBelow(best, logits, k), |best|)
  {
    hide Fraction, Wins, PositiveWins, Value;
    if k == 0 {
      NoFraction(|best|);
    } else {
      var s := k - 1;
      WeightedIsCount(best, logits, s);
      WinnersWin(best, s);
      NoWinNoPositive(best, logits, s);
      AddFractions(PositiveWinsBelow(best, logits, s), PositiveWins(best, logits, s), |best|);
      if s in best {
        ShareTimesRate(PositiveWins(best, logits, s), Wins(best, s), |best|);
      }
    }
  }

  lemma NoFraction(t: nat)
    requires t > 0
    ensures Fraction(0, t) == 0.0
  {
  }

  /** The pooled estimate is the mean of the winners' conditional estimates, weighted by splits won. */
  lemma PooledIsWeightedMean(best: seq<nat>, logits: seq<real>, n: nat)
    requires |best| == |logits| > 0 && forall k :: 0 <= k < |best| ==> best[k] < n
    ensures Fraction(Positive(logits), |logits|) == WeightedConditionals(best, logits, n)
  {
    WeightedIsCount(best, logits, n);
    PositivesByWinner(best, logits, n);
  }

  function WinsBelow(best: seq<nat>, k: nat): nat { if k == 0 then 0 else WinsBelow(best, k - 1) + Wins(best, k - 1) }

  lemma {:induction false} OneMoreWinner(best: seq<nat>, k: nat)
    requires best != []
    ensures var m := |best| - 1; WinsBelow(best, k) == WinsBelow(best[..m], k) + if best[m] < k then 1 else 0
  {
    if k > 0 { OneMoreWinner(best, k - 1); }
  }

  lemma {:induction false} NoWins(k: nat)
    ensures WinsBelow([], k) == 0
  {
    if k > 0 { NoWins(k - 1); }
  }

  lemma {:induction false} EverySplitHasAWinner(best: seq<nat>, n: nat)
    requires forall k :: 0 <= k < |best| ==> best[k] < n
    ensures WinsBelow(best, n) == |best|
  {
    if best == [] {
      NoWins(n);
    } else {
      EverySplitHasAWinner(best[..|best| - 1], n);
      OneMoreWinner(best, n);
    }
  }

  lemma {:induction false} WeightedAtMost(best: seq<nat>, logits: seq<real>, k: nat, top: real)
    requires |best| == |logits| > 0
    requires forall s :: s in best ==> Conditional(best, logits, s) <= top
    ensures WeightedConditionals(best, logits, k) <= Value(Fraction(WinsBelow(best, k), |best|), top)
  {
    hide Fraction, Wins, Conditional, Value;
    if k == 0 {
      NoFraction(|best|);
      NoValue(top);
    } else {
      var s := k - 1;
      WeightedAtMost(best, logits, s, top);
      WinnersWin(best, s);
      AddFractions(WinsBelow(best, s), Wins(best, s), |best|);
      ValueAdds(Fraction(WinsBelow(best, s), |best|), Fraction(Wins(best, s), |best|), top);
      if s in best {
        FractionValueMonotone(Wins(best, s), |best|, Conditional(best, logits, s), top);
      } else {
        NoFraction(|best|);
        NoValue(top);
      }
    }
  }

  lemma ValueAdds(a: real, b: real, top: real)
    ensures Value(a, top) + Value(b, top) == Value(a + b, top)
  {
  }

  lemma FractionValueMonotone(a: nat, t: nat, x: real, y: real)
    requires t > 0 && x <= y
    ensures Value(Fraction(a, t), x) <= Value(Fraction(a, t), y)
  {
    assert Fraction(a, t) >= 0.0;
    ProductMonotone(Fraction(a, t), x, y);
  }

  /** No pooled estimate hides a winner that is worse than it: some strategy's
      conditional estimate is at least the pooled one. */
  lemma MaxConditionalDominates(a: Analysis, n: nat)
    requires Aggregated(a)
    requires forall k :: 0 <= k < |a.isBest| ==> a.isBest[k] < n
    ensures a.pbo <= a.maxConditional
  {
    hide Conditional, Fraction, Value;
    PooledIsWeightedMean(a.isBest, a.logits, n);
    WeightedAtMost(a.isBest, a.logits, n, a.maxConditional);
    EverySplitHasAWinner(a.isBest, n);
    WholeShare(|a.isBest|, a.maxConditional);
  }

  lemma WholeShare(t: nat, top: real)
    requires t > 0
    ensures Value(Fraction(t, t), top) == top
  {
  }

  /** Number of splits whose winner landed in the worse half. */
  function AboveHalf(lambdas: seq<real>): nat {
    if lambdas == [] then 0 else AboveHalf(lambdas[..|lambdas| - 1]) + if lambdas[|lambdas| - 1] > 0.5 then 1 else 0
  }

  lemma {:induction false} PositiveMeansAboveHalf(ln: real -> real, lambdas: seq<real>, logits: seq<real>)
    requires SignedLikeLog(ln) && |lambdas| == |logits|
    requires forall k :: 0 <= k < |logits| ==> logits[k] == Logit(ln, lambdas[k])
    ensures Positive(logits) == AboveHalf(lambdas)
  {
    hide Logit, SignedLikeLog;
    if lambdas != [] {
      var m := |lambdas| - 1;
      PositiveMeansAboveHalf(ln, lambdas[..m], logits[..m]);
      LogitSign(ln, lambdas[m]);
    }
  }

  /** What the estimate means, for every input the computation accepts. */
  lemma PboIsFractionAboveHalf(
    m: seq<Row>, n: nat, cfg: Config, picked: seq<nat>, sharpe: SharpeScores, ln: real -> real, a: Analysis)
    requires SignedLikeLog(ln)
    requires WellPosed(m, n, cfg, picked, sharpe) && Objection(|m|, n, cfg).None?
    requires Evaluated(m, n, cfg, picked, sharpe, ln, a.lambdas, a.logits, a.isBest) && Aggregated(a)
    ensures a.pbo == Fraction(AboveHalf(a.lambdas), |Splits(cfg, picked)|)
    ensures a.pbo <= a.maxConditional
    ensures forall k :: 0 <= k < |a.lambdas| ==> 1.0 / (n + 1) as real <= a.lambdas[k] <= n as real / (n + 1) as real
  {
    hide Logit, Splits, OutcomeAt, Conditional, Fraction;
    PositiveMeansAboveHalf(ln, a.lambdas, a.logits);
    forall k | 0 <= k < |a.isBest|
      ensures a.isBest[k] < n && 1.0 / (n + 1) as real <= a.lambdas[k] <= n as real / (n + 1) as real
    {
      BestIsAStrategy(m, n, cfg, picked, sharpe, k);
      OutcomeInRange(m, n, cfg, picked, sharpe, k);
    }
    MaxConditionalDominates(a, n);
  }

  lemma OutcomeInRange(m: seq<Row>, n: nat, cfg: Config, picked: seq<nat>, sharpe: SharpeScores, k: nat)
    requires WellPosed(m, n, cfg, picked, sharpe) && Objection(|m|, n, cfg).None? && k < |Splits(cfg, picked)|
    requires OutcomeAt(m, n, cfg, picked, sharpe, k).Some?
    ensures 1.0 / (n + 1) as real <= OutcomeAt(m, n, cfg, picked, sharpe, k).value.1 <= n as real / (n + 1) as real
  {
    hide Lambda, Pick, Splits;
    SplitsAreHalves(cfg, picked);
    var combo := Splits(cfg, picked)[k];
    SplitIsUsable(m, n, cfg.nBlocks, combo);
    LambdaInRange(Pick(m, cfg.nBlocks, combo, false, cfg.nBlocks), n, OutcomeAt(m, n, cfg, picked, sharpe, k).value.0);
  }

  // -------------------------------------------------------------------------
  // Symmetry of the splits
  // -------------------------------------------------------------------------

  lemma NothingPicked(m: seq<Row>, t: nat, combo: seq<nat>)
    ensures Pick(m, t, combo, true, 0) == [] && Pick(m, t, combo, false, 0) == []
  {
  }

  /** One of the two samples gains the next block. */
  lemma PickStep(m: seq<Row>, t: nat, combo: seq<nat>, b: nat)
    requires 0 < b <= t
    ensures multiset(Pick(m, t, combo, true, b)) + multiset(Pick(m, t, combo, false, b))
            == multiset(Pick(m, t, combo, true, b - 1)) + multiset(Pick(m, t, combo, false, b - 1))
               + multiset(Block(m, t, b - 1))
  {
    hide Block;
    if b - 1 in combo {
      assert Pick(m, t, combo, false, b) == Pick(m, t, combo, false, b - 1);
    } else {
      assert Pick(m, t, combo, true, b) == Pick(m, t, combo, true, b - 1);
    }
  }

  lemma {:induction false} PickPartitions(m: seq<Row>, t: nat, combo: seq<nat>, b: nat)
    requires b <= t && 0 < t
    ensures BlockStart(|m|, t, b) <= |m|
    ensures multiset(Pick(m, t, combo, true, b)) + multiset(Pick(m, t, combo, false, b))
            == multiset(m[..BlockStart(|m|, t, b)])
  {
    hide BlockStart, Pick;
    FirstBlock(|m|, t);
    BlockStartGrows(|m|, t, b, t);
    BlocksEnd(|m|, t);
    if b == 0 {
      NothingPicked(m, t, combo);
    } else {
      PickPartitions(m, t, combo, b - 1);
      PickStep(m, t, combo, b);
      BlockBounds(|m|, t, b - 1);
      PrefixGrows(m, BlockStart(|m|, t, b - 1), BlockStart(|m|, t, b));
    }
  }

  lemma FirstBlock(n: nat, t: nat)
    requires 0 < t
    ensures BlockStart(n, t, 0) == 0
  {
  }

  lemma PrefixGrows(m: seq<Row>, lo: nat, hi: nat)
    requires lo <= hi <= |m|
    ensures multiset(m[..hi]) == multiset(m[..lo]) + multiset(m[lo..hi])
  {
    assert m[..hi] == m[..lo] + m[lo..hi];
  }

  /** Every observation is used once in a split: in sample or out of sample. */
  lemma SplitCoversAllRows(m: seq<Row>, t: nat, combo: seq<nat>)
    requires 0 < t
    ensures multiset(Pick(m, t, combo, true, t)) + multiset(Pick(m, t, combo, false, t)) == multiset(m)
  {
    PickPartitions(m, t, combo, t);
    BlocksEnd(|m|, t);
    assert m[..|m|] == m;
  }

  /** The blocks below t that a combination leaves out. */
  function Others(c: seq<nat>, t: nat): seq<nat> {
    if t == 0 then [] else Others(c, t - 1) + if t - 1 in c then [] else [t - 1]
  }

  lemma {:induction false} OthersMembers(c: seq<nat>, t: nat, x: nat)
    ensures x in Others(c, t) <==> x < t && x !in c
  {
    if t > 0 { OthersMembers(c, t - 1, x); }
  }

  lemma {:induction false} OthersAscend(c: seq<nat>, t: nat)
    ensures Selection(Others(c, t), 0, t, |Others(c, t)|)
  {
    if t > 0 { OthersAscend(c, t - 1); }
  }

  lemma {:induction false} OthersSize(c: seq<nat>, t: nat)
    requires Selection(c, 0, t, |c|)
    ensures |Others(c, t)| + |c| == t
  {
    if t > 0 {
      if c != [] && c[|c| - 1] == t - 1 {
        var d := c[..|c| - 1];
        OthersSize(d, t - 1);
        OthersIgnore(c, d, t - 1);
        assert c[|c| - 1] in c;
      } else {
        OthersSize(c, t - 1);
      }
    }
  }

  lemma {:induction false} OthersIgnore(c: seq<nat>, d: seq<nat>, t: nat)
    requires forall x :: x < t ==> (x in c <==> x in d)
    ensures Others(c, t) == Others(d, t)
  {
    if t > 0 { OthersIgnore(c, d, t - 1); }
  }

  lemma {:induction false} PickOfOthers(m: seq<Row>, t: nat, c: seq<nat>, inside: bool, b: nat)
    requires b <= t
    ensures Pick(m, t, Others(c, t), inside, b) == Pick(m, t, c, !inside, b)
  {
    hide Block, Others;
    if b > 0 {
      PickOfOthers(m, t, c, inside, b - 1);
      OthersMembers(c, t, b - 1);
    }
  }

  /** The symmetry the method is named after: in the full enumeration each split
      has a mirror image that swaps the two samples. */
  lemma MirrorSplitIsEnumerated(m: seq<Row>, t: nat, c: seq<nat>)
    requires t % 2 == 0 && c in Combinations(0, t, t / 2)
    ensures Others(c, t) in Combinations(0, t, t / 2)
    ensures Pick(m, t, Others(c, t), true, t) == Pick(m, t, c, false, t)
    ensures Pick(m, t, Others(c, t), false, t) == Pick(m, t, c, true, t)
  {
    hide Combinations, Others, Pick;
    CombinationsAreSelections(0, t, t / 2, c);
    OthersSize(c, t);
    OthersAscend(c, t);
    CombinationsAreSelections(0, t, t / 2, Others(c, t));
    PickOfOthers(m, t, c, true, t);
    PickOfOthers(m, t, c, false, t);
  }
}
