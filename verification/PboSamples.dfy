/** What the splits of the overfitting estimate look at: the winner of a split is
    decided by the rows inside its blocks, and its lambda by those outside. Rows
    are told apart by their position alone. */
module PboSamples {
  import opened Common
  import opened Pbo
  import opened PboProofs

  // -------------------------------------------------------------------------
  // Rows by position
  // -------------------------------------------------------------------------

  function Least(a: nat, b: nat): nat { if a <= b then a else b }

  /** Row i of n lies in block b of t: every block has n / t rows, and each of the first n mod t one more. */
  predicate InBlock(n: nat, t: nat, b: nat, i: nat)
    requires 0 < t
  {
    b * (n / t) + Least(b, n % t) <= i < (b + 1) * (n / t) + Least(b + 1, n % t)
  }

  /** Row i of n lies in one of the chosen blocks. */
  ghost predicate Inside(n: nat, t: nat, combo: seq<nat>, i: nat)
    requires 0 < t
  {
    exists b :: b in combo && InBlock(n, t, b, i)
  }

  /** The rows below `upTo` that are inside (or outside), in order. */
  ghost function RowsWhere(m: seq<Row>, t: nat, combo: seq<nat>, inside: bool, upTo: nat): (s: seq<Row>)
    requires 0 < t && upTo <= |m|
  {
    if upTo == 0 then []
    else
      RowsWhere(m, t, combo, inside, upTo - 1)
        + if Inside(|m|, t, combo, upTo - 1) == inside then [m[upTo - 1]] else []
  }

  ghost function RowsInside(m: seq<Row>, t: nat, combo: seq<nat>): seq<Row>
    requires 0 < t
  {
    RowsWhere(m, t, combo, true, |m|)
  }

  ghost function RowsOutside(m: seq<Row>, t: nat, combo: seq<nat>): seq<Row>
    requires 0 < t
  {
    RowsWhere(m, t, combo, false, |m|)
  }

  lemma InBlockIsBlock(n: nat, t: nat, b: nat, i: nat)
    requires 0 < t
    ensures InBlock(n, t, b, i) <==> BlockStart(n, t, b) <= i < BlockStart(n, t, b + 1)
  {
    hide BlockStart;
    BlockStartClosed(n, t, b, n / t, n % t);
    BlockStartClosed(n, t, b + 1, n / t, n % t);
  }

  /** A row lies in one block only. */
  lemma OneBlockPerRow(n: nat, t: nat, b: nat, c: nat, i: nat)
    requires 0 < t && InBlock(n, t, b, i) && InBlock(n, t, c, i)
    ensures b == c
  {
    hide InBlock, BlockStart;
    InBlockIsBlock(n, t, b, i);
    InBlockIsBlock(n, t, c, i);
    if b < c { BlockStartGrows(n, t, b + 1, c); }
    if c < b { BlockStartGrows(n, t, c + 1, b); }
  }

  lemma BlockDecides(n: nat, t: nat, combo: seq<nat>, b: nat, i: nat)
    requires 0 < t && InBlock(n, t, b, i)
    ensures Inside(n, t, combo, i) <==> b in combo
  {
    hide InBlock;
    if Inside(n, t, combo, i) {
      var c :| c in combo && InBlock(n, t, c, i);
      OneBlockPerRow(n, t, b, c, i);
    }
  }

  /** Within one block, either all rows are taken or none. */
  lemma {:induction false} RowsOfBlock(m: seq<Row>, t: nat, combo: seq<nat>, inside: bool, b: nat, lo: nat, hi: nat)
    requires b < t && lo == BlockStart(|m|, t, b) <= hi <= BlockStart(|m|, t, b + 1) <= |m|
    ensures RowsWhere(m, t, combo, inside, hi)
         == RowsWhere(m, t, combo, inside, lo) + if (b in combo) == inside then m[lo..hi] else []
  {
    hide BlockStart, InBlock, Inside;
    if lo < hi {
      RowsOfBlock(m, t, combo, inside, b, lo, hi - 1);
      InBlockIsBlock(|m|, t, b, hi - 1);
      BlockDecides(|m|, t, combo, b, hi - 1);
      assert m[lo..hi] == m[lo..hi - 1] + [m[hi - 1]];
    }
  }

  lemma {:induction false} PickIsRows(m: seq<Row>, t: nat, combo: seq<nat>, inside: bool, b: nat)
    requires b <= t && 0 < t
    ensures BlockStart(|m|, t, b) <= |m|
    ensures Pick(m, t, combo, inside, b) == RowsWhere(m, t, combo, inside, BlockStart(|m|, t, b))
  {
    hide BlockStart, Inside, RowsWhere;
    BlockStartGrows(|m|, t, b, t);
    BlocksEnd(|m|, t);
    if b == 0 {
      FirstBlock(|m|, t);
      NoRowsYet(m, t, combo, inside);
    } else {
      PickIsRows(m, t, combo, inside, b - 1);
      BlockFits(|m|, t, b - 1);
      RowsOfBlock(m, t, combo, inside, b - 1, BlockStart(|m|, t, b - 1), BlockStart(|m|, t, b));
    }
  }

  lemma NoRowsYet(m: seq<Row>, t: nat, combo: seq<nat>, inside: bool)
    requires 0 < t
    ensures RowsWhere(m, t, combo, inside, 0) == []
  {
  }

  /** The two samples of a split are the rows inside and the rows outside its blocks. */
  lemma SamplesAreRows(m: seq<Row>, t: nat, combo: seq<nat>)
    requires 0 < t
    ensures Pick(m, t, combo, true, t) == RowsInside(m, t, combo)
    ensures Pick(m, t, combo, false, t) == RowsOutside(m, t, combo)
  {
    hide Pick, RowsWhere, BlockStart;
    PickIsRows(m, t, combo, true, t);
    PickIsRows(m, t, combo, false, t);
    BlocksEnd(|m|, t);
  }

  // -------------------------------------------------------------------------
  // What a split reports
  // -------------------------------------------------------------------------

  /** The strategy's returns over the sample are the largest, and larger than those of every strategy before it. */
  ghost predicate EarnsMost(rows: seq<Row>, n: nat, j: nat)
    requires Rect(rows, n)
  {
    && j < n
    && (forall i :: 0 <= i < n ==> ColumnTotal(rows, n, i) <= ColumnTotal(rows, n, j))
    && forall i :: 0 <= i < j ==> ColumnTotal(rows, n, i) < ColumnTotal(rows, n, j)
  }

  lemma {:induction false} ScoresAreMeans(rows: seq<Row>, n: nat, upTo: nat, j: nat)
    requires Rect(rows, n) && j < upTo <= n && rows != []
    ensures MeanScores(rows, n, upTo)[j] == ColumnTotal(rows, n, j) / |rows| as real
  {
    hide ColumnTotal;
    if j < upTo - 1 { ScoresAreMeans(rows, n, upTo - 1, j); }
  }

  lemma QuotientOrder(x: real, y: real, d: real)
    requires d > 0.0
    ensures x / d <= y / d <==> x <= y
  {
    var p, q := x / d, y / d;
    assert p * d == x && q * d == y;
    assert (q - p) * d == y - x;
  }

  lemma BestEarnsMost(rows: seq<Row>, n: nat)
    requires Rect(rows, n) && rows != [] && n > 0
    ensures EarnsMost(rows, n, ArgMax(MeanScores(rows, n, n)))
  {
    hide ColumnTotal, Rect, MeanScores;
    var scores := MeanScores(rows, n, n);
    var j := ArgMax(scores);
    forall i | 0 <= i < n
      ensures scores[i] <= scores[j] <==> ColumnTotal(rows, n, i) <= ColumnTotal(rows, n, j)
      ensures scores[j] <= scores[i] <==> ColumnTotal(rows, n, j) <= ColumnTotal(rows, n, i)
    {
      ScoresAreMeans(rows, n, n, i);
      ScoresAreMeans(rows, n, n, j);
      QuotientOrder(ColumnTotal(rows, n, i), ColumnTotal(rows, n, j), |rows| as real);
      QuotientOrder(ColumnTotal(rows, n, j), ColumnTotal(rows, n, i), |rows| as real);
    }
  }

  /** Winner and lambda of one split, told by row positions. */
  ghost predicate SplitReport(m: seq<Row>, n: nat, t: nat, combo: seq<nat>, metric: Metric, sharpe: SharpeScores,
                              best: nat, relative: real)
    requires 0 < t
  {
    var inside, outside := RowsInside(m, t, combo), RowsOutside(m, t, combo);
    && inside != [] && outside != [] && Rect(inside, n) && Rect(outside, n) && best < n
    && (metric == MeanReturn ==> EarnsMost(inside, n, best))
    && (metric == Sharpe ==> sharpe(inside).Some? && sharpe(inside).value != [] && best == ArgMax(sharpe(inside).value))
    && relative == RankTotal(outside, n, best) / |outside| as real / (n + 1) as real
  }

  /** For every accepted input and every split: the winner is the first of those that
      earn most over the rows inside the split's blocks (or score highest on them),
      and lambda is its mean rank over the rows outside, scaled by N + 1. */
  lemma SplitsAreReported(
    m: seq<Row>, n: nat, cfg: Config, picked: seq<nat>, sharpe: SharpeScores, ln: real -> real,
    lambdas: seq<real>, logits: seq<real>, isBest: seq<nat>, k: nat)
    requires WellPosed(m, n, cfg, picked, sharpe) && Objection(|m|, n, cfg).None?
    requires Evaluated(m, n, cfg, picked, sharpe, ln, lambdas, logits, isBest) && k < |isBest|
    ensures SplitReport(m, n, cfg.nBlocks, Splits(cfg, picked)[k], cfg.metric, sharpe, isBest[k], lambdas[k])
  {
    hide Splits, Selection, Combinations, Pick, RowsInside, RowsOutside, RankTotal, MeanScores, EarnsMost;
    SplitsAreHalves(cfg, picked);
    var t, combo := cfg.nBlocks, Splits(cfg, picked)[k];
    SplitIsUsable(m, n, t, combo);
    SamplesAreRows(m, t, combo);
    BestEarnsMost(RowsInside(m, t, combo), n);
    assert OutcomeAt(m, n, cfg, picked, sharpe, k) == Some((isBest[k], lambdas[k]));
    BestIsAStrategy(m, n, cfg, picked, sharpe, k);
  }

  /** A split has no outcome exactly when the metric is the Sharpe ratio and refuses the rows inside. */
  lemma RefusedExactly(m: seq<Row>, n: nat, cfg: Config, picked: seq<nat>, sharpe: SharpeScores, k: nat)
    requires WellPosed(m, n, cfg, picked, sharpe) && Objection(|m|, n, cfg).None? && k < |Splits(cfg, picked)|
    ensures ValidConfig(cfg)
    ensures OutcomeAt(m, n, cfg, picked, sharpe, k).None?
            <==> cfg.metric == Sharpe && sharpe(RowsInside(m, cfg.nBlocks, Splits(cfg, picked)[k])).None?
  {
    hide Splits, Selection, Combinations, Pick, RowsInside, RowsOutside, RankTotal, MeanScores;
    SplitsAreHalves(cfg, picked);
    SamplesAreRows(m, cfg.nBlocks, Splits(cfg, picked)[k]);
  }

  // -------------------------------------------------------------------------
  // What decides winner and lambda
  // -------------------------------------------------------------------------

  /** The matrices have the same rows inside (or outside) the chosen blocks. */
  ghost predicate AgreeWhere(a: seq<Row>, b: seq<Row>, t: nat, combo: seq<nat>, inside: bool)
    requires 0 < t
  {
    |a| == |b| && forall i :: 0 <= i < |a| && Inside(|a|, t, combo, i) == inside ==> a[i] == b[i]
  }

  lemma {:induction false} SameRows(a: seq<Row>, b: seq<Row>, t: nat, combo: seq<nat>, inside: bool, upTo: nat)
    requires 0 < t && AgreeWhere(a, b, t, combo, inside) && upTo <= |a|
    ensures RowsWhere(a, t, combo, inside, upTo) == RowsWhere(b, t, combo, inside, upTo)
  {
    hide Inside;
    if upTo > 0 { SameRows(a, b, t, combo, inside, upTo - 1); }
  }

  lemma OnlyOneEarnsMost(rows: seq<Row>, n: nat, i: nat, j: nat)
    requires Rect(rows, n) && EarnsMost(rows, n, i) && EarnsMost(rows, n, j)
    ensures i == j
  {
    hide ColumnTotal;
    assert ColumnTotal(rows, n, i) == ColumnTotal(rows, n, j);
  }

  /** The winner depends on the chosen rows only, and lambda on the winner and the other rows only. */
  lemma InsideDecidesWinnerOutsideLambda(
    a: seq<Row>, b: seq<Row>, n: nat, t: nat, combo: seq<nat>, metric: Metric, sharpe: SharpeScores,
    best: nat, relative: real, best': nat, relative': real)
    requires 0 < t
    requires SplitReport(a, n, t, combo, metric, sharpe, best, relative)
    requires SplitReport(b, n, t, combo, metric, sharpe, best', relative')
    ensures AgreeWhere(a, b, t, combo, true) ==> best == best'
    ensures AgreeWhere(a, b, t, combo, false) && best == best' ==> relative == relative'
  {
    hide EarnsMost, RowsWhere, RankTotal, Rect, AgreeWhere;
    if AgreeWhere(a, b, t, combo, true) {
      assert |a| == |b| by { SameHeight(a, b, t, combo, true); }
      SameRows(a, b, t, combo, true, |a|);
      if metric == MeanReturn { OnlyOneEarnsMost(RowsInside(a, t, combo), n, best, best'); }
    }
    if AgreeWhere(a, b, t, combo, false) {
      assert |a| == |b| by { SameHeight(a, b, t, combo, false); }
      SameRows(a, b, t, combo, false, |a|);
    }
  }

  lemma SameHeight(a: seq<Row>, b: seq<Row>, t: nat, combo: seq<nat>, inside: bool)
    requires 0 < t && AgreeWhere(a, b, t, combo, inside)
    ensures |a| == |b|
  {
  }

  /** Strategy j has the strictly largest (or, for `best` false, smallest) entry of every row. */
  ghost predicate Leads(rows: seq<Row>, n: nat, j: nat, best: bool)
    requires Rect(rows, n) && j < n
  {
    forall r, i :: 0 <= r < |rows| && 0 <= i < n && i != j ==>
      if best then rows[r][i] < rows[r][j] else rows[r][i] > rows[r][j]
  }

  lemma {:induction false} LeaderEarnsMost(rows: seq<Row>, n: nat, j: nat, i: nat)
    requires Rect(rows, n) && j < n && i < n && i != j && rows != [] && Leads(rows, n, j, true)
    ensures ColumnTotal(rows, n, i) < ColumnTotal(rows, n, j)
  {
    var k := |rows| - 1;
    assert rows[k][i] < rows[k][j];
    if k > 0 {
      LeaderEarnsMost(rows[..k], n, j, i);
    } else {
      assert rows[..k] == [];
    }
  }

  lemma {:induction false} CountsOfLeader(row: Row, upTo: nat, j: nat, best: bool)
    requires j < |row| && upTo <= |row|
    requires forall i :: 0 <= i < |row| && i != j ==> if best then row[i] < row[j] else row[i] > row[j]
    ensures Equal(row[..upTo], row[j]) == if j < upTo then 1 else 0
    ensures Greater(row[..upTo], row[j]) == if best then 0 else if j < upTo then upTo - 1 else upTo
  {
    if upTo > 0 {
      CountsOfLeader(row, upTo - 1, j, best);
      assert row[..upTo][..upTo - 1] == row[..upTo - 1];
    }
  }

  /** First place in every row, or last place in every row. */
  lemma {:induction false} RanksOfLeader(rows: seq<Row>, n: nat, j: nat, best: bool)
    requires Rect(rows, n) && j < n && Leads(rows, n, j, best)
    ensures RankTotal(rows, n, j) == Value(|rows| as real, if best then 1.0 else n as real)
  {
    hide Equal, Greater;
    if rows != [] {
      var k := |rows| - 1;
      RanksOfLeader(rows[..k], n, j, best);
      CountsOfLeader(rows[k], n, j, best);
      assert rows[k][..n] == rows[k];
      assert Rank(rows[k], rows[k][j]) == if best then 1.0 else n as real;
      OneMoreRow(k, if best then 1.0 else n as real);
    }
  }

  lemma {:induction false} RowsWhereMembers(m: seq<Row>, t: nat, combo: seq<nat>, inside: bool, upTo: nat, row: Row)
    requires 0 < t && upTo <= |m| && row in RowsWhere(m, t, combo, inside, upTo)
    ensures exists i :: 0 <= i < upTo && Inside(|m|, t, combo, i) == inside && m[i] == row
  {
    hide Inside;
    if row in RowsWhere(m, t, combo, inside, upTo - 1) {
      RowsWhereMembers(m, t, combo, inside, upTo - 1, row);
    } else {
      assert m[upTo - 1] == row;
    }
  }

  /** Strategy j beats every other one in every row inside (or outside) the chosen blocks, or loses to all of them. */
  ghost predicate LeadsWhere(m: seq<Row>, n: nat, t: nat, combo: seq<nat>, inside: bool, j: nat, best: bool)
    requires 0 < t && Rect(m, n) && j < n
  {
    forall r, i :: 0 <= r < |m| && Inside(|m|, t, combo, r) == inside && 0 <= i < n && i != j ==>
      if best then m[r][i] < m[r][j] else m[r][i] > m[r][j]
  }

  lemma LeadsInSample(m: seq<Row>, n: nat, t: nat, combo: seq<nat>, inside: bool, j: nat, best: bool)
    requires 0 < t && Rect(m, n) && j < n && LeadsWhere(m, n, t, combo, inside, j, best)
    requires Rect(RowsWhere(m, t, combo, inside, |m|), n)
    ensures Leads(RowsWhere(m, t, combo, inside, |m|), n, j, best)
  {
    hide Inside, RowsWhere;
    var rows := RowsWhere(m, t, combo, inside, |m|);
    forall r, i | 0 <= r < |rows| && 0 <= i < n && i != j
      ensures if best then rows[r][i] < rows[r][j] else rows[r][i] > rows[r][j]
    {
      RowsWhereMembers(m, t, combo, inside, |m|, rows[r]);
      var q :| 0 <= q < |m| && Inside(|m|, t, combo, q) == inside && m[q] == rows[r];
    }
  }

  /** The ends of the scale. Under mean return, a strategy that beats every other one in
      every chosen row wins the split. A winner that beats every other one in every
      row outside has lambda 1/(N+1), one that loses to all of them there N/(N+1). */
  lemma LeadersAreSeen(m: seq<Row>, n: nat, t: nat, combo: seq<nat>, metric: Metric, sharpe: SharpeScores,
                       best: nat, relative: real, j: nat)
    requires 0 < t && Rect(m, n) && j < n && SplitReport(m, n, t, combo, metric, sharpe, best, relative)
    ensures metric == MeanReturn && LeadsWhere(m, n, t, combo, true, j, true) ==> best == j
    ensures LeadsWhere(m, n, t, combo, false, best, true) ==> relative == 1.0 / (n + 1) as real
    ensures LeadsWhere(m, n, t, combo, false, best, false) ==> relative == n as real / (n + 1) as real
  {
    hide LeadsWhere, Leads, RowsWhere, RankTotal, ColumnTotal, Rect;
    var inside, outside := RowsInside(m, t, combo), RowsOutside(m, t, combo);
    if metric == MeanReturn && LeadsWhere(m, n, t, combo, true, j, true) {
      LeadsInSample(m, n, t, combo, true, j, true);
      if best != j { LeaderEarnsMost(inside, n, j, best); }
    }
    if LeadsWhere(m, n, t, combo, false, best, true) {
      LeadsInSample(m, n, t, combo, false, best, true);
      RanksOfLeader(outside, n, best, true);
      DivideBack(|outside| as real, 1.0);
    }
    if LeadsWhere(m, n, t, combo, false, best, false) {
      LeadsInSample(m, n, t, combo, false, best, false);
      RanksOfLeader(outside, n, best, false);
      DivideBack(|outside| as real, n as real);
    }
  }
}
