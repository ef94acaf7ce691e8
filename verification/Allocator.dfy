/** Capital allocation: pending orders ranked by priority, then taken greedily under three limits. */
module Allocator {
  import opened Common
  import opened RiskEngine

  /** The limits one call works with, in money where the configuration has fractions of equity. */
  datatype Limits = Limits(maxPositions: int, maxExposure: real, maxSingle: real)

  datatype Verdict =
    Accept | MaxPositions(limit: int) | ExposureLimit(cap: real) | SingleAsset(notional: real, cap: real)

  datatype Allocation =
    Allocation(accepted: seq<Order>, rejected: seq<(Order, Verdict)>, count: int, exposure: real)

  function Notional(o: Order): real { Value(o.positionSize, o.entryPrice) }

  function Exposure(ps: seq<Position>): real {
    if ps == [] then 0.0 else Value(ps[0].size, ps[0].entryPrice) + Exposure(ps[1..])
  }

  // -------------------------------------------------------------------------
  // Priority
  // -------------------------------------------------------------------------

  /** Correlations of the order's asset with each open position; an unknown pair counts one half. */
  function CorrelationTotal(asset: string, ps: seq<Position>, correlations: map<set<string>, real>): real {
    if ps == [] then 0.0
    else
      var pair := {asset, ps[0].asset};
      (if pair in correlations then correlations[pair] else 0.5) + CorrelationTotal(asset, ps[1..], correlations)
  }

  function MeanCorrelation(asset: string, ps: seq<Position>, correlations: map<set<string>, real>): real {
    if ps == [] || correlations == map[] then 0.0 else CorrelationTotal(asset, ps, correlations) / |ps| as real
  }

  /** Times are in seconds. An asset never traded (or stamped at or before zero) counts as a hundred hours old. */
  function Recency(last: map<string, real>, asset: string, now: real): real {
    var t := if asset in last then last[asset] else 0.0;
    Min(1.0, (if t > 0.0 then (now - t) / 3600.0 else 100.0) / 24.0)
  }

  function Score(o: Order, ps: seq<Position>, correlations: map<set<string>, real>, last: map<string, real>,
                 now: real): real {
    var dist := Abs(o.entryPrice - o.stopPrice);
    var strength := if dist > 0.0 then Abs(o.targetPrice - o.entryPrice) / dist else 1.0;
    var volAdjusted := if dist > 0.0 then o.entryPrice / dist else 1.0;
    0.35 * strength + 0.25 * volAdjusted + 0.25 * (1.0 - MeanCorrelation(o.asset, ps, correlations))
      + 0.15 * Recency(last, o.asset, now)
  }

  /** Highest score first; equal scores keep the order they came in. */
  function Ranked(
    pending: seq<Order>, ps: seq<Position>, correlations: map<set<string>, real>, last: map<string, real>, now: real
  ): seq<Order> {
    StableSort(pending, (a, b) => Score(a, ps, correlations, last, now) > Score(b, ps, correlations, last, now))
  }

  // -------------------------------------------------------------------------
  // The greedy pass
  // -------------------------------------------------------------------------

  function Judge(l: Limits, count: int, exposure: real, o: Order): Verdict {
    if count >= l.maxPositions then MaxPositions(l.maxPositions)
    else if exposure + Notional(o) > l.maxExposure then ExposureLimit(l.maxExposure)
    else if Notional(o) > l.maxSingle then SingleAsset(Notional(o), l.maxSingle)
    else Accept
  }

  function Allocate(l: Limits, count: int, exposure: real, orders: seq<Order>): Allocation {
    if orders == [] then Allocation([], [], count, exposure)
    else
      var n := |orders| - 1;
      var sofar := Allocate(l, count, exposure, orders[..n]);
      var v := Judge(l, sofar.count, sofar.exposure, orders[n]);
      if v == Accept
      then Allocation(sofar.accepted + [orders[n]], sofar.rejected, sofar.count + 1,
                      sofar.exposure + Notional(orders[n]))
      else sofar.(rejected := sofar.rejected + [(orders[n], v)])
  }

  lemma PassStep(l: Limits, count: int, exposure: real, orders: seq<Order>, k: nat)
    requires k < |orders|
    ensures var sofar, o := Allocate(l, count, exposure, orders[..k]), orders[k];
            var v := Judge(l, sofar.count, sofar.exposure, o);
            Allocate(l, count, exposure, orders[..k + 1]) ==
              if v == Accept
              then Allocation(sofar.accepted + [o], sofar.rejected, sofar.count + 1, sofar.exposure + Notional(o))
              else sofar.(rejected := sofar.rejected + [(o, v)])
  {
    hide Judge, Notional;
    assert orders[..k + 1][..k] == orders[..k];
  }

  /** What the pass says about the order at position k. */
  function VerdictAt(l: Limits, count: int, exposure: real, orders: seq<Order>, k: nat): Verdict
    requires k < |orders|
  {
    var before := Allocate(l, count, exposure, orders[..k]);
    Judge(l, before.count, before.exposure, orders[k])
  }

  /** Every accepted order stamps its asset with the time of the call. */
  function Stamp(last: map<string, real>, accepted: seq<Order>, now: real): map<string, real> {
    if accepted == [] then last else Stamp(last, accepted[..|accepted| - 1], now)[accepted[|accepted| - 1].asset := now]
  }

  lemma StampOneMore(last: map<string, real>, accepted: seq<Order>, o: Order, now: real)
    ensures Stamp(last, accepted + [o], now) == Stamp(last, accepted, now)[o.asset := now]
  {
    assert (accepted + [o])[..|accepted|] == accepted;
  }

  class CapitalAllocator {
    const maxConcurrentPositions: int
    const maxPortfolioExposurePct: real
    const maxSingleAssetPct: real
    var lastTradeTime: map<string, real>

    constructor (maxConcurrentPositions: int, maxPortfolioExposurePct: real, maxSingleAssetPct: real)
      ensures lastTradeTime == map[]
      ensures this.maxConcurrentPositions == maxConcurrentPositions
      ensures this.maxPortfolioExposurePct == maxPortfolioExposurePct && this.maxSingleAssetPct == maxSingleAssetPct
    {
      this.maxConcurrentPositions := maxConcurrentPositions;
      this.maxPortfolioExposurePct := maxPortfolioExposurePct;
      this.maxSingleAssetPct := maxSingleAssetPct;
      lastTradeTime := map[];
    }

    function LimitsFor(account: Account): Limits {
      Limits(maxConcurrentPositions, Value(account.equity, maxPortfolioExposurePct),
             Value(account.equity, maxSingleAssetPct))
    }

    method AllocateCapital(pending: seq<Order>, account: Account, correlations: map<set<string>, real>, now: real)
      returns (accepted: seq<Order>, rejected: seq<(Order, Verdict)>)
      modifies this
      ensures
        var all := Allocate(
          Limits(maxConcurrentPositions, Value(account.equity, maxPortfolioExposurePct),
                 Value(account.equity, maxSingleAssetPct)),
          |account.openPositions|, Exposure(account.openPositions),
          Ranked(pending, account.openPositions, correlations, old(lastTradeTime), now));
        && accepted == all.accepted && rejected == all.rejected
        && lastTradeTime == Stamp(old(lastTradeTime), all.accepted, now)
    {
      if pending == [] {
        return [], [];
      }
      hide Judge, Score, StableSort, Exposure, Notional, Ranked;
      var activeCount, accumulated := |account.openPositions|, Exposure(account.openPositions);
      ghost var count0, exposure0 := activeCount, accumulated;
      var l := LimitsFor(account);
      var ranked := Ranked(pending, account.openPositions, correlations, lastTradeTime, now);
      accepted, rejected := [], [];
      assert ranked[..0] == [];
      for k := 0 to |ranked|
        invariant Allocate(l, count0, exposure0, ranked[..k]) ==
                  Allocation(accepted, rejected, activeCount, accumulated)
        invariant lastTradeTime == Stamp(old(lastTradeTime), accepted, now)
      {
        var o := ranked[k];
        PassStep(l, count0, exposure0, ranked, k);
        hide Allocate, Stamp;
        var verdict := Judge(l, activeCount, accumulated, o);
        if verdict != Accept {
          rejected := rejected + [(o, verdict)];
        } else {
          StampOneMore(old(lastTradeTime), accepted, o, now);
          accepted := accepted + [o];
          activeCount, accumulated := activeCount + 1, accumulated + Notional(o);
          lastTradeTime := lastTradeTime[o.asset := now];
        }
      }
      assert ranked[..|ranked|] == ranked;
    }
  }
}

module AllocatorProofs {
  import opened Common
  import opened RiskEngine
  import opened Allocator

  function OrdersOf(rejected: seq<(Order, Verdict)>): seq<Order> {
    if rejected == [] then [] else OrdersOf(rejected[..|rejected| - 1]) + [rejected[|rejected| - 1].0]
  }

  function Total(orders: seq<Order>): real {
    if orders == [] then 0.0 else Total(orders[..|orders| - 1]) + Notional(orders[|orders| - 1])
  }

  // -------------------------------------------------------------------------
  // All or nothing: every pending order comes back once, at its own size
  // -------------------------------------------------------------------------

  lemma NoOrders()
    ensures OrdersOf([]) == []
  {
  }

  lemma OrdersOfSnoc(rejected: seq<(Order, Verdict)>, r: (Order, Verdict))
    ensures OrdersOf(rejected + [r]) == OrdersOf(rejected) + [r.0]
  {
    assert (rejected + [r])[..|rejected|] == rejected;
  }

  lemma SnocSplit(a: seq<Order>, b: seq<Order>, s: seq<Order>)
    requires s != [] && multiset(a) + multiset(b) == multiset(s[..|s| - 1])
    ensures multiset(a + [s[|s| - 1]]) + multiset(b) == multiset(s)
    ensures multiset(a) + multiset(b + [s[|s| - 1]]) == multiset(s)
  {
    assert s == s[..|s| - 1] + [s[|s| - 1]];
  }

  lemma {:induction false} PassPartitions(l: Limits, count: int, exposure: real, orders: seq<Order>)
    ensures var all := Allocate(l, count, exposure, orders);
            multiset(all.accepted) + multiset(OrdersOf(all.rejected)) == multiset(orders)
  {
    hide Judge, OrdersOf, Notional;
    if orders == [] {
      NoOrders();
    } else {
      var n := |orders| - 1;
      PassPartitions(l, count, exposure, orders[..n]);
      var sofar := Allocate(l, count, exposure, orders[..n]);
      var v := Judge(l, sofar.count, sofar.exposure, orders[n]);
      OrdersOfSnoc(sofar.rejected, (orders[n], v));
      SnocSplit(sofar.accepted, OrdersOf(sofar.rejected), orders);
    }
  }

  lemma AllocationPartitions(
    l: Limits, count: int, exposure: real, pending: seq<Order>, ps: seq<Position>,
    correlations: map<set<string>, real>, last: map<string, real>, now: real)
    ensures var all := Allocate(l, count, exposure, Ranked(pending, ps, correlations, last, now));
            multiset(all.accepted) + multiset(OrdersOf(all.rejected)) == multiset(pending)
  {
    hide Score;
    PassPartitions(l, count, exposure, Ranked(pending, ps, correlations, last, now));
    var before := (a, b) => Score(a, ps, correlations, last, now) > Score(b, ps, correlations, last, now);
    StableSortKeepsAll(pending, before);
  }

  // -------------------------------------------------------------------------
  // The limits
  // -------------------------------------------------------------------------

  lemma {:induction false} TalliesAreExact(l: Limits, count: int, exposure: real, orders: seq<Order>)
    ensures var all := Allocate(l, count, exposure, orders);
            all.count == count + |all.accepted| && all.exposure == exposure + Total(all.accepted)
  {
    hide Judge, Notional;
    if orders != [] {
      var n := |orders| - 1;
      TalliesAreExact(l, count, exposure, orders[..n]);
      var sofar := Allocate(l, count, exposure, orders[..n]);
      var more := sofar.accepted + [orders[n]];
      assert more[..|more| - 1] == sofar.accepted;
    }
  }

  /** Once anything is accepted, the open positions and the accepted orders together respect both portfolio limits. */
  lemma {:induction false} LimitsHold(l: Limits, count: int, exposure: real, orders: seq<Order>)
    ensures var all := Allocate(l, count, exposure, orders);
            && (all.accepted != [] ==>
                  count + |all.accepted| <= l.maxPositions && exposure + Total(all.accepted) <= l.maxExposure)
            && forall o :: o in all.accepted ==> Notional(o) <= l.maxSingle
  {
    hide Notional, Total;
    TalliesAreExact(l, count, exposure, orders);
    if orders != [] {
      LimitsHold(l, count, exposure, orders[..|orders| - 1]);
      TalliesAreExact(l, count, exposure, orders[..|orders| - 1]);
    }
  }

  // -------------------------------------------------------------------------
  // Maximality: nothing that was turned away would still fit
  // -------------------------------------------------------------------------

  ghost predicate NonNegative(orders: seq<Order>) {
    forall i :: 0 <= i < |orders| ==> Notional(orders[i]) >= 0.0
  }

  /** Adding the order to a book of this size would break one of the three limits. */
  predicate DoesNotFit(l: Limits, count: int, exposure: real, o: Order) {
    count + 1 > l.maxPositions || exposure + Notional(o) > l.maxExposure || Notional(o) > l.maxSingle
  }

  lemma {:induction false} NothingMoreFits(l: Limits, count: int, exposure: real, orders: seq<Order>)
    requires orders != [] ==> NonNegative(orders[1..])
    ensures var all := Allocate(l, count, exposure, orders);
            forall r :: r in all.rejected ==> DoesNotFit(l, all.count, all.exposure, r.0)
  {
    hide Notional;
    if |orders| == 1 {
      assert orders[..0] == [];
    } else if orders != [] {
      var n := |orders| - 1;
      assert orders[..n][1..] == orders[1..][..n - 1];
      NothingMoreFits(l, count, exposure, orders[..n]);
      var sofar := Allocate(l, count, exposure, orders[..n]);
      assert orders[1..][n - 1] == orders[n];
      assert Notional(orders[n]) >= 0.0;
      forall r | r in sofar.rejected ensures DoesNotFit(l, sofar.count + 1, sofar.exposure + Notional(orders[n]), r.0) {
        assert DoesNotFit(l, sofar.count, sofar.exposure, r.0);
      }
    }
  }

  /** No rejected order can be added to what was accepted without breaking the
      position count, the exposure limit or the single-order limit. Only the
      orders behind the first have to be non-negative. */
  lemma AllocationIsMaximal(l: Limits, count: int, exposure: real, orders: seq<Order>)
    requires orders != [] ==> NonNegative(orders[1..])
    ensures var all := Allocate(l, count, exposure, orders);
            forall r :: r in all.rejected ==>
              DoesNotFit(l, count + |all.accepted|, exposure + Total(all.accepted), r.0)
  {
    NothingMoreFits(l, count, exposure, orders);
    TalliesAreExact(l, count, exposure, orders);
  }

  /** Maximality of the pass over these orders, under given limits and a given start. */
  ghost predicate Maximal(l: Limits, count: int, exposure: real, orders: seq<Order>) {
    var all := Allocate(l, count, exposure, orders);
    forall r :: r in all.rejected ==> DoesNotFit(l, all.count, all.exposure, r.0)
  }

  lemma TwoOrders(l: Limits, count: int, exposure: real, first: Order, second: Order)
    ensures var v := Judge(l, count, exposure, first);
            var c := if v == Accept then count + 1 else count;
            var e := if v == Accept then exposure + Notional(first) else exposure;
            var w := Judge(l, c, e, second);
            Allocate(l, count, exposure, [first, second]) ==
              Allocation((if v == Accept then [first] else []) + (if w == Accept then [second] else []),
                         (if v == Accept then [] else [(first, v)]) + (if w == Accept then [] else [(second, w)]),
                         if w == Accept then c + 1 else c, if w == Accept then e + Notional(second) else e)
  {
    hide Judge, Notional;
    assert [first, second][..1] == [first] && [first][..0] == [];
    assert Allocate(l, count, exposure, []) == Allocation([], [], count, exposure);
  }

  /** The exact condition for a pass over two orders: it is maximal under all limits
      and from every start, unless the second is negative and smaller than the first. */
  lemma TwoOrderPassIsMaximalExactly(first: Order, second: Order)
    ensures (forall l, count, exposure :: Maximal(l, count, exposure, [first, second]))
            <==> !(Notional(second) < 0.0 && Notional(second) < Notional(first))
  {
    hide Notional, Allocate;
    if Notional(second) < 0.0 && Notional(second) < Notional(first) {
      var l := Limits(2, Max(Notional(second), Notional(first) + Notional(second)), Max(Notional(first), 0.0));
      TwoOrders(l, 0, 0.0, first, second);
      assert (first, ExposureLimit(l.maxExposure)) in Allocate(l, 0, 0.0, [first, second]).rejected;
      assert !Maximal(l, 0, 0.0, [first, second]);
    } else {
      forall l, count, exposure ensures Maximal(l, count, exposure, [first, second]) {
        TwoOrders(l, count, exposure, first, second);
      }
    }
  }

  /** Without the sign condition the pass can turn an order away and later make room for it. */
  lemma NegativeNotionalBreaksMaximality()
    ensures
      var big := Order("A", "c", Long, 10.0, 9.0, 12.0, 1.0, 0.01);
      var short := big.(positionSize := -1.0);
      var all := Allocate(Limits(5, 5.0, 20.0), 0, 0.0, [big, short]);
      && all.rejected == [(big, ExposureLimit(5.0))]
      && !DoesNotFit(Limits(5, 5.0, 20.0), all.count, all.exposure, big)
  {
    var big := Order("A", "c", Long, 10.0, 9.0, 12.0, 1.0, 0.01);
    var short := big.(positionSize := -1.0);
    var l := Limits(5, 5.0, 20.0);
    assert [big, short][..1] == [big];
    assert [big][..0] == [];
    assert Notional(big) == 10.0 && Notional(short) == -10.0;
    assert Allocate(l, 0, 0.0, [big]) == Allocation([], [(big, ExposureLimit(5.0))], 0, 0.0);
  }

  // -------------------------------------------------------------------------
  // Priority
  // -------------------------------------------------------------------------

  lemma {:induction false} TalliesGrow(l: Limits, count: int, exposure: real, orders: seq<Order>, k: nat)
    requires NonNegative(orders) && k <= |orders|
    ensures Allocate(l, count, exposure, orders[..k]).count <= Allocate(l, count, exposure, orders).count
    ensures Allocate(l, count, exposure, orders[..k]).exposure <= Allocate(l, count, exposure, orders).exposure
  {
    hide Judge, Notional;
    if k == |orders| {
      assert orders[..k] == orders;
    } else {
      var n := |orders| - 1;
      TalliesGrow(l, count, exposure, orders[..n], k);
      assert orders[..n][..k] == orders[..k];
      assert Notional(orders[n]) >= 0.0;
    }
  }

  /** An order that is accepted after a higher-ranked one was turned away is
      smaller than it, or the other was too large on its own; after a
      full-house rejection nothing is accepted. */
  lemma NoPriorityInversion(l: Limits, count: int, exposure: real, orders: seq<Order>, i: nat, j: nat)
    requires NonNegative(orders) && i < j < |orders|
    requires VerdictAt(l, count, exposure, orders, i) != Accept
    requires VerdictAt(l, count, exposure, orders, j) == Accept
    ensures var v := VerdictAt(l, count, exposure, orders, i);
            v.SingleAsset? || (v.ExposureLimit? && Notional(orders[j]) < Notional(orders[i]))
  {
    hide Allocate, Notional;
    TalliesGrow(l, count, exposure, orders[..j], i);
    assert orders[..j][..i] == orders[..i];
  }

  /** The ranking the pass runs over: best score first, ties in arrival order, nothing lost. */
  lemma RankingIsByScore(
    pending: seq<Order>, ps: seq<Position>, correlations: map<set<string>, real>, last: map<string, real>, now: real)
    ensures var ranked := Ranked(pending, ps, correlations, last, now);
            && multiset(ranked) == multiset(pending)
            && forall i, j :: 0 <= i < j < |ranked| ==>
                 Score(ranked[i], ps, correlations, last, now) >= Score(ranked[j], ps, correlations, last, now)
  {
    hide Score;
    var before := (a, b) => Score(a, ps, correlations, last, now) > Score(b, ps, correlations, last, now);
    StableSortKeepsAll(pending, before);
    StableSortSorts(pending, before);
    assert forall a, b ::
      before(a, b) == (Score(a, ps, correlations, last, now) > Score(b, ps, correlations, last, now));
  }

  /** Being accepted costs an asset priority afterwards: it never scores higher than it would have unstamped. */
  lemma TradingLowersPriority(
    o: Order, accepted: seq<Order>, ps: seq<Position>, correlations: map<set<string>, real>,
    last: map<string, real>, now: real, later: real)
    requires 0.0 < now <= later
    requires o.asset in last ==> last[o.asset] <= now
    ensures Score(o, ps, correlations, Stamp(last, accepted, now), later) <= Score(o, ps, correlations, last, later)
  {
    hide MeanCorrelation;
    StampIsExact(o.asset, accepted, last, now);
  }

  /** After a call exactly the accepted assets carry its time; every other stamp is as it was. */
  lemma {:induction false} StampIsExact(asset: string, accepted: seq<Order>, last: map<string, real>, now: real)
    ensures var after := Stamp(last, accepted, now);
            if exists k :: 0 <= k < |accepted| && accepted[k].asset == asset
            then asset in after && after[asset] == now
            else (asset in after <==> asset in last) && (asset in last ==> after[asset] == last[asset])
  {
    if accepted != [] {
      var n := |accepted| - 1;
      StampIsExact(asset, accepted[..n], last, now);
      assert forall k :: 0 <= k < n ==> accepted[..n][k] == accepted[k];
      assert (exists k :: 0 <= k < |accepted| && accepted[k].asset == asset)
        <==> (accepted[n].asset == asset || exists k :: 0 <= k < n && accepted[..n][k].asset == asset);
    }
  }

  // -------------------------------------------------------------------------
  // In figures
  // -------------------------------------------------------------------------

  function Worths(ps: seq<Position>): (r: seq<real>)
    ensures |r| == |ps|
  {
    seq(|ps|, i requires 0 <= i < |ps| => Value(ps[i].size, ps[i].entryPrice))
  }

  function Notionals(orders: seq<Order>): (r: seq<real>)
    ensures |r| == |orders|
  {
    seq(|orders|, i requires 0 <= i < |orders| => Value(orders[i].positionSize, orders[i].entryPrice))
  }

  lemma {:induction false} ExposureIsSum(ps: seq<Position>)
    ensures Exposure(ps) == Sum(Worths(ps))
  {
    hide Value;
    if ps != [] {
      ExposureIsSum(ps[1..]);
      assert Worths(ps)[1..] == Worths(ps[1..]);
    }
  }

  lemma {:induction false} TotalIsSum(orders: seq<Order>)
    ensures Total(orders) == Sum(Notionals(orders))
  {
    hide Value;
    if orders != [] {
      var n := |orders| - 1;
      TotalIsSum(orders[..n]);
      SumSnoc(Notionals(orders[..n]), Notionals(orders)[n]);
      assert Notionals(orders) == Notionals(orders[..n]) + [Notionals(orders)[n]];
    }
  }

  /** A call that accepts anything leaves, open positions and accepted orders together, at
      most so many of them, worth at most the exposure limit; each accepted order is
      within the single-order limit by itself. */
  lemma CallRespectsLimits(l: Limits, ps: seq<Position>, orders: seq<Order>)
    ensures var all := Allocate(l, |ps|, Exposure(ps), orders);
      && (all.accepted != [] ==>
            && |ps| + |all.accepted| <= l.maxPositions
            && Sum(Worths(ps)) + Sum(Notionals(all.accepted)) <= l.maxExposure)
      && forall o :: o in all.accepted ==> Value(o.positionSize, o.entryPrice) <= l.maxSingle
  {
    hide Allocate, Total, Exposure, Value;
    LimitsHold(l, |ps|, Exposure(ps), orders);
    ExposureIsSum(ps);
    TotalIsSum(Allocate(l, |ps|, Exposure(ps), orders).accepted);
  }

  /** A rejection names the first limit that the order breaks at its turn: the number of
      positions, then the exposure, then the size of a single order. */
  lemma VerdictNamesFirstLimit(l: Limits, count: int, exposure: real, orders: seq<Order>, k: nat)
    requires k < |orders|
    ensures var before, o := Allocate(l, count, exposure, orders[..k]), orders[k];
            var n, worth := count + |before.accepted|, Value(o.positionSize, o.entryPrice);
            var held := exposure + Sum(Notionals(before.accepted));
            match VerdictAt(l, count, exposure, orders, k)
            case MaxPositions(limit) => n >= l.maxPositions == limit
            case ExposureLimit(cap) => n < l.maxPositions && held + worth > l.maxExposure == cap
            case SingleAsset(size, cap) =>
              n < l.maxPositions && held + worth <= l.maxExposure && worth > l.maxSingle == cap && size == worth
            case Accept => n < l.maxPositions && held + worth <= l.maxExposure && worth <= l.maxSingle
  {
    hide Allocate, Total, Value;
    TalliesAreExact(l, count, exposure, orders[..k]);
    TotalIsSum(Allocate(l, count, exposure, orders[..k]).accepted);
  }

  /** Correlations of an asset with the open positions, one half where unknown. */
  function Known(asset: string, ps: seq<Position>, correlations: map<set<string>, real>): (r: seq<real>)
    ensures |r| == |ps|
  {
    seq(|ps|, i requires 0 <= i < |ps| =>
      if {ps[i].asset, asset} in correlations then correlations[{ps[i].asset, asset}] else 0.5)
  }

  lemma {:induction false} CorrelationIsSum(asset: string, ps: seq<Position>, correlations: map<set<string>, real>)
    ensures CorrelationTotal(asset, ps, correlations) == Sum(Known(asset, ps, correlations))
  {
    if ps != [] {
      assert {asset, ps[0].asset} == {ps[0].asset, asset};
      CorrelationIsSum(asset, ps[1..], correlations);
      assert Known(asset, ps, correlations)[1..] == Known(asset, ps[1..], correlations);
    }
  }

  lemma SplitQuotients(x: real, y: real, d: real, rest: real)
    requires d > 0.0
    ensures Value(0.35 * (x / d) + 0.25 * (y / d) + rest, d) == 0.35 * x + 0.25 * y + Value(rest, d)
  {
    var p, q := x / d, y / d;
    assert p * d == x && q * d == y;
    assert (0.35 * p + 0.25 * q + rest) * d == 0.35 * (p * d) + 0.25 * (q * d) + rest * d;
  }

  /** The score in an order's own figures: per unit of distance to the stop, 35% of the
      distance to the target and 25% of the price; 25% of one less the mean known
      correlation; and 15% of the hours since the asset last traded, as a share of a
      day and at most one. Without a distance the first two count one each, and
      without positions or correlations the mean is zero. */
  lemma ScoreInFigures(o: Order, ps: seq<Position>, correlations: map<set<string>, real>, last: map<string, real>,
                       now: real, mean: real, idle: real)
    requires if ps == [] || correlations == map[] then mean == 0.0
             else Value(mean, |ps| as real) == Sum(Known(o.asset, ps, correlations))
    requires if o.asset in last && last[o.asset] > 0.0
             then idle == Min(1.0, (now - last[o.asset]) / 86400.0) else idle == 1.0
    ensures var score := Score(o, ps, correlations, last, now);
            var rest := 0.25 * (1.0 - mean) + 0.15 * idle;
      && (o.entryPrice == o.stopPrice ==> score == 0.60 + rest)
      && (o.entryPrice != o.stopPrice ==>
            Value(score, Abs(o.entryPrice - o.stopPrice))
            == 0.35 * Abs(o.targetPrice - o.entryPrice) + 0.25 * o.entryPrice
               + Value(rest, Abs(o.entryPrice - o.stopPrice)))
  {
    hide Value, Sum;
    CorrelationIsSum(o.asset, ps, correlations);
    MeanIsMean(o.asset, ps, correlations, mean);
    assert Recency(last, o.asset, now) == idle by { IdleTime(last, o.asset, now); }
    if o.entryPrice != o.stopPrice {
      SplitQuotients(Abs(o.targetPrice - o.entryPrice), o.entryPrice, Abs(o.entryPrice - o.stopPrice),
                     0.25 * (1.0 - mean) + 0.15 * idle);
    }
  }

  lemma MeanIsMean(asset: string, ps: seq<Position>, correlations: map<set<string>, real>, mean: real)
    requires if ps == [] || correlations == map[] then mean == 0.0
             else Value(mean, |ps| as real) == CorrelationTotal(asset, ps, correlations)
    ensures MeanCorrelation(asset, ps, correlations) == mean
  {
  }

  lemma IdleTime(last: map<string, real>, asset: string, now: real)
    ensures Recency(last, asset, now) ==
              if asset in last && last[asset] > 0.0 then Min(1.0, (now - last[asset]) / 86400.0) else 1.0
  {
  }
}
