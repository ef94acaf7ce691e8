/** The deterministic gate between strategy signals and orders. */
module RiskEngine {
  import opened Common

  datatype Signal = Signal(
    asset: string, assetClass: string, side: Side, entryPrice: real, timestamp: real,
    stop: Option<real>, target: Option<real>, volScale: Option<real>)

  datatype Position = Position(
    asset: string, assetClass: string, side: Side, entryPrice: real, stopPrice: real, riskPct: real, size: real)

  datatype RiskConfig = RiskConfig(
    riskPct: real, minRewardRisk: real, maxHeat: real, maxHeatHighVol: real, correlationThreshold: real,
    maxPerClass: int, dailyLossLimit: real, weeklyLossLimit: real, weeklyLossReduction: real, maxDrawdown: real,
    consecutiveLossLimit: int, cooldownHours: real, preEventHours: real, preEventReduction: real)

  /** A configuration the constructor accepts. */
  ghost predicate Accepted(cfg: RiskConfig) { 0.0 < cfg.riskPct <= 0.02 }

  datatype Account = Account(
    equity: real, peakEquity: real, openPositions: seq<Position>, dailyPnlPct: real, weeklyPnlPct: real,
    consecutiveLosses: map<string, int>, lastLossAt: map<string, real>, killSwitch: bool, highVolatility: bool,
    minutesToEvent: Option<real>, correlations: map<set<string>, real>)

  datatype Order = Order(
    asset: string, assetClass: string, side: Side, entryPrice: real, stopPrice: real, targetPrice: real,
    positionSize: real, riskPct: real)

  datatype Reason =
    KillSwitch | MaxDrawdown | DailyLoss | LossCooldown | NoStop | StopAtEntry | NoTarget | RewardTooLow
    | ClassFull | HeatCap | CorrelationCap

  datatype Decision = Approved(order: Order) | Rejected(reason: Reason)

  function Heat(ps: seq<Position>): real { if ps == [] then 0.0 else ps[0].riskPct + Heat(ps[1..]) }

  function InClass(ps: seq<Position>, c: string): nat {
    if ps == [] then 0 else (if ps[0].assetClass == c then 1 else 0) + InClass(ps[1..], c)
  }

  function CorrelatedHeat(ps: seq<Position>, asset: string, correlations: map<set<string>, real>,
                          threshold: real): real {
    if ps == [] then 0.0
    else
      var pair := {ps[0].asset, asset};
      (if (if pair in correlations then correlations[pair] else 0.0) > threshold then ps[0].riskPct else 0.0)
        + CorrelatedHeat(ps[1..], asset, correlations, threshold)
  }

  /** A loss streak in the signal's asset class whose cooldown has not yet run out; times in hours. */
  predicate CoolingDown(cfg: RiskConfig, s: Signal, a: Account) {
    && s.assetClass in a.consecutiveLosses && a.consecutiveLosses[s.assetClass] >= cfg.consecutiveLossLimit
    && s.assetClass in a.lastLossAt && s.timestamp < a.lastLossAt[s.assetClass] + cfg.cooldownHours
  }

  /** Streaks of classes without a record count as zero. */
  predicate CoolingDownByDefault(cfg: RiskConfig, s: Signal, a: Account) {
    && s.assetClass !in a.consecutiveLosses && 0 >= cfg.consecutiveLossLimit
    && s.assetClass in a.lastLossAt && s.timestamp < a.lastLossAt[s.assetClass] + cfg.cooldownHours
  }

  /** Risk per trade after the weekly-loss, pre-event and volatility scalings. */
  function EffectiveRisk(cfg: RiskConfig, s: Signal, a: Account): real {
    var base := cfg.riskPct;
    var weekly := if a.weeklyPnlPct <= -cfg.weeklyLossLimit then Value(base, cfg.weeklyLossReduction) else base;
    var event := a.minutesToEvent.Some? && a.minutesToEvent.value <= cfg.preEventHours * 60.0;
    var reduced := if event then Value(weekly, cfg.preEventReduction) else weekly;
    if s.volScale.Some? then Min(Value(reduced, s.volScale.value), cfg.riskPct) else reduced
  }

  function HeatCapOf(cfg: RiskConfig, a: Account): real { if a.highVolatility then cfg.maxHeatHighVol else cfg.maxHeat }

  function Evaluate(cfg: RiskConfig, s: Signal, a: Account): Decision {
    if a.killSwitch then Rejected(KillSwitch)
    else if a.peakEquity > 0.0 && (a.peakEquity - a.equity) / a.peakEquity + 0.0001 >= cfg.maxDrawdown
    then Rejected(MaxDrawdown)
    else if a.dailyPnlPct <= -cfg.dailyLossLimit then Rejected(DailyLoss)
    else if CoolingDown(cfg, s, a) || CoolingDownByDefault(cfg, s, a) then Rejected(LossCooldown)
    else if s.stop.None? then Rejected(NoStop)
    else
      var perUnit := Abs(s.entryPrice - s.stop.value);
      if perUnit == 0.0 then Rejected(StopAtEntry)
      else if s.target.None? then Rejected(NoTarget)
      else if Abs(s.target.value - s.entryPrice) / perUnit < cfg.minRewardRisk then Rejected(RewardTooLow)
      else if InClass(a.openPositions, s.assetClass) >= cfg.maxPerClass then Rejected(ClassFull)
      else
        var risk := EffectiveRisk(cfg, s, a);
        var heat := Heat(a.openPositions);
        var cap := HeatCapOf(cfg, a);
        var correlated := CorrelatedHeat(a.openPositions, s.asset, a.correlations, cfg.correlationThreshold);
        if heat + risk > cap then Rejected(HeatCap)
        else if correlated > 0.0 && heat + risk + correlated > cap then Rejected(CorrelationCap)
        else
          Approved(Order(s.asset, s.assetClass, s.side, s.entryPrice, s.stop.value, s.target.value,
                         Value(a.equity, risk) / perUnit, risk))
  }

  // -------------------------------------------------------------------------
  // What an approval guarantees
  // -------------------------------------------------------------------------

  predicate WeeklyReductionActive(cfg: RiskConfig, a: Account) { a.weeklyPnlPct <= -cfg.weeklyLossLimit }

  predicate EventReductionActive(cfg: RiskConfig, a: Account) {
    a.minutesToEvent.Some? && a.minutesToEvent.value <= cfg.preEventHours * 60.0
  }

  /** Product of the reductions in force for an account; the configuration does not bound them. */
  function Reduction(cfg: RiskConfig, a: Account): real {
    Value(if WeeklyReductionActive(cfg, a) then cfg.weeklyLossReduction else 1.0,
          if EventReductionActive(cfg, a) then cfg.preEventReduction else 1.0)
  }

  /** The signal's volatility scale, if it has one, is positive. */
  predicate PositiveScale(s: Signal) { s.volScale.Some? ==> s.volScale.value > 0.0 }

  predicate PositiveReductions(cfg: RiskConfig) { cfg.weeklyLossReduction > 0.0 && cfg.preEventReduction > 0.0 }

  /** A positive quantity keeps the sign of its factor, and is exceeded exactly by factors above one. */
  lemma Scaled(x: real, k: real)
    requires x > 0.0
    ensures Value(x, k) > 0.0 <==> k > 0.0
    ensures Value(x, k) < 0.0 <==> k < 0.0
    ensures Value(x, k) <= x <==> k <= 1.0
  {
    assert x * (k - 1.0) == x * k - x;
    assert k > 1.0 ==> x * (k - 1.0) > 0.0;
    assert k <= 1.0 ==> x * (k - 1.0) <= 0.0;
  }

  lemma ValueOfValue(x: real, k: real, m: real)
    ensures Value(Value(x, k), m) == Value(x, Value(k, m))
    ensures Value(x, 1.0) == x && Value(1.0, x) == x
  {
  }

  /** Before its volatility scale, the risk is the configured share times the reductions in force. */
  lemma RiskIsReducedShare(cfg: RiskConfig, s: Signal, a: Account)
    ensures var reduced := Value(cfg.riskPct, Reduction(cfg, a));
            EffectiveRisk(cfg, s, a) ==
              if s.volScale.Some? then Min(Value(reduced, s.volScale.value), cfg.riskPct) else reduced
  {
    hide Value;
    var weekly := if WeeklyReductionActive(cfg, a) then cfg.weeklyLossReduction else 1.0;
    var event := if EventReductionActive(cfg, a) then cfg.preEventReduction else 1.0;
    ValueOfValue(cfg.riskPct, weekly, event);
    ValueOfValue(Value(cfg.riskPct, weekly), 1.0, 1.0);
  }

  /** Risk stays within the configured share, itself at most 2%, if and only if
      the signal carries a volatility scale, which brings a final clamp with it,
      or the reductions in force do not multiply to more than one; and within 2%
      if and only if there is a scale or they do not lift the share beyond that. */
  lemma RiskStaysCapped(cfg: RiskConfig, s: Signal, a: Account)
    requires Accepted(cfg)
    ensures EffectiveRisk(cfg, s, a) <= cfg.riskPct <==> s.volScale.Some? || Reduction(cfg, a) <= 1.0
    ensures EffectiveRisk(cfg, s, a) <= 0.02 <==> s.volScale.Some? || Value(cfg.riskPct, Reduction(cfg, a)) <= 0.02
  {
    hide Value, EffectiveRisk, Reduction;
    RiskIsReducedShare(cfg, s, a);
    Scaled(cfg.riskPct, Reduction(cfg, a));
  }

  /** The sign of the risk is that of the reductions in force times the scale. */
  lemma RiskSign(cfg: RiskConfig, s: Signal, a: Account)
    requires Accepted(cfg)
    ensures var factor := if s.volScale.Some? then Value(Reduction(cfg, a), s.volScale.value) else Reduction(cfg, a);
            && (EffectiveRisk(cfg, s, a) > 0.0 <==> factor > 0.0)
            && (EffectiveRisk(cfg, s, a) >= 0.0 <==> factor >= 0.0)
    ensures PositiveReductions(cfg) ==> (EffectiveRisk(cfg, s, a) > 0.0 <==> PositiveScale(s))
  {
    hide Value, EffectiveRisk;
    RiskIsReducedShare(cfg, s, a);
    Scaled(cfg.riskPct, Reduction(cfg, a));
    if s.volScale.Some? {
      ValueOfValue(cfg.riskPct, Reduction(cfg, a), s.volScale.value);
      Scaled(cfg.riskPct, Value(Reduction(cfg, a), s.volScale.value));
    }
    if PositiveReductions(cfg) {
      ReductionIsPositive(cfg, a);
      if s.volScale.Some? { Scaled(Reduction(cfg, a), s.volScale.value); }
    }
  }

  lemma ReductionIsPositive(cfg: RiskConfig, a: Account)
    requires PositiveReductions(cfg)
    ensures Reduction(cfg, a) > 0.0
  {
    hide Value;
    Scaled(if WeeklyReductionActive(cfg, a) then cfg.weeklyLossReduction else 1.0,
           if EventReductionActive(cfg, a) then cfg.preEventReduction else 1.0);
  }

  lemma SizeCancels(x: real, d: real)
    requires d != 0.0
    ensures x / d * d == x
  {
  }

  /** Under every configuration, an approved order risks exactly its share of
      equity between entry and stop, keeps the portfolio within its heat cap and
      class limit, pays enough reward, and is not doubled up through correlated
      positions. */
  lemma ApprovalIsSafe(cfg: RiskConfig, s: Signal, a: Account)
    requires Evaluate(cfg, s, a).Approved?
    ensures var o := Evaluate(cfg, s, a).order;
      && o.riskPct == EffectiveRisk(cfg, s, a)
      && o.positionSize * Abs(o.entryPrice - o.stopPrice) == a.equity * o.riskPct
      && Heat(a.openPositions) + o.riskPct <= HeatCapOf(cfg, a)
      && InClass(a.openPositions, o.assetClass) < cfg.maxPerClass
      && (var c := CorrelatedHeat(a.openPositions, s.asset, a.correlations, cfg.correlationThreshold);
          c > 0.0 ==> Heat(a.openPositions) + o.riskPct + c <= HeatCapOf(cfg, a))
      && o.asset == s.asset && o.assetClass == s.assetClass && o.side == s.side
      && (Abs(o.targetPrice - o.entryPrice) / Abs(o.entryPrice - o.stopPrice) >= cfg.minRewardRisk)
  {
    hide Value, EffectiveRisk;
    var perUnit := Abs(s.entryPrice - s.stop.value);
    SizeCancels(Value(a.equity, EffectiveRisk(cfg, s, a)), perUnit);
    ValueIs(a.equity, EffectiveRisk(cfg, s, a));
  }

  lemma ValueIs(x: real, y: real)
    ensures Value(x, y) == x * y
  {
  }

  /** With a positive peak, an approval means more equity than the drawdown limit
      leaves of it; with a limit of at most 100% that is money, and the size is
      positive exactly when the risk is. */
  lemma ApprovalNeedsEquity(cfg: RiskConfig, s: Signal, a: Account)
    requires Evaluate(cfg, s, a).Approved? && a.peakEquity > 0.0
    ensures a.equity > Value(a.peakEquity, 1.0001 - cfg.maxDrawdown)
    ensures cfg.maxDrawdown <= 1.0 ==>
      && a.equity > 0.0
      && (Evaluate(cfg, s, a).order.positionSize > 0.0 <==> Evaluate(cfg, s, a).order.riskPct > 0.0)
  {
    hide Value, EffectiveRisk;
    DrawdownLeaves(a.equity, a.peakEquity, cfg.maxDrawdown);
    if cfg.maxDrawdown <= 1.0 {
      Scaled(a.peakEquity, 1.0001 - cfg.maxDrawdown);
      var risk := EffectiveRisk(cfg, s, a);
      Scaled(a.equity, risk);
      QuotientSign(Value(a.equity, risk), Abs(s.entryPrice - s.stop.value));
    }
  }

  lemma ShareLeft(peak: real, q: real, r: real)
    requires r == 1.0 - q
    ensures Value(peak, r) == peak - q * peak
  {
  }

  lemma DrawdownLeaves(equity: real, peak: real, limit: real)
    requires peak > 0.0 && (peak - equity) / peak + 0.0001 < limit
    ensures equity > Value(peak, 1.0001 - limit)
  {
    var d, q := (peak - equity) / peak, limit - 0.0001;
    assert d * peak == peak - equity;
    assert (q - d) * peak > 0.0;
    assert (q - d) * peak == q * peak - d * peak;
    ShareLeft(peak, q, 1.0001 - limit);
  }

  /** The cap does fail: a reduction above one is an accepted configuration, and an
      order without a volatility scale is then approved beyond the 2% hard cap. */
  lemma LooseReductionBreaksCap()
    ensures
      var cfg := RiskConfig(0.02, 2.0, 0.06, 0.04, 0.7, 5, 0.025, 0.055, 1.5, 0.175, 4, 4.0, 2.0, 0.5);
      var s := Signal("BTC/USDT", "crypto", Long, 100.0, 0.0, Some(90.0), Some(130.0), None);
      var a := Account(1000.0, 1000.0, [], 0.0, -0.06, map[], map[], false, false, None, map[]);
      Accepted(cfg) && Evaluate(cfg, s, a).Approved? && Evaluate(cfg, s, a).order.riskPct == 0.03
  {
    var cfg := RiskConfig(0.02, 2.0, 0.06, 0.04, 0.7, 5, 0.025, 0.055, 1.5, 0.175, 4, 4.0, 2.0, 0.5);
    var s := Signal("BTC/USDT", "crypto", Long, 100.0, 0.0, Some(90.0), Some(130.0), None);
    var a := Account(1000.0, 1000.0, [], 0.0, -0.06, map[], map[], false, false, None, map[]);
    assert EffectiveRisk(cfg, s, a) == 0.03;
    assert Heat(a.openPositions) == 0.0;
    assert CorrelatedHeat(a.openPositions, s.asset, a.correlations, cfg.correlationThreshold) == 0.0;
  }

  /** The positivity does fail: a negative volatility scale is approved with negative risk. */
  lemma NegativeScaleIsApproved()
    ensures exists cfg, s, a ::
              Accepted(cfg) && Evaluate(cfg, s, a).Approved? && Evaluate(cfg, s, a).order.riskPct < 0.0
  {
    var cfg := RiskConfig(0.01, 2.0, 0.06, 0.04, 0.7, 5, 0.025, 0.055, 0.5, 0.175, 4, 4.0, 2.0, 0.5);
    var s := Signal("BTC/USDT", "crypto", Long, 100.0, 0.0, Some(90.0), Some(130.0), Some(-1.0));
    var a := Account(1000.0, 1000.0, [], 0.0, 0.0, map[], map[], false, false, None, map[]);
    assert EffectiveRisk(cfg, s, a) == -0.01;
    assert Heat(a.openPositions) == 0.0;
    assert CorrelatedHeat(a.openPositions, s.asset, a.correlations, cfg.correlationThreshold) == 0.0;
    assert Evaluate(cfg, s, a).Approved?;
    assert Evaluate(cfg, s, a).order.riskPct < 0.0;
  }

  // -------------------------------------------------------------------------
  // Exactly what is approved
  // -------------------------------------------------------------------------

  /** Risk shares of the open positions; and those of some of them. */
  function Shares(ps: seq<Position>): (r: seq<real>)
    ensures |r| == |ps|
  {
    seq(|ps|, i requires 0 <= i < |ps| => ps[i].riskPct)
  }

  function SharesIf(ps: seq<Position>, counts: Position -> bool): (r: seq<real>)
    ensures |r| == |ps|
  {
    seq(|ps|, i requires 0 <= i < |ps| => if counts(ps[i]) then ps[i].riskPct else 0.0)
  }

  lemma {:induction false} HeatIsSum(ps: seq<Position>)
    ensures Heat(ps) == Sum(Shares(ps))
  {
    if ps != [] {
      HeatIsSum(ps[1..]);
      assert Shares(ps)[1..] == Shares(ps[1..]);
    }
  }

  /** A position counts as correlated when its pair's correlation, zero if unknown, is above the threshold. */
  predicate Correlated(p: Position, asset: string, correlations: map<set<string>, real>, threshold: real) {
    if {p.asset, asset} in correlations then correlations[{p.asset, asset}] > threshold else threshold < 0.0
  }

  lemma {:induction false} CorrelatedHeatIsSum(ps: seq<Position>, asset: string, correlations: map<set<string>, real>,
                                               threshold: real)
    ensures CorrelatedHeat(ps, asset, correlations, threshold)
         == Sum(SharesIf(ps, p => Correlated(p, asset, correlations, threshold)))
  {
    if ps != [] {
      var counts := p => Correlated(p, asset, correlations, threshold);
      CorrelatedHeatIsSum(ps[1..], asset, correlations, threshold);
      assert SharesIf(ps, counts)[1..] == SharesIf(ps[1..], counts);
    }
  }

  /** Indices of the positions in a class. */
  function Members(ps: seq<Position>, c: string): set<nat> { set i: nat | i < |ps| && ps[i].assetClass == c }

  lemma {:induction false} InClassIsSize(ps: seq<Position>, c: string)
    ensures InClass(ps, c) == |Members(ps, c)|
  {
    if ps != [] {
      var n := |ps| - 1;
      InClassIsSize(ps[..n], c);
      InClassSnoc(ps[..n], ps[n], c);
      assert ps == ps[..n] + [ps[n]];
      var front := Members(ps[..n], c);
      assert n !in front;
      assert Members(ps, c) == if ps[n].assetClass == c then front + {n} else front;
    } else {
      assert Members(ps, c) == {};
    }
  }

  lemma {:induction false} InClassSnoc(ps: seq<Position>, p: Position, c: string)
    ensures InClass(ps + [p], c) == InClass(ps, c) + if p.assetClass == c then 1 else 0
  {
    if ps == [] {
      assert ps + [p] == [p];
    } else {
      InClassSnoc(ps[1..], p, c);
      assert (ps + [p])[1..] == ps[1..] + [p];
    }
  }

  /** The account may trade at all: no kill switch, less drawdown than the limit less a
      ten-thousandth, less than the daily loss limit, and no streak still cooling down. */
  ghost predicate MayTrade(cfg: RiskConfig, s: Signal, a: Account) {
    var streak := if s.assetClass in a.consecutiveLosses then a.consecutiveLosses[s.assetClass] else 0;
    && !a.killSwitch
    && (a.peakEquity > 0.0 ==> a.peakEquity - a.equity < Value(cfg.maxDrawdown - 0.0001, a.peakEquity))
    && a.dailyPnlPct > -cfg.dailyLossLimit
    && !(streak >= cfg.consecutiveLossLimit && s.assetClass in a.lastLossAt
         && s.timestamp - a.lastLossAt[s.assetClass] < cfg.cooldownHours)
  }

  /** The signal names a stop away from its entry, and a target far enough from it. */
  ghost predicate PaysEnough(cfg: RiskConfig, s: Signal) {
    && s.stop.Some? && s.target.Some? && s.stop.value != s.entryPrice
    && Abs(s.target.value - s.entryPrice) >= Value(cfg.minRewardRisk, Abs(s.entryPrice - s.stop.value))
  }

  /** There is room for this risk: in its class, under the heat cap, and under it once
      more with the risk of correlated positions counted twice. */
  ghost predicate HasRoom(cfg: RiskConfig, s: Signal, a: Account, risk: real) {
    var cap := if a.highVolatility then cfg.maxHeatHighVol else cfg.maxHeat;
    var open := Sum(Shares(a.openPositions));
    var doubled := Sum(SharesIf(a.openPositions,
                                p => Correlated(p, s.asset, a.correlations, cfg.correlationThreshold)));
    && |Members(a.openPositions, s.assetClass)| < cfg.maxPerClass
    && open + risk <= cap
    && (doubled > 0.0 ==> open + risk + doubled <= cap)
  }

  lemma RoomIsHeat(cfg: RiskConfig, s: Signal, a: Account, risk: real)
    ensures HasRoom(cfg, s, a, risk) <==>
      var correlated := CorrelatedHeat(a.openPositions, s.asset, a.correlations, cfg.correlationThreshold);
      && InClass(a.openPositions, s.assetClass) < cfg.maxPerClass
      && Heat(a.openPositions) + risk <= HeatCapOf(cfg, a)
      && (correlated > 0.0 ==> Heat(a.openPositions) + risk + correlated <= HeatCapOf(cfg, a))
  {
    hide Shares, SharesIf, Members, Correlated;
    HeatIsSum(a.openPositions);
    InClassIsSize(a.openPositions, s.assetClass);
    CorrelatedHeatIsSum(a.openPositions, s.asset, a.correlations, cfg.correlationThreshold);
  }

  /** A signal is approved if and only if the account may trade, the signal pays enough,
      and there is room for the risk. */
  lemma ApprovedExactly(cfg: RiskConfig, s: Signal, a: Account)
    ensures Evaluate(cfg, s, a).Approved? <==>
            MayTrade(cfg, s, a) && PaysEnough(cfg, s) && HasRoom(cfg, s, a, EffectiveRisk(cfg, s, a))
  {
    hide Value, EffectiveRisk, Heat, InClass, CorrelatedHeat, HasRoom, HeatCapOf;
    RoomIsHeat(cfg, s, a, EffectiveRisk(cfg, s, a));
    if a.peakEquity > 0.0 { QuotientCompares(a.peakEquity - a.equity, a.peakEquity, cfg.maxDrawdown - 0.0001); }
    if s.stop.Some? && s.target.Some? && s.stop.value != s.entryPrice {
      QuotientCompares(Abs(s.target.value - s.entryPrice), Abs(s.entryPrice - s.stop.value), cfg.minRewardRisk);
    }
  }

  /** Which rejection is reported: the account's state comes before the signal, the
      signal before the room, and the kill switch before everything. */
  lemma RejectionsAreOrdered(cfg: RiskConfig, s: Signal, a: Account)
    ensures var d := Evaluate(cfg, s, a);
      && (a.killSwitch <==> d == Rejected(KillSwitch))
      && (!MayTrade(cfg, s, a) <==> d.Rejected? && d.reason in {KillSwitch, MaxDrawdown, DailyLoss, LossCooldown})
      && (MayTrade(cfg, s, a) && !PaysEnough(cfg, s) <==>
            d.Rejected? && d.reason in {NoStop, StopAtEntry, NoTarget, RewardTooLow})
      && (d == Rejected(DailyLoss) ==> a.dailyPnlPct <= -cfg.dailyLossLimit)
      && (d == Rejected(LossCooldown) ==> a.dailyPnlPct > -cfg.dailyLossLimit && s.assetClass in a.lastLossAt)
      && (d == Rejected(MaxDrawdown) ==> a.peakEquity > 0.0)
  {
    hide Value, EffectiveRisk, Heat, InClass, CorrelatedHeat, HeatCapOf;
    if a.peakEquity > 0.0 { QuotientCompares(a.peakEquity - a.equity, a.peakEquity, cfg.maxDrawdown - 0.0001); }
    if s.stop.Some? && s.target.Some? && s.stop.value != s.entryPrice {
      QuotientCompares(Abs(s.target.value - s.entryPrice), Abs(s.entryPrice - s.stop.value), cfg.minRewardRisk);
    }
  }
}
