/** Every reported trade, accounted for in its own figures: the approved order it was
    opened by, the price that triggered its exit, what both fills cost, and the
    net result. The same account is given of both replays. */
module TradeAccounts {
  import opened Common
  import opened RiskEngine
  import opened Backtest

  /** A fill at p: a buyer pays slippage on top, a seller gets it taken off. */
  ghost predicate Pays(fill: real, p: real, cfg: Config) { fill == Value(p, 1.0 + cfg.slippage) }

  ghost predicate Gets(fill: real, p: real, cfg: Config) { fill == Value(p, 1.0 - cfg.slippage) }

  /** The trade came from this order: bought or sold at the order's price, with its levels and size. */
  ghost predicate OpenedBy(t: OpenTrade, o: Order, cfg: Config) {
    && t.side == o.side && t.size == o.positionSize && t.target == o.targetPrice && t.initialStop == o.stopPrice
    && (o.side == Long ==> Pays(t.entryFill, o.entryPrice, cfg))
    && (o.side == Short ==> Gets(t.entryFill, o.entryPrice, cfg))
  }

  /** The reported trade was opened by order o and left at price p. Its net result is what
      the two fills differ by, times the size, less commission on both; its R multiple
      measures that in units of the risk taken at entry. */
  ghost predicate Accounts(tr: Trade, o: Order, p: real, cfg: Config) {
    && tr.side == o.side && tr.size == o.positionSize && tr.target == o.targetPrice
    && (o.side == Long ==>
          && Pays(tr.entryFill, o.entryPrice, cfg) && Gets(tr.exitFill, p, cfg)
          && tr.netPnl == Value(tr.exitFill - tr.entryFill, tr.size)
                          - Value(Value(tr.entryFill + tr.exitFill, tr.size), cfg.commission))
    && (o.side == Short ==>
          && Gets(tr.entryFill, o.entryPrice, cfg) && Pays(tr.exitFill, p, cfg)
          && tr.netPnl == Value(tr.entryFill - tr.exitFill, tr.size)
                          - Value(Value(tr.entryFill + tr.exitFill, tr.size), cfg.commission))
    && var risked := Value(tr.size, Abs(tr.entryFill - o.stopPrice));
       if risked == 0.0 then tr.rMultiple == 0.0 else Value(tr.rMultiple, risked) == tr.netPnl
  }

  predicate TouchesStop(side: Side, stop: real, c: Candle) { if side == Long then c.low <= stop else c.high >= stop }

  predicate TouchesTarget(side: Side, target: real, c: Candle) {
    if side == Long then c.high >= target else c.low <= target
  }

  predicate OpensBeyond(side: Side, stop: real, c: Candle) { if side == Long then c.open < stop else c.open > stop }

  /** Why the trade was left on bar c at price p. `gaps` is the rule that a bar opening
      beyond the stop fills at its open. The stop comes before the target, and either
      before the time stop. */
  ghost predicate LeftOn(tr: Trade, p: real, c: Candle, gaps: bool) {
    && tr.exitTime == c.ts
    && match tr.reason
       case Stop =>
         if gaps && OpensBeyond(tr.side, tr.stop, c) then p == c.open
         else p == tr.stop && TouchesStop(tr.side, tr.stop, c)
       case TargetHit =>
         && p == tr.target && TouchesTarget(tr.side, tr.target, c) && !TouchesStop(tr.side, tr.stop, c)
         && (gaps ==> !OpensBeyond(tr.side, tr.stop, c))
       case TimeStop =>
         && p == c.close && !TouchesTarget(tr.side, tr.target, c) && !TouchesStop(tr.side, tr.stop, c)
         && (gaps ==> !OpensBeyond(tr.side, tr.stop, c))
       case EndOfData => p == c.close
       case FoldForceClose => p == c.close
  }

  lemma OpeningIsOpenedBy(o: Order, time: int, cfg: Config)
    ensures OpenedBy(OpenFrom(o, time, cfg), o, cfg)
  {
  }

  lemma GainsMirror(entry: real, exit: real, size: real)
    ensures Gain(Long, entry, exit, size) == Value(exit - entry, size)
    ensures Gain(Short, entry, exit, size) == Value(entry - exit, size)
  {
    assert (entry - exit) * size == -((exit - entry) * size);
  }

  lemma FeesAdd(entry: real, exit: real, size: real, cfg: Config)
    ensures Commission(entry, size, cfg) + Commission(exit, size, cfg)
         == Value(Value(entry + exit, size), cfg.commission)
  {
    var a, b := entry * size, exit * size;
    assert (entry + exit) * size == a + b;
    assert (a + b) * cfg.commission == a * cfg.commission + b * cfg.commission;
  }

  lemma ClosingKeepsTimes(t: OpenTrade, e: Exit, time: int, asset: string, cfg: Config)
    ensures var tr := CloseTrade(t, e, time, asset, cfg);
            tr.asset == asset && tr.entryTime == t.entryTime && tr.exitTime == time && tr.reason == e.reason
  {
    hide Value, Gain, Commission, Abs, WithSlippage;
  }

  lemma ClosingAccounts(t: OpenTrade, o: Order, e: Exit, time: int, asset: string, cfg: Config)
    requires OpenedBy(t, o, cfg)
    ensures Accounts(CloseTrade(t, e, time, asset, cfg), o, e.price, cfg)
    ensures var tr := CloseTrade(t, e, time, asset, cfg);
      && tr.asset == asset && tr.entryTime == t.entryTime && tr.exitTime == time && tr.reason == e.reason
      && tr.stop == t.stop && tr.side == t.side && tr.target == t.target
  {
    hide Value, Gain, Commission, Abs;
    var tr := CloseTrade(t, e, time, asset, cfg);
    GainsMirror(t.entryFill, tr.exitFill, t.size);
    FeesAdd(t.entryFill, tr.exitFill, t.size, cfg);
    var risked := Value(t.size, Abs(t.entryFill - t.initialStop));
    if risked != 0.0 { BackToWhole(tr.netPnl, risked); }
  }

  /** A trade that a bar closes is left on that bar; one that it does not close touched
      neither level and is not yet old enough. */
  lemma ExitIsLeftOn(t: OpenTrade, c: Candle, asset: string, cfg: Config, gaps: bool)
    ensures var exit := OrTimeStop(if gaps then CheckExitWithOpen(t, c) else CheckExit(t, c), t, c, cfg);
      && (exit.Some? ==>
            && LeftOn(CloseTrade(t, exit.value, c.ts, asset, cfg), exit.value.price, c, gaps)
            && (exit.value.reason == TimeStop ==> t.barsHeld >= cfg.maxHoldBars)
            && !exit.value.reason.EndOfData? && !exit.value.reason.FoldForceClose?)
      && (exit.None? ==>
            && !TouchesStop(t.side, t.stop, c) && !TouchesTarget(t.side, t.target, c) && t.barsHeld < cfg.maxHoldBars
            && (gaps ==> !OpensBeyond(t.side, t.stop, c)))
  {
    hide Value, Gain, Commission, Abs, WithSlippage;
  }

  lemma TrailKeepsOrder(t: OpenTrade, upTo: seq<Candle>, c: Candle, cfg: Config)
    requires CanTrail(cfg)
    ensures Trail(t, upTo, c, cfg) == t.(stop := Trail(t, upTo, c, cfg).stop)
  {
    hide Atr, Value;
  }

  lemma AgeIsNoMatter(t: OpenTrade, o: Order, cfg: Config, bars: int)
    requires OpenedBy(t, o, cfg)
    ensures OpenedBy(t.(barsHeld := bars), o, cfg)
  {
  }

  lemma StopIsNoMatter(t: OpenTrade, o: Order, cfg: Config, stop: real)
    requires OpenedBy(t, o, cfg)
    ensures OpenedBy(t.(stop := stop), o, cfg)
  {
  }

  lemma OpensFresh(o: Order, time: int, cfg: Config)
    ensures OpenFrom(o, time, cfg).entryTime == time && OpenFrom(o, time, cfg).barsHeld == 0
    ensures OpenFrom(o, time, cfg).stop == o.stopPrice
  {
  }

  // -------------------------------------------------------------------------
  // Friction
  // -------------------------------------------------------------------------

  /** Costs that are costs, and an order for some quantity at a price. */
  predicate Frictional(cfg: Config, o: Order) {
    cfg.slippage >= 0.0 && cfg.commission >= 0.0 && o.entryPrice >= 0.0 && o.positionSize >= 0.0
  }

  lemma Spread(p: real, s: real)
    ensures Value(p, 1.0 + s) == p + Value(p, s) && Value(p, 1.0 - s) == p - Value(p, s)
  {
    assert p * (1.0 + s) == p + p * s;
    assert p * (1.0 - s) == p - p * s;
  }

  lemma ValueSum(x: real, y: real, size: real)
    ensures Value(x - y, size) == Value(x, size) - Value(y, size)
  {
    assert (x - y) * size == x * size - y * size;
  }

  /** Friction never helps: a trade nets at most what the same two prices would give
      without slippage and commission. In particular one that is left at the price of
      its order never gains. */
  lemma FrictionNeverHelps(tr: Trade, o: Order, p: real, cfg: Config)
    requires Accounts(tr, o, p, cfg) && Frictional(cfg, o) && p >= 0.0 && (cfg.slippage <= 1.0 || p == o.entryPrice)
    ensures tr.netPnl <= Value(if o.side == Long then p - o.entryPrice else o.entryPrice - p, o.positionSize)
    ensures p == o.entryPrice ==> tr.netPnl <= 0.0
  {
    hide Value, Abs;
    var s, q, size := cfg.slippage, o.entryPrice, o.positionSize;
    Spread(q, s);
    Spread(p, s);
    NonNegativeValue(q, s);
    NonNegativeValue(p, s);
    if s <= 1.0 {
      NonNegativeValue(p, 1.0 - s);
      NonNegativeValue(q, 1.0 - s);
    }
    NonNegativeValue(tr.entryFill + tr.exitFill, size);
    NonNegativeValue(Value(tr.entryFill + tr.exitFill, size), cfg.commission);
    var slipped := Value(p, s) + Value(q, s);
    NonNegativeValue(slipped, size);
    ValueSum(if o.side == Long then p - q else q - p, slipped, size);
    if p == q { NoValue(size); }
  }
}

/** The accounts of the single-asset replay. */
module BacktestAccounts {
  import opened Common
  import opened RiskEngine
  import opened Backtest
  import opened TradeAccounts

  /** On bar k, met flat, the strategy signalled and the gate approved this order on the equity and peak of then. */
  ghost predicate EnteredAt(env: Env, candles: seq<Candle>, k: nat, o: Order)
    requires CanTrail(env.cfg)
  {
    && k < |candles|
    && var s, signal := After(env, candles, k), env.strategy(candles[..k + 1], env.asset, candles[k].ts);
       && s.open.None? && signal.Some?
       && env.gate(signal.value, env.account.(equity := s.equity, peakEquity := s.peak)) == Some(o)
  }

  /** The trade open after n bars was entered on bar k by order o and has been met by every bar since. */
  ghost predicate OpenSince(env: Env, candles: seq<Candle>, n: nat, t: OpenTrade, k: nat, o: Order)
    requires CanTrail(env.cfg)
  {
    && k < n <= |candles| && EnteredAt(env, candles, k, o) && OpenedBy(t, o, env.cfg)
    && t.entryTime == candles[k].ts && t.barsHeld == n - 1 - k && (t.barsHeld > 0 ==> t.barsHeld < env.cfg.maxHoldBars)
  }

  /** The trade was entered on bar k by order o and left on bar l at price p, no later than its time stop. */
  ghost predicate LivedFrom(env: Env, candles: seq<Candle>, tr: Trade, k: nat, l: nat, o: Order, p: real)
    requires CanTrail(env.cfg)
  {
    && k <= l < |candles| && EnteredAt(env, candles, k, o) && tr.entryTime == candles[k].ts && tr.asset == env.asset
    && Accounts(tr, o, p, env.cfg) && LeftOn(tr, p, candles[l], true)
    && (tr.reason == TimeStop ==> l - k >= env.cfg.maxHoldBars)
    && (l - k > 1 ==> l - k <= env.cfg.maxHoldBars)
    && (if tr.reason == EndOfData then l == |candles| - 1 else k < l)
  }

  ghost predicate AccountedFor(env: Env, candles: seq<Candle>, tr: Trade)
    requires CanTrail(env.cfg)
  {
    exists k, l, o, p :: LivedFrom(env, candles, tr, k, l, o, p)
  }

  ghost predicate OpenIsKnown(env: Env, candles: seq<Candle>, n: nat, open: Option<OpenTrade>)
    requires CanTrail(env.cfg)
  {
    open.Some? ==> exists k, o :: OpenSince(env, candles, n, open.value, k, o)
  }

  ghost predicate AllAccountedFor(env: Env, candles: seq<Candle>, trades: seq<Trade>)
    requires CanTrail(env.cfg)
  {
    forall i :: 0 <= i < |trades| ==> AccountedFor(env, candles, trades[i])
  }

  lemma HoldAccounts(env: Env, candles: seq<Candle>, n: nat, s: Loop)
    requires n < |candles| && CanTrail(env.cfg) && s.open.Some? && OpenIsKnown(env, candles, n, s.open)
    requires AllAccountedFor(env, candles, s.trades)
    ensures var u := HoldBar(env, s, s.open.value, candles[..n + 1], candles[n]);
            AllAccountedFor(env, candles, u.trades) && OpenIsKnown(env, candles, n + 1, u.open)
  {
    hide EnteredAt, OpenedBy, CloseTrade, Accounts, LeftOn, OrTimeStop, CheckExitWithOpen, Trail, MarkedEquity;
    var t, c := s.open.value, candles[n];
    var held := t.(barsHeld := t.barsHeld + 1);
    var exit := OrTimeStop(CheckExitWithOpen(held, c), held, c, env.cfg);
    var k, o :| OpenSince(env, candles, n, t, k, o);
    assert OpenedBy(held, o, env.cfg) by { AgeIsNoMatter(t, o, env.cfg, held.barsHeld); }
    ExitIsLeftOn(held, c, env.asset, env.cfg, true);
    if exit.Some? {
      var tr := CloseTrade(held, exit.value, c.ts, env.asset, env.cfg);
      ClosingAccounts(held, o, exit.value, c.ts, env.asset, env.cfg);
      assert LivedFrom(env, candles, tr, k, n, o, exit.value.price);
    } else {
      TrailKeepsOrder(held, candles[..n + 1], c, env.cfg);
      var u := Trail(held, candles[..n + 1], c, env.cfg);
      assert OpenedBy(u, o, env.cfg) by { StopIsNoMatter(held, o, env.cfg, u.stop); }
      assert OpenSince(env, candles, n + 1, u, k, o);
    }
  }

  lemma FlatAccounts(env: Env, candles: seq<Candle>, n: nat)
    requires n < |candles| && CanTrail(env.cfg) && After(env, candles, n).open.None?
    requires AllAccountedFor(env, candles, After(env, candles, n).trades)
    ensures var u := FlatBar(env, After(env, candles, n), candles[..n + 1], candles[n]);
            AllAccountedFor(env, candles, u.trades) && OpenIsKnown(env, candles, n + 1, u.open)
  {
    hide After, OpenFrom, OpenedBy, MarkedEquity, AccountedFor;
    var s, c := After(env, candles, n), candles[n];
    var u := FlatBar(env, s, candles[..n + 1], c);
    if u.open.Some? {
      var signal := env.strategy(candles[..n + 1], env.asset, c.ts);
      var o := env.gate(signal.value, env.account.(equity := s.equity, peakEquity := s.peak)).value;
      OpeningIsOpenedBy(o, c.ts, env.cfg);
      OpensFresh(o, c.ts, env.cfg);
      assert OpenSince(env, candles, n + 1, u.open.value, n, o);
    }
  }

  lemma {:induction false} LoopAccounts(env: Env, candles: seq<Candle>, n: nat)
    requires n <= |candles| && CanTrail(env.cfg)
    ensures AllAccountedFor(env, candles, After(env, candles, n).trades)
    ensures OpenIsKnown(env, candles, n, After(env, candles, n).open)
  {
    hide HoldBar, FlatBar, AllAccountedFor, OpenIsKnown;
    if n == 0 {
      NothingToAccountFor(env, candles);
    } else {
      LoopAccounts(env, candles, n - 1);
      var s := After(env, candles, n - 1);
      if s.open.Some? { HoldAccounts(env, candles, n - 1, s); } else { FlatAccounts(env, candles, n - 1); }
    }
  }

  lemma NothingToAccountFor(env: Env, candles: seq<Candle>)
    requires CanTrail(env.cfg)
    ensures AllAccountedFor(env, candles, []) && OpenIsKnown(env, candles, 0, None)
  {
  }

  /** Every trade a run reports was entered on a bar met flat, by an order the gate
      approved there, and left on a later bar for a reason that bar shows; and its
      fills, net result and R multiple are what order and exit price make them. */
  lemma TradesAreAccountedFor(env: Env, candles: seq<Candle>)
    requires CanTrail(env.cfg)
    ensures AllAccountedFor(env, candles, Backtested(env, candles).trades)
  {
    hide After, CloseTrade, EnteredAt, OpenedBy, Accounts;
    LoopAccounts(env, candles, |candles|);
    var s := After(env, candles, |candles|);
    if s.open.Some? && candles != [] {
      var t, last := s.open.value, candles[|candles| - 1];
      var k, o :| OpenSince(env, candles, |candles|, t, k, o);
      ClosingAccounts(t, o, Exit(last.close, EndOfData), last.ts, env.asset, env.cfg);
      var tr := CloseTrade(t, Exit(last.close, EndOfData), last.ts, env.asset, env.cfg);
      assert LivedFrom(env, candles, tr, k, |candles| - 1, o, last.close);
    }
  }

  /** On every run with non-negative slippage and commission: no trade that was left at
      its order's price gained anything, and none did better than without friction. */
  lemma RunHasNoFreeLunch(env: Env, candles: seq<Candle>, i: nat, k: nat, l: nat, o: Order, p: real)
    requires CanTrail(env.cfg) && i < |Backtested(env, candles).trades|
    requires LivedFrom(env, candles, Backtested(env, candles).trades[i], k, l, o, p)
    requires Frictional(env.cfg, o) && p >= 0.0
    ensures p == o.entryPrice ==> Backtested(env, candles).trades[i].netPnl <= 0.0
    ensures env.cfg.slippage <= 1.0 ==>
              Backtested(env, candles).trades[i].netPnl
              <= Value(if o.side == Long then p - o.entryPrice else o.entryPrice - p, o.positionSize)
  {
    hide Backtested, Accounts, EnteredAt, LeftOn, Value;
    if p == o.entryPrice || env.cfg.slippage <= 1.0 {
      FrictionNeverHelps(Backtested(env, candles).trades[i], o, p, env.cfg);
    }
  }

  /** What each bar decides. Met flat, a trade is opened if and only if there is a signal
      that the gate approves, and by that order. Met with an open trade, it is closed if
      and only if the bar opens beyond its stop, touches stop or target, or the trade
      has reached its age; then one more trade is reported. */
  lemma BarDecidesExactly(env: Env, candles: seq<Candle>, n: nat)
    requires n < |candles| && CanTrail(env.cfg)
    ensures var s, u, c := After(env, candles, n), After(env, candles, n + 1), candles[n];
            var signal := env.strategy(candles[..n + 1], env.asset, c.ts);
            var order := if signal.None? then None
                         else env.gate(signal.value, env.account.(equity := s.equity, peakEquity := s.peak));
      && (s.open.None? ==>
            && (u.open.Some? <==> order.Some?) && u.trades == s.trades
            && (u.open.Some? ==>
                  OpenedBy(u.open.value, order.value, env.cfg) && u.open.value.stop == order.value.stopPrice))
      && (s.open.Some? ==>
            var t := s.open.value;
            && (u.open.None? <==>
                  || OpensBeyond(t.side, t.stop, c) || TouchesStop(t.side, t.stop, c)
                  || TouchesTarget(t.side, t.target, c) || t.barsHeld + 1 >= env.cfg.maxHoldBars)
            && |u.trades| == |s.trades| + if u.open.None? then 1 else 0)
  {
    hide After, CloseTrade, Trail, OpenFrom, OpenedBy, MarkedEquity;
    LoopSteps(env, candles, n);
    var s, c := After(env, candles, n), candles[n];
    if s.open.Some? {
      var held := s.open.value.(barsHeld := s.open.value.barsHeld + 1);
      ExitIsExact(held, c, env.cfg);
    } else {
      var signal := env.strategy(candles[..n + 1], env.asset, c.ts);
      if signal.Some? {
        var order := env.gate(signal.value, env.account.(equity := s.equity, peakEquity := s.peak));
        if order.Some? {
          OpeningIsOpenedBy(order.value, c.ts, env.cfg);
          OpensFresh(order.value, c.ts, env.cfg);
        }
      }
    }
  }

  lemma ExitIsExact(t: OpenTrade, c: Candle, cfg: Config)
    ensures OrTimeStop(CheckExitWithOpen(t, c), t, c, cfg).None? <==>
            && !OpensBeyond(t.side, t.stop, c) && !TouchesStop(t.side, t.stop, c)
            && !TouchesTarget(t.side, t.target, c) && t.barsHeld < cfg.maxHoldBars
  {
  }

  /** A trade still open at the end of the data is reported too, as the last one. */
  lemma LastTradeIsSettled(env: Env, candles: seq<Candle>)
    requires CanTrail(env.cfg)
    ensures var s, trades := After(env, candles, |candles|), Backtested(env, candles).trades;
      && (s.open.None? ==> trades == s.trades)
      && (s.open.Some? ==>
            && |trades| == |s.trades| + 1 && trades[..|s.trades|] == s.trades
            && trades[|s.trades|].entryTime == s.open.value.entryTime && trades[|s.trades|].reason == EndOfData)
  {
    hide CloseTrade;
    if candles == [] {
      LoopStarts(env, candles);
    } else if After(env, candles, |candles|).open.Some? {
      var t, last := After(env, candles, |candles|).open.value, candles[|candles| - 1];
      ClosingKeepsTimes(t, Exit(last.close, EndOfData), last.ts, env.asset, env.cfg);
    }
  }
}
