/** The single-position replay engine. Prices are exact; the strategy and the
    risk gate are arbitrary functions. */
module Backtest {
  import opened Common
  import opened RiskEngine

  datatype Candle = Candle(ts: int, open: real, high: real, low: real, close: real, volume: real)

  datatype Config = Config(
    slippage: real, commission: real, maxHoldBars: int, trailAtrMult: Option<real>, trailAtrPeriod: nat)

  type Strategy = (seq<Candle>, string, int) -> Option<Signal>

  type RiskGate = (Signal, Account) -> Option<Order>

  datatype OpenTrade = OpenTrade(
    entryTime: int, side: Side, entryFill: real, stop: real, initialStop: real, target: real, size: real, barsHeld: int)

  datatype ExitReason = Stop | TargetHit | TimeStop | EndOfData | FoldForceClose

  datatype Trade = Trade(
    asset: string, side: Side, entryTime: int, exitTime: int, entryFill: real, exitFill: real, stop: real,
    target: real, size: real, netPnl: real, rMultiple: real, reason: ExitReason)

  datatype Exit = Exit(price: real, reason: ExitReason)

  // -------------------------------------------------------------------------
  // Fills and exits
  // -------------------------------------------------------------------------

  function WithSlippage(price: real, side: Side, entering: bool, cfg: Config): real {
    if (side == Long) == entering then Value(price, 1.0 + cfg.slippage) else Value(price, 1.0 - cfg.slippage)
  }

  function Commission(fill: real, size: real, cfg: Config): real { Value(Value(fill, size), cfg.commission) }

  /** Touch of stop or target within the bar; if both, the stop. */
  function CheckExit(t: OpenTrade, c: Candle): Option<Exit> {
    var stopHit := if t.side == Long then c.low <= t.stop else c.high >= t.stop;
    var targetHit := if t.side == Long then c.high >= t.target else c.low <= t.target;
    if stopHit then Some(Exit(t.stop, Stop)) else if targetHit then Some(Exit(t.target, TargetHit)) else None
  }

  predicate GapsThroughStop(t: OpenTrade, c: Candle) {
    if t.side == Long then c.open < t.stop else c.open > t.stop
  }

  /** A bar that opens through the stop fills at the open. */
  function CheckExitWithOpen(t: OpenTrade, c: Candle): Option<Exit> {
    if GapsThroughStop(t, c) then Some(Exit(c.open, Stop)) else CheckExit(t, c)
  }

  /** The time stop, when neither level was touched. */
  function OrTimeStop(e: Option<Exit>, t: OpenTrade, c: Candle, cfg: Config): Option<Exit> {
    if e.None? && t.barsHeld >= cfg.maxHoldBars then Some(Exit(c.close, TimeStop)) else e
  }

  function Gain(side: Side, entry: real, exit: real, size: real): real {
    if side == Long then Value(exit - entry, size) else -Value(exit - entry, size)
  }

  function Unrealized(t: OpenTrade, close: real): real { Gain(t.side, t.entryFill, close, t.size) }

  function CloseTrade(t: OpenTrade, e: Exit, time: int, asset: string, cfg: Config): Trade {
    var fill := WithSlippage(e.price, t.side, false, cfg);
    var fees := Commission(t.entryFill, t.size, cfg) + Commission(fill, t.size, cfg);
    var net := Gain(t.side, t.entryFill, fill, t.size) - fees;
    var risked := Value(t.size, Abs(t.entryFill - t.initialStop));
    Trade(asset, t.side, t.entryTime, time, t.entryFill, fill, t.stop, t.target, t.size, net,
          if risked != 0.0 then net / risked else 0.0, e.reason)
  }

  function OpenFrom(o: Order, time: int, cfg: Config): OpenTrade {
    OpenTrade(time, o.side, WithSlippage(o.entryPrice, o.side, true, cfg), o.stopPrice, o.stopPrice, o.targetPrice,
              o.positionSize, 0)
  }

  // -------------------------------------------------------------------------
  // Trailing stop
  // -------------------------------------------------------------------------

  function TrueRange(prev: Candle, cur: Candle): real {
    Max(cur.high - cur.low, Max(Abs(cur.high - prev.close), Abs(cur.low - prev.close)))
  }

  /** Sum of the last n true ranges. */
  function TrueRanges(cs: seq<Candle>, n: nat): real
    requires n < |cs|
  {
    if n == 0 then 0.0
    else TrueRange(cs[|cs| - n - 1], cs[|cs| - n]) + TrueRanges(cs, n - 1)
  }

  function Atr(cs: seq<Candle>, period: nat): Option<real>
    requires period > 0
  {
    if |cs| < period + 1 then None else Some(TrueRanges(cs, period) / period as real)
  }

  /** A trailing stop averages over at least one bar. */
  predicate CanTrail(cfg: Config) { cfg.trailAtrMult.Some? ==> cfg.trailAtrPeriod > 0 }

  function Trail(t: OpenTrade, upTo: seq<Candle>, c: Candle, cfg: Config): OpenTrade
    requires CanTrail(cfg)
  {
    if cfg.trailAtrMult.None? then t
    else
      var range := Atr(upTo, cfg.trailAtrPeriod);
      if range.None? then t
      else
        var distance := Value(cfg.trailAtrMult.value, range.value);
        if t.side == Long then t.(stop := Max(t.stop, c.high - distance)) else t.(stop := Min(t.stop, c.low + distance))
  }

  // -------------------------------------------------------------------------
  // The loop
  // -------------------------------------------------------------------------

  datatype Env = Env(asset: string, strategy: Strategy, gate: RiskGate, account: Account, cfg: Config)

  datatype Loop = Loop(equity: real, peak: real, curve: seq<real>, trades: seq<Trade>, open: Option<OpenTrade>)

  function Start(env: Env): Loop { Loop(env.account.equity, env.account.peakEquity, [env.account.equity], [], None) }

  function MarkedEquity(s: Loop, close: real): real {
    if s.open.Some? then s.equity + Unrealized(s.open.value, close) else s.equity
  }

  function Marked(s: Loop, close: real): Loop { s.(curve := s.curve + [MarkedEquity(s, close)]) }

  /** A bar met with an open trade. */
  function HoldBar(env: Env, s: Loop, t: OpenTrade, upTo: seq<Candle>, c: Candle): Loop
    requires CanTrail(env.cfg)
  {
    var held := t.(barsHeld := t.barsHeld + 1);
    var exit := OrTimeStop(CheckExitWithOpen(held, c), held, c, env.cfg);
    if exit.Some? then
      var trade := CloseTrade(held, exit.value, c.ts, env.asset, env.cfg);
      var equity := s.equity + trade.netPnl;
      Loop(equity, Max(s.peak, equity), s.curve + [equity], s.trades + [trade], None)
    else
      Marked(s.(open := Some(Trail(held, upTo, c, env.cfg))), c.close)
  }

  /** A bar met flat. */
  function FlatBar(env: Env, s: Loop, upTo: seq<Candle>, c: Candle): Loop {
    var signal := env.strategy(upTo, env.asset, c.ts);
    var order := if signal.None? then None
                 else env.gate(signal.value, env.account.(equity := s.equity, peakEquity := s.peak));
    Marked(if order.None? then s else s.(open := Some(OpenFrom(order.value, c.ts, env.cfg))), c.close)
  }

  function Bar(env: Env, s: Loop, upTo: seq<Candle>): Loop
    requires upTo != [] && CanTrail(env.cfg)
  {
    var c := upTo[|upTo| - 1];
    if s.open.Some? then HoldBar(env, s, s.open.value, upTo, c) else FlatBar(env, s, upTo, c)
  }

  /** Loop state after the first n bars. */
  function After(env: Env, candles: seq<Candle>, n: nat): Loop
    requires n <= |candles| && CanTrail(env.cfg)
  {
    if n == 0 then Start(env) else Bar(env, After(env, candles, n - 1), candles[..n])
  }

  datatype Result = Result(finalEquity: real, trades: seq<Trade>, curve: seq<real>)

  /** A position still open at the end of the data is closed at the last close. */
  function Settle(env: Env, candles: seq<Candle>, s: Loop): Result
    requires s.curve != []
  {
    if s.open.None? || candles == [] then Result(s.equity, s.trades, s.curve)
    else
      var last := candles[|candles| - 1];
      var trade := CloseTrade(s.open.value, Exit(last.close, EndOfData), last.ts, env.asset, env.cfg);
      var equity := s.equity + trade.netPnl;
      Result(equity, s.trades + [trade], s.curve[|s.curve| - 1 := equity])
  }

  lemma {:induction false} CurveLength(env: Env, candles: seq<Candle>, n: nat)
    requires n <= |candles| && CanTrail(env.cfg)
    ensures |After(env, candles, n).curve| == n + 1
  {
    hide CloseTrade, Trail, OrTimeStop, MarkedEquity;
    if n > 0 { CurveLength(env, candles, n - 1); }
  }

  function Backtested(env: Env, candles: seq<Candle>): Result
    requires CanTrail(env.cfg)
  {
    CurveLength(env, candles, |candles|);
    Settle(env, candles, After(env, candles, |candles|))
  }

  lemma LoopStarts(env: Env, candles: seq<Candle>)
    requires CanTrail(env.cfg)
    ensures After(env, candles, 0) == Start(env)
  {
  }

  lemma LoopSteps(env: Env, candles: seq<Candle>, i: nat)
    requires CanTrail(env.cfg) && i < |candles|
    ensures After(env, candles, i + 1) == Bar(env, After(env, candles, i), candles[..i + 1])
  {
  }

  /** The replay loop as it runs, against the state after each bar. */
  method RunBacktest(env: Env, candles: seq<Candle>) returns (r: Result)
    requires CanTrail(env.cfg)
    ensures r == Backtested(env, candles)
  {
    hide CloseTrade, CheckExitWithOpen, OrTimeStop, Trail, OpenFrom, MarkedEquity, After;
    LoopStarts(env, candles);
    var cfg := env.cfg;
    var equity, peak := env.account.equity, env.account.peakEquity;
    var curve, trades: seq<Trade> := [equity], [];
    var openTrade: Option<OpenTrade> := None;
    var i := 0;
    while i < |candles|
      invariant 0 <= i <= |candles|
      invariant Loop(equity, peak, curve, trades, openTrade) == After(env, candles, i)
    {
      var c := candles[i];
      ghost var s := After(env, candles, i);
      LoopSteps(env, candles, i);
      if openTrade.Some? {
        var held := openTrade.value.(barsHeld := openTrade.value.barsHeld + 1);
        var exit := OrTimeStop(CheckExitWithOpen(held, c), held, c, cfg);
        if exit.Some? {
          var trade := CloseTrade(held, exit.value, c.ts, env.asset, cfg);
          equity := equity + trade.netPnl;
          peak := Max(peak, equity);
          trades := trades + [trade];
          openTrade := None;
          curve := curve + [equity];
        } else {
          openTrade := Some(Trail(held, candles[..i + 1], c, cfg));
          curve := curve + [MarkedEquity(Loop(equity, peak, curve, trades, openTrade), c.close)];
          MarkIgnoresCurve(Loop(equity, peak, curve, trades, openTrade), s.curve, c.close);
        }
      } else {
        var signal := env.strategy(candles[..i + 1], env.asset, c.ts);
        if signal.Some? {
          var order := env.gate(signal.value, env.account.(equity := equity, peakEquity := peak));
          if order.Some? { openTrade := Some(OpenFrom(order.value, c.ts, cfg)); }
        }
        curve := curve + [MarkedEquity(Loop(equity, peak, curve, trades, openTrade), c.close)];
        MarkIgnoresCurve(Loop(equity, peak, curve, trades, openTrade), s.curve, c.close);
      }
      i := i + 1;
    }
    CurveLength(env, candles, |candles|);
    if openTrade.Some? && candles != [] {
      var last := candles[|candles| - 1];
      var trade := CloseTrade(openTrade.value, Exit(last.close, EndOfData), last.ts, env.asset, cfg);
      equity := equity + trade.netPnl;
      trades := trades + [trade];
      curve := curve[|curve| - 1 := equity];
    }
    r := Result(equity, trades, curve);
  }

  lemma MarkIgnoresCurve(s: Loop, curve: seq<real>, close: real)
    ensures MarkedEquity(s, close) == MarkedEquity(s.(curve := curve), close)
  {
  }
}

/** No look-ahead, conservation of money, and the shape of a run's trades. */
module BacktestProofs {
  import opened Common
  import opened Backtest

  /** No look-ahead: the loop state after n bars is that of a run which only has those bars. */
  lemma {:induction false} NoLookAhead(env: Env, candles: seq<Candle>, n: nat, m: nat)
    requires m <= n <= |candles| && CanTrail(env.cfg)
    ensures After(env, candles, m) == After(env, candles[..n], m)
  {
    hide Bar;
    if m > 0 {
      NoLookAhead(env, candles, n, m - 1);
      assert candles[..n][..m] == candles[..m];
    }
  }

  ghost predicate Extends(t: seq<Trade>, s: seq<Trade>) { |s| <= |t| && t[..|s|] == s }

  lemma {:induction false} TradesOnlyGrow(env: Env, candles: seq<Candle>, n: nat, m: nat)
    requires m <= n <= |candles| && CanTrail(env.cfg)
    ensures Extends(After(env, candles, n).trades, After(env, candles, m).trades)
  {
    hide CloseTrade, Trail, OrTimeStop, MarkedEquity;
    if m < n { TradesOnlyGrow(env, candles, n - 1, m); }
  }

  /** A run on the first n bars reports the trades closed so far and at most one
      more, the end-of-data settlement; the full run starts with the same trades. */
  lemma PrefixRunAgrees(env: Env, candles: seq<Candle>, n: nat)
    requires n <= |candles| && CanTrail(env.cfg)
    ensures var closed := After(env, candles, n).trades;
      && Extends(Backtested(env, candles[..n]).trades, closed)
      && |Backtested(env, candles[..n]).trades| <= |closed| + 1
      && (forall i :: |closed| <= i < |Backtested(env, candles[..n]).trades| ==>
            Backtested(env, candles[..n]).trades[i].reason == EndOfData)
      && Extends(Backtested(env, candles).trades, closed)
  {
    hide After;
    NoLookAhead(env, candles, n, n);
    TradesOnlyGrow(env, candles, |candles|, n);
  }

  function NetPnl(ts: seq<Trade>): real { if ts == [] then 0.0 else NetPnl(ts[..|ts| - 1]) + ts[|ts| - 1].netPnl }

  /** Settled equity is the start plus every trade's net result; a flat loop's curve ends at it. */
  ghost predicate Conserved(env: Env, s: Loop, n: nat) {
    && s.equity == env.account.equity + NetPnl(s.trades)
    && |s.curve| == n + 1
    && (s.open.None? ==> s.curve[n] == s.equity)
  }

  lemma OneMoreTrade(ts: seq<Trade>, t: Trade)
    ensures NetPnl(ts + [t]) == NetPnl(ts) + t.netPnl
  {
    assert (ts + [t])[..|ts|] == ts;
  }

  lemma BarConserves(env: Env, s: Loop, upTo: seq<Candle>, n: nat)
    requires upTo != [] && CanTrail(env.cfg) && Conserved(env, s, n)
    ensures Conserved(env, Bar(env, s, upTo), n + 1)
  {
    hide CloseTrade, Trail, OrTimeStop, CheckExitWithOpen, OpenFrom, Unrealized;
    var t := Bar(env, s, upTo);
    if t.trades != s.trades { OneMoreTrade(s.trades, t.trades[|s.trades|]); }
  }

  lemma {:induction false} LoopConserves(env: Env, candles: seq<Candle>, n: nat)
    requires n <= |candles| && CanTrail(env.cfg)
    ensures Conserved(env, After(env, candles, n), n)
    ensures n == 0 ==> After(env, candles, n).open.None?
  {
    hide Bar;
    if n > 0 {
      LoopConserves(env, candles, n - 1);
      BarConserves(env, After(env, candles, n - 1), candles[..n], n - 1);
    }
  }

  /** Conservation over the whole run: final equity is the start plus the sum of
      net results, and the curve has one point per bar plus the start and ends there. */
  lemma RunConserves(env: Env, candles: seq<Candle>)
    requires CanTrail(env.cfg)
    ensures var r := Backtested(env, candles);
      && r.finalEquity == env.account.equity + NetPnl(r.trades)
      && |r.curve| == |candles| + 1 && r.curve[|candles|] == r.finalEquity
  {
    hide After, CloseTrade;
    var s, r := After(env, candles, |candles|), Backtested(env, candles);
    LoopConserves(env, candles, |candles|);
    if r.trades != s.trades { OneMoreTrade(s.trades, r.trades[|s.trades|]); }
  }

  // -------------------------------------------------------------------------
  // Intervals and stops
  // -------------------------------------------------------------------------

  ghost predicate Ascending(candles: seq<Candle>) {
    forall i, j :: 0 <= i < j < |candles| ==> candles[i].ts < candles[j].ts
  }

  /** Each trade ends no earlier than it begins, and before the next one begins. */
  ghost predicate DisjointIntervals(ts: seq<Trade>) {
    && (forall i :: 0 <= i < |ts| ==> ts[i].entryTime <= ts[i].exitTime)
    && (forall i :: 0 < i < |ts| ==> ts[i - 1].exitTime < ts[i].entryTime)
  }

  /** The stop has only moved towards profit since entry. */
  ghost predicate Ratcheted(t: OpenTrade) {
    if t.side == Long then t.stop >= t.initialStop else t.stop <= t.initialStop
  }

  /** Where the trades of a loop state lie, given the time of the last bar, if any. */
  ghost predicate Placed(s: Loop, last: Option<int>) {
    && DisjointIntervals(s.trades)
    && (s.trades != [] ==> last.Some? && s.trades[|s.trades| - 1].exitTime <= last.value)
    && (s.open.Some? ==> last.Some? && s.open.value.entryTime <= last.value && Ratcheted(s.open.value)
                         && (s.trades != [] ==> s.trades[|s.trades| - 1].exitTime < s.open.value.entryTime))
  }

  lemma BarPlaces(env: Env, s: Loop, upTo: seq<Candle>, last: Option<int>)
    requires upTo != [] && CanTrail(env.cfg) && Placed(s, last)
    requires last.Some? ==> last.value < upTo[|upTo| - 1].ts
    ensures Placed(Bar(env, s, upTo), Some(upTo[|upTo| - 1].ts))
  {
    hide OrTimeStop, CheckExitWithOpen, MarkedEquity, Atr, WithSlippage, Commission, Gain, Value;
  }

  lemma {:induction false} LoopPlaces(env: Env, candles: seq<Candle>, n: nat)
    requires n <= |candles| && CanTrail(env.cfg) && Ascending(candles)
    ensures Placed(After(env, candles, n), if n == 0 then None else Some(candles[n - 1].ts))
  {
    hide Bar;
    if n > 0 {
      LoopPlaces(env, candles, n - 1);
      BarPlaces(env, After(env, candles, n - 1), candles[..n], if n == 1 then None else Some(candles[n - 2].ts));
    }
  }

  /** Trade intervals of a run on ascending timestamps never overlap. */
  lemma TradesAreDisjoint(env: Env, candles: seq<Candle>)
    requires CanTrail(env.cfg) && Ascending(candles)
    ensures DisjointIntervals(Backtested(env, candles).trades)
  {
    hide After;
    LoopPlaces(env, candles, |candles|);
  }

  /** While a trade stays open, nothing about it changes but its age and a stop that moves only towards profit. */
  lemma StopOnlyRatchets(env: Env, candles: seq<Candle>, n: nat)
    requires n < |candles| && CanTrail(env.cfg)
    requires After(env, candles, n).open.Some? && After(env, candles, n + 1).open.Some?
    ensures var t, u := After(env, candles, n).open.value, After(env, candles, n + 1).open.value;
      && u == t.(barsHeld := t.barsHeld + 1, stop := u.stop)
      && (t.side == Long ==> u.stop >= t.stop) && (t.side == Short ==> u.stop <= t.stop)
  {
    hide OrTimeStop, CheckExitWithOpen, MarkedEquity, Atr;
  }
}
