/** The two replay engines on a single asset: when they agree, and exactly when they do not. */
module SimulatorsAgree {
  import opened Common
  import opened Backtest
  import BacktestProofs
  import opened Portfolio
  import opened PortfolioProofs

  /** The portfolio replay of one asset under the same strategy, gate, account and configuration. */
  function Single(env: Env, candles: seq<Candle>, correlation: Correlation): PEnv {
    PEnv([Frame(env.asset, candles)], env.strategy, env.gate, correlation, env.account, env.cfg, false)
  }

  ghost predicate TimeOrdered(candles: seq<Candle>) {
    forall i, j :: 0 <= i < j < |candles| ==> candles[i].ts <= candles[j].ts
  }

  /** The account starts with no positions and no correlations. */
  predicate Clean(env: Env) { env.account.openPositions == [] && env.account.correlations == map[] }

  /** The bar after the first n ones opens through the stop of a trade that is open then. */
  ghost predicate LiveGap(env: Env, candles: seq<Candle>, n: nat)
    requires n < |candles| && CanTrail(env.cfg)
  {
    var s := After(env, candles, n);
    s.open.Some? && GapsThroughStop(s.open.value, candles[n])
  }

  ghost predicate NoLiveGap(env: Env, candles: seq<Candle>, n: nat)
    requires n <= |candles| && CanTrail(env.cfg)
  {
    forall i :: 0 <= i < n ==> !LiveGap(env, candles, i)
  }

  /** One asset's bars in time order are their own timeline. */
  lemma SingleTimeline(env: Env, candles: seq<Candle>, correlation: Correlation)
    requires TimeOrdered(candles)
    ensures var t := Timeline(Single(env, candles, correlation).frames);
            |t| == |candles| && forall i :: 0 <= i < |t| ==> t[i] == Event(candles[i].ts, env.asset, i)
  {
    var f := Frame(env.asset, candles);
    var events := EventsOf(f, |candles|);
    EventsAreBars(f, |candles|);
    assert AllEvents([f]) == events by { assert AllEvents([f][1..]) == []; }
    TextLessIsStrict(env.asset, env.asset);
    forall i, j | 0 <= i < j < |events| ensures !Earlier(events[j], events[i]) {}
    StableSortFixpoint(events, Earlier);
  }

  ghost predicate SameTrade(asset: string, open: Option<OpenTrade>, hs: seq<Holding>) {
    if open.None? then hs == [] else |hs| == 1 && hs[0].asset == asset && hs[0].trade == open.value
  }

  ghost predicate SameState(asset: string, s: Loop, p: PLoop) {
    && p.settled == s.equity && p.peak == s.peak && p.curve == s.curve && p.trades == s.trades
    && SameTrade(asset, s.open, p.holdings)
  }

  lemma MarksAgree(h: Holding, mark: real)
    ensures MarkGain(h, mark) == Unrealized(h.trade, mark)
  {
    var a, b, size := h.trade.entryFill - mark, mark - h.trade.entryFill, h.trade.size;
    assert a * size == -(b * size);
  }

  lemma OneGain(h: Holding, lastClose: map<string, real>)
    requires h.asset in lastClose
    ensures OpenGains([h], lastClose) == Unrealized(h.trade, lastClose[h.asset])
  {
    assert [h][..0] == [];
    MarksAgree(h, lastClose[h.asset]);
  }

  /** The curve points agree once the open trade does. */
  lemma PointsAgree(asset: string, s: Loop, p: PLoop, close: real)
    requires SameState(asset, s, p) && asset in p.lastClose && p.lastClose[asset] == close
    ensures SameState(asset, Marked(s, close), WithCurvePoint(p))
  {
    hide Unrealized, MarkGain;
    if s.open.Some? {
      OneGain(p.holdings[0], p.lastClose);
      assert p.holdings == [p.holdings[0]];
    }
  }

  lemma HoldAgrees(env: Env, penv: PEnv, s: Loop, p: PLoop, upTo: seq<Candle>)
    requires upTo != [] && CanTrail(env.cfg) && penv.cfg == env.cfg
    requires SameState(env.asset, s, p) && s.open.Some? && !GapsThroughStop(s.open.value, upTo[|upTo| - 1])
    ensures SameState(env.asset, Bar(env, s, upTo), OnEvent(penv, p, env.asset, upTo))
  {
    hide CloseTrade, Trail, OrTimeStop, CheckExit, OpenGains, MarkedEquity, SameState;
    var c := upTo[|upTo| - 1];
    var held := s.open.value.(barsHeld := s.open.value.barsHeld + 1);
    assert CheckExitWithOpen(held, c) == CheckExit(held, c);
    var exit := OrTimeStop(CheckExit(held, c), held, c, env.cfg);
    var q := p.(lastClose := p.lastClose[env.asset := c.close]);
    assert IndexOf(q.holdings, env.asset) == 0 && q.holdings == [q.holdings[0]] && q.holdings[0].trade == s.open.value
      && p.settled == s.equity && p.peak == s.peak && p.curve == s.curve && p.trades == s.trades by {
      Unpack(env.asset, s, p);
    }
    if exit.Some? {
      assert q.holdings[..0] + q.holdings[1..] == [];
      assert OpenGains([], q.lastClose) == 0.0 by { NoGain(q.lastClose); }
      Pack(env.asset, Bar(env, s, upTo), OnEvent(penv, p, env.asset, upTo));
    } else {
      var t := s.(open := Some(Trail(held, upTo, c, env.cfg)));
      var r := HoldEvent(penv, q, 0, upTo, c);
      Pack(env.asset, t, r);
      PointsAgree(env.asset, t, r, c.close);
    }
  }

  lemma NoGain(lastClose: map<string, real>)
    ensures OpenGains([], lastClose) == 0.0
  {
  }

  lemma Unpack(asset: string, s: Loop, p: PLoop)
    requires SameState(asset, s, p)
    ensures p.settled == s.equity && p.peak == s.peak && p.curve == s.curve && p.trades == s.trades
    ensures s.open.None? ==> p.holdings == []
    ensures s.open.Some? ==>
              IndexOf(p.holdings, asset) == 0 && p.holdings == [p.holdings[0]] && p.holdings[0].trade == s.open.value
  {
  }

  lemma Pack(asset: string, s: Loop, p: PLoop)
    requires p.settled == s.equity && p.peak == s.peak && p.curve == s.curve && p.trades == s.trades
    requires SameTrade(asset, s.open, p.holdings)
    ensures SameState(asset, s, p)
  {
  }

  lemma FlatAgrees(env: Env, penv: PEnv, s: Loop, p: PLoop, upTo: seq<Candle>)
    requires upTo != [] && CanTrail(env.cfg) && penv.cfg == env.cfg && penv.strategy == env.strategy
    requires penv.gate == env.gate && penv.account == env.account && Clean(env)
    requires SameState(env.asset, s, p) && s.open.None?
    ensures SameState(env.asset, Bar(env, s, upTo), OnEvent(penv, p, env.asset, upTo))
  {
    hide OpenFrom, OpenGains, MarkedEquity, SameState;
    var c := upTo[|upTo| - 1];
    Unpack(env.asset, s, p);
    var q := p.(lastClose := p.lastClose[env.asset := c.close]);
    var signal := env.strategy(upTo, env.asset, c.ts);
    var snapshot := env.account.(equity := s.equity, peakEquity := s.peak);
    assert snapshot == penv.account.(equity := q.settled, peakEquity := q.peak, openPositions := Positions(q.holdings),
                                     correlations := Correlations(penv, q.holdings, env.asset, c.ts));
    var order := if signal.None? then None else env.gate(signal.value, snapshot);
    var t := if order.None? then s else s.(open := Some(OpenFrom(order.value, c.ts, env.cfg)));
    var r := FlatEvent(penv, q, env.asset, upTo, c);
    Pack(env.asset, t, r);
    PointsAgree(env.asset, t, r, c.close);
  }

  /** While no bar opens through a live stop, the two loops go through the same states. */
  lemma {:induction false} LoopsAgree(env: Env, candles: seq<Candle>, correlation: Correlation, n: nat)
    requires n <= |candles| && CanTrail(env.cfg) && Clean(env) && TimeOrdered(candles) && NoLiveGap(env, candles, n)
    ensures AllInFrames(env, candles, correlation)
    ensures var penv := Single(env, candles, correlation);
            SameState(env.asset, After(env, candles, n), AfterEvents(penv, Timeline(penv.frames), n))
  {
    hide Bar, OnEvent, SameState, Timeline;
    var penv := Single(env, candles, correlation);
    SingleTimeline(env, candles, correlation);
    TimelineIsSound(penv.frames);
    if n == 0 {
      assert OpenGains([], map[]) == 0.0 by { NoGain(map[]); }
      Pack(env.asset, Start(env), Begin(penv));
    } else {
      LoopsAgree(env, candles, correlation, n - 1);
      var s, p, upTo := After(env, candles, n - 1), AfterEvents(penv, Timeline(penv.frames), n - 1), candles[..n];
      assert !LiveGap(env, candles, n - 1);
      if s.open.Some? { HoldAgrees(env, penv, s, p, upTo); } else { FlatAgrees(env, penv, s, p, upTo); }
    }
  }

  ghost predicate AllInFrames(env: Env, candles: seq<Candle>, correlation: Correlation) {
    var penv := Single(env, candles, correlation);
    && |Timeline(penv.frames)| == |candles|
    && forall i :: 0 <= i < |Timeline(penv.frames)| ==> InFrames(penv.frames, Timeline(penv.frames)[i])
  }

  /** Two simulators agree: without a live gap, both replays of an asset report
      the same trades, the same curve and the same final equity, for every
      strategy and every risk gate. */
  lemma WithoutGapsTheyAgree(env: Env, candles: seq<Candle>, correlation: Correlation)
    requires CanTrail(env.cfg) && Clean(env) && TimeOrdered(candles) && NoLiveGap(env, candles, |candles|)
    ensures Simulated(Single(env, candles, correlation)) == Backtested(env, candles)
  {
    hide After, AfterEvents, Timeline, SameState, CloseTrade;
    var penv := Single(env, candles, correlation);
    LoopsAgree(env, candles, correlation, |candles|);
    var s, p := After(env, candles, |candles|), AfterEvents(penv, Timeline(penv.frames), |candles|);
    Unpack(env.asset, s, p);
    BacktestProofs.LoopConserves(env, candles, |candles|);
    FinalsAgree(env, penv, candles, s, p);
  }

  lemma FinalsAgree(env: Env, penv: PEnv, candles: seq<Candle>, s: Loop, p: PLoop)
    requires penv.frames == [Frame(env.asset, candles)] && penv.cfg == env.cfg && !penv.forceClose
    requires SameState(env.asset, s, p) && BacktestProofs.Conserved(env, s, |candles|)
    requires candles == [] ==> s.open.None?
    ensures (forall h :: h in p.holdings ==> CandlesOf(penv.frames, h.asset) != [])
            && Final(penv, p) == Settle(env, candles, s)
  {
    hide CloseTrade;
    if s.open.Some? {
      var h := p.holdings[0];
      assert p.holdings == [h] && p.holdings[1..] == [];
      assert CandlesOf(penv.frames, h.asset) == candles;
      var last := candles[|candles| - 1];
      var trade := CloseTrade(h.trade, Exit(last.close, EndOfData), last.ts, h.asset, penv.cfg);
      var settled := p.(settled := p.settled + trade.netPnl, trades := p.trades + [trade], holdings := []);
      assert SettleAll(penv, settled) == settled;
      assert SettleAll(penv, p) == settled;
    } else {
      assert s.curve[|s.curve| - 1 := s.equity] == s.curve;
    }
  }

  // -------------------------------------------------------------------------
  // With a live gap they disagree
  // -------------------------------------------------------------------------

  /** Bars whose open lies within their range. */
  ghost predicate Coherent(candles: seq<Candle>) {
    forall i :: 0 <= i < |candles| ==> candles[i].low <= candles[i].open <= candles[i].high
  }

  lemma {:induction false} FirstGap(env: Env, candles: seq<Candle>, n: nat) returns (i: nat)
    requires n <= |candles| && CanTrail(env.cfg) && !NoLiveGap(env, candles, n)
    ensures i < n && NoLiveGap(env, candles, i) && LiveGap(env, candles, i)
  {
    hide LiveGap;
    if NoLiveGap(env, candles, n - 1) { i := n - 1; } else { i := FirstGap(env, candles, n - 1); }
  }

  lemma DifferentFills(a: real, b: real, factor: real)
    requires a != b && factor > 0.0
    ensures Value(a, factor) != Value(b, factor)
  {
    assert (a - b) * factor == a * factor - b * factor;
    assert a > b ==> (a - b) * factor > 0.0;
    assert a < b ==> (b - a) * factor > 0.0;
    assert (b - a) * factor == b * factor - a * factor;
  }

  /** On the bar of a live gap both replays close the trade, one at the open and the other at the stop. */
  lemma GapClosesDifferently(env: Env, penv: PEnv, s: Loop, p: PLoop, upTo: seq<Candle>)
    requires upTo != [] && CanTrail(env.cfg) && penv.cfg == env.cfg && SameState(env.asset, s, p)
    requires s.open.Some? && GapsThroughStop(s.open.value, upTo[|upTo| - 1])
    requires upTo[|upTo| - 1].low <= upTo[|upTo| - 1].open <= upTo[|upTo| - 1].high
    requires -1.0 < env.cfg.slippage < 1.0
    ensures var a, b := Bar(env, s, upTo).trades, OnEvent(penv, p, env.asset, upTo).trades;
            |a| == |b| == |s.trades| + 1 && a[|s.trades|] != b[|s.trades|]
  {
    hide OpenGains, Commission, Gain, Value, SameState;
    var c := upTo[|upTo| - 1];
    Unpack(env.asset, s, p);
    var held := s.open.value.(barsHeld := s.open.value.barsHeld + 1);
    assert CheckExit(held, c) == Some(Exit(held.stop, Stop));
    assert CheckExitWithOpen(held, c) == Some(Exit(c.open, Stop));
    DifferentFills(c.open, held.stop, 1.0 + env.cfg.slippage);
    DifferentFills(c.open, held.stop, 1.0 - env.cfg.slippage);
  }

  lemma EventKeepsTrades(env: PEnv, s: PLoop, asset: string, upTo: seq<Candle>)
    requires upTo != [] && CanTrail(env.cfg)
    ensures BacktestProofs.Extends(OnEvent(env, s, asset, upTo).trades, s.trades)
  {
    hide CloseTrade, Trail, OrTimeStop, CheckExit, OpenFrom, OpenGains, Correlations, Positions;
  }

  lemma {:induction false} PortfolioTradesOnlyGrow(env: PEnv, timeline: seq<Event>, n: nat, m: nat)
    requires m <= n <= |timeline| && CanTrail(env.cfg)
    requires forall i :: 0 <= i < |timeline| ==> InFrames(env.frames, timeline[i])
    ensures BacktestProofs.Extends(AfterEvents(env, timeline, n).trades, AfterEvents(env, timeline, m).trades)
  {
    hide OnEvent;
    if m < n {
      PortfolioTradesOnlyGrow(env, timeline, n - 1, m);
      var e := timeline[n - 1];
      EventKeepsTrades(env, AfterEvents(env, timeline, n - 1), e.asset, CandlesOf(env.frames, e.asset)[..e.index + 1]);
    }
  }

  /** Both reports start with the trades closed by then. */
  lemma ReportsExtend(env: Env, candles: seq<Candle>, correlation: Correlation, n: nat)
    requires CanTrail(env.cfg) && TimeOrdered(candles) && n <= |candles|
    ensures AllInFrames(env, candles, correlation)
    ensures BacktestProofs.Extends(Backtested(env, candles).trades, After(env, candles, n).trades)
    ensures var penv := Single(env, candles, correlation);
            BacktestProofs.Extends(Simulated(penv).trades, AfterEvents(penv, Timeline(penv.frames), n).trades)
  {
    hide After, AfterEvents, Timeline, CloseTrade, SettleAll, Shape;
    var penv := Single(env, candles, correlation);
    SingleTimeline(env, candles, correlation);
    var line := Timeline(penv.frames);
    TimelineIsSound(penv.frames);
    BacktestProofs.TradesOnlyGrow(env, candles, |candles|, n);
    PortfolioTradesOnlyGrow(penv, line, |line|, n);
    LoopInvariant(penv, line, |line|);
    SettlementKeeps(penv, line);
  }

  lemma SettlementKeeps(penv: PEnv, line: seq<Event>)
    requires CanTrail(penv.cfg) && forall i :: 0 <= i < |line| ==> InFrames(penv.frames, line[i])
    ensures var s := AfterEvents(penv, line, |line|);
            && (forall h :: h in s.holdings ==> CandlesOf(penv.frames, h.asset) != [])
            && BacktestProofs.Extends(SettleAll(penv, s).trades, s.trades)
  {
    hide AfterEvents, SettleAll, CandlesOf;
    LoopInvariant(penv, line, |line|);
    SettlementBalances(penv, AfterEvents(penv, line, |line|));
  }

  lemma DifferentStarts(a: seq<Trade>, b: seq<Trade>, x: seq<Trade>, y: seq<Trade>, k: nat)
    requires BacktestProofs.Extends(a, x) && BacktestProofs.Extends(b, y)
    requires |x| == |y| == k + 1 && x[k] != y[k]
    ensures a != b
  {
    assert a[..k + 1][k] == a[k] && b[..k + 1][k] == b[k];
  }

  lemma GapSplitsRuns(env: Env, candles: seq<Candle>, correlation: Correlation, i: nat)
    requires CanTrail(env.cfg) && Clean(env) && TimeOrdered(candles) && Coherent(candles)
             && -1.0 < env.cfg.slippage < 1.0
    requires i < |candles| && NoLiveGap(env, candles, i) && LiveGap(env, candles, i)
    ensures Simulated(Single(env, candles, correlation)).trades != Backtested(env, candles).trades
  {
    hide After, AfterEvents, Timeline, SameState, CloseTrade, Bar, OnEvent, GapsThroughStop, Simulated, Backtested,
         BacktestProofs.Extends;
    var penv := Single(env, candles, correlation);
    LoopsAgree(env, candles, correlation, i);
    SingleTimeline(env, candles, correlation);
    var line := Timeline(penv.frames);
    var s, p := After(env, candles, i), AfterEvents(penv, line, i);
    OneMore(env, penv, candles, line, i);
    GapClosesDifferently(env, penv, s, p, candles[..i + 1]);
    ReportsExtend(env, candles, correlation, i + 1);
    DifferentStarts(Backtested(env, candles).trades, Simulated(penv).trades, After(env, candles, i + 1).trades,
                    AfterEvents(penv, line, i + 1).trades, |s.trades|);
  }

  lemma OneMore(env: Env, penv: PEnv, candles: seq<Candle>, line: seq<Event>, i: nat)
    requires i < |candles| && CanTrail(env.cfg) && penv.cfg == env.cfg && penv.frames == [Frame(env.asset, candles)]
    requires |line| == |candles| && line[i] == Event(candles[i].ts, env.asset, i)
    requires forall j :: 0 <= j < |line| ==> InFrames(penv.frames, line[j])
    ensures After(env, candles, i + 1) == Bar(env, After(env, candles, i), candles[..i + 1])
    ensures AfterEvents(penv, line, i + 1) == OnEvent(penv, AfterEvents(penv, line, i), env.asset, candles[..i + 1])
  {
    hide Bar, OnEvent;
  }

  /** The exact condition: on coherent bars and with slippage below 100%, the two
      replays of an asset report the same trades if and only if no bar opens
      through the stop of a trade open at that time. */
  lemma AgreeExactlyWithoutGaps(env: Env, candles: seq<Candle>, correlation: Correlation)
    requires CanTrail(env.cfg) && Clean(env) && TimeOrdered(candles) && Coherent(candles)
             && -1.0 < env.cfg.slippage < 1.0
    ensures Simulated(Single(env, candles, correlation)).trades == Backtested(env, candles).trades
       <==> NoLiveGap(env, candles, |candles|)
  {
    hide Simulated, Backtested, LiveGap;
    if NoLiveGap(env, candles, |candles|) {
      WithoutGapsTheyAgree(env, candles, correlation);
    } else {
      var i := FirstGap(env, candles, |candles|);
      GapSplitsRuns(env, candles, correlation, i);
    }
  }
}
