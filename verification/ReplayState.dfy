/** What runs of either replay show between trades: marked equity, the high-water mark, and the trailing stop. */
module ReplayState {
  import opened Common
  import opened RiskEngine
  import opened Backtest
  import opened BacktestProofs
  import opened Portfolio
  import opened PortfolioProofs

  // -------------------------------------------------------------------------
  // Marked equity
  // -------------------------------------------------------------------------

  /** What a trade is worth at a price, before costs of leaving it. */
  ghost predicate Worth(t: OpenTrade, mark: real, gain: real) {
    && (t.side == Long ==> gain == Value(mark - t.entryFill, t.size))
    && (t.side == Short ==> gain == Value(t.entryFill - mark, t.size))
  }

  /** After every bar the curve's last point is the settled equity plus what the open
      trade, if any, is worth at that bar's close. */
  lemma CurveIsMarked(env: Env, candles: seq<Candle>, n: nat)
    requires 0 < n <= |candles| && CanTrail(env.cfg)
    ensures var s := After(env, candles, n);
      && |s.curve| == n + 1 && s.curve[..n] == After(env, candles, n - 1).curve
      && (s.open.None? ==> s.curve[n] == s.equity)
      && (s.open.Some? ==> Worth(s.open.value, candles[n - 1].close, s.curve[n] - s.equity))
  {
    hide Bar;
    CurveLength(env, candles, n - 1);
    BarMarks(env, After(env, candles, n - 1), candles[..n]);
  }

  lemma BarMarks(env: Env, s: Loop, upTo: seq<Candle>)
    requires upTo != [] && CanTrail(env.cfg)
    ensures var u, close := Bar(env, s, upTo), upTo[|upTo| - 1].close;
      && |u.curve| == |s.curve| + 1 && u.curve[..|s.curve|] == s.curve
      && (u.open.None? ==> u.curve[|s.curve|] == u.equity)
      && (u.open.Some? ==> Worth(u.open.value, close, u.curve[|s.curve|] - u.equity))
  {
    hide CloseTrade, Trail, OrTimeStop, CheckExitWithOpen, OpenFrom, MarkedEquity, Worth;
    var u, close := Bar(env, s, upTo), upTo[|upTo| - 1].close;
    MarkIsWorth(u, close);
    MarkIgnoresCurve(u, s.curve, close);
  }

  lemma MarkIsWorth(s: Loop, close: real)
    ensures s.open.None? ==> MarkedEquity(s, close) == s.equity
    ensures s.open.Some? ==> Worth(s.open.value, close, MarkedEquity(s, close) - s.equity)
  {
    hide Value;
    if s.open.Some? { ValueMirrors(close, s.open.value.entryFill, s.open.value.size); }
  }

  lemma ValueMirrors(x: real, y: real, size: real)
    ensures Value(x - y, size) == -Value(y - x, size)
  {
  }

  /** What each of the open trades is worth, at its asset's last close. */
  ghost predicate AllWorth(hs: seq<Holding>, lastClose: map<string, real>, gains: seq<real>) {
    |gains| == |hs| && forall i :: 0 <= i < |hs| ==>
      hs[i].asset in lastClose && Worth(hs[i].trade, lastClose[hs[i].asset], gains[i])
  }

  lemma {:induction false} OpenGainsAreWorth(hs: seq<Holding>, lastClose: map<string, real>, gains: seq<real>)
    requires AllWorth(hs, lastClose, gains)
    ensures OpenGains(hs, lastClose) == Sum(gains)
  {
    hide Value;
    if hs != [] {
      var n := |hs| - 1;
      OpenGainsAreWorth(hs[..n], lastClose, gains[..n]);
      SumSnoc(gains[..n], gains[n]);
      assert gains == gains[..n] + [gains[n]];
    }
  }

  /** After every event the curve's last point is the settled equity plus what all open trades are worth. */
  lemma PortfolioCurveIsMarked(env: PEnv, line: seq<Event>, n: nat, gains: seq<real>)
    requires 0 < n <= |line| && CanTrail(env.cfg) && forall i :: 0 <= i < |line| ==> InFrames(env.frames, line[i])
    requires AllWorth(AfterEvents(env, line, n).holdings, AfterEvents(env, line, n).lastClose, gains)
    ensures var s := AfterEvents(env, line, n);
            s.curve != [] && s.curve[|s.curve| - 1] == s.settled + Sum(gains)
    ensures var e := line[n - 1];
            && e.asset in AfterEvents(env, line, n).lastClose
            && AfterEvents(env, line, n).lastClose[e.asset] == CandlesOf(env.frames, e.asset)[e.index].close
  {
    hide HoldEvent, FlatEvent, OpenGains, AllWorth;
    var s, e := AfterEvents(env, line, n), line[n - 1];
    assert InFrames(env.frames, e);
    OpenGainsAreWorth(s.holdings, s.lastClose, gains);
    EventMarks(env, AfterEvents(env, line, n - 1), e.asset, CandlesOf(env.frames, e.asset)[..e.index + 1]);
  }

  lemma EventMarks(env: PEnv, s: PLoop, asset: string, upTo: seq<Candle>)
    requires upTo != [] && CanTrail(env.cfg)
    ensures var u := OnEvent(env, s, asset, upTo);
      && |u.curve| == |s.curve| + 1 && u.curve[|s.curve|] == u.settled + OpenGains(u.holdings, u.lastClose)
      && u.lastClose == s.lastClose[asset := upTo[|upTo| - 1].close]
  {
    hide CloseTrade, Trail, OrTimeStop, CheckExit, OpenFrom, Correlations, Positions, IndexOf, OpenGains;
  }

  // -------------------------------------------------------------------------
  // High-water mark
  // -------------------------------------------------------------------------

  /** The largest of the starting peak and the equity after each closed trade. */
  ghost predicate HighWater(peak: real, start: real, startPeak: real, trades: seq<Trade>) {
    && peak >= startPeak
    && (forall k :: 0 < k <= |trades| ==> peak >= start + NetPnl(trades[..k]))
    && (peak == startPeak || exists k :: 0 < k <= |trades| && peak == start + NetPnl(trades[..k]))
  }

  lemma HighWaterRises(peak: real, start: real, startPeak: real, trades: seq<Trade>, tr: Trade)
    requires HighWater(peak, start, startPeak, trades)
    ensures HighWater(Max(peak, start + NetPnl(trades + [tr])), start, startPeak, trades + [tr])
  {
    hide NetPnl;
    var after := trades + [tr];
    assert forall k :: 0 <= k <= |trades| ==> after[..k] == trades[..k];
    assert after[..|after|] == after;
  }

  lemma NoTradesNoRise(peak: real, start: real)
    ensures HighWater(peak, start, peak, [])
  {
  }

  lemma BarPeaks(env: Env, s: Loop, upTo: seq<Candle>)
    requires upTo != [] && CanTrail(env.cfg)
    ensures var u := Bar(env, s, upTo);
      || (u.trades == s.trades && u.peak == s.peak)
      || (|u.trades| == |s.trades| + 1 && u.trades == s.trades + [u.trades[|s.trades|]]
          && u.peak == Max(s.peak, u.equity))
  {
    hide CloseTrade, Trail, OrTimeStop, CheckExitWithOpen, MarkedEquity, OpenFrom;
  }

  /** In every state of a run the peak handed to the gate is that high-water mark. */
  lemma {:induction false} PeakIsHighWater(env: Env, candles: seq<Candle>, n: nat)
    requires n <= |candles| && CanTrail(env.cfg)
    ensures var s := After(env, candles, n);
            HighWater(s.peak, env.account.equity, env.account.peakEquity, s.trades)
  {
    hide Bar, HighWater, NetPnl;
    if n == 0 {
      NoTradesNoRise(env.account.peakEquity, env.account.equity);
    } else {
      PeakIsHighWater(env, candles, n - 1);
      LoopConserves(env, candles, n);
      var s, u := After(env, candles, n - 1), After(env, candles, n);
      BarPeaks(env, s, candles[..n]);
      if u.trades != s.trades {
        HighWaterRises(s.peak, env.account.equity, env.account.peakEquity, s.trades, u.trades[|s.trades|]);
      }
    }
  }

  /** And so it is in the portfolio replay. */
  lemma {:induction false} PortfolioPeakIsHighWater(env: PEnv, line: seq<Event>, n: nat)
    requires n <= |line| && CanTrail(env.cfg) && forall i :: 0 <= i < |line| ==> InFrames(env.frames, line[i])
    ensures var s := AfterEvents(env, line, n);
            HighWater(s.peak, env.account.equity, env.account.peakEquity, s.trades)
  {
    hide OnEvent, HighWater, NetPnl, OpenGains;
    if n == 0 {
      NoTradesNoRise(env.account.peakEquity, env.account.equity);
    } else {
      PortfolioPeakIsHighWater(env, line, n - 1);
      LoopInvariant(env, line, n - 1);
      LoopInvariant(env, line, n);
      var s, u, e := AfterEvents(env, line, n - 1), AfterEvents(env, line, n), line[n - 1];
      assert InFrames(env.frames, e);
      EventPeaks(env, s, e.asset, CandlesOf(env.frames, e.asset)[..e.index + 1]);
      if u.trades != s.trades {
        HighWaterRises(s.peak, env.account.equity, env.account.peakEquity, s.trades, u.trades[|s.trades|]);
      }
    }
  }

  lemma EventPeaks(env: PEnv, s: PLoop, asset: string, upTo: seq<Candle>)
    requires upTo != [] && CanTrail(env.cfg)
    ensures var u := OnEvent(env, s, asset, upTo);
      || (u.trades == s.trades && u.peak == s.peak)
      || (|u.trades| == |s.trades| + 1 && u.trades == s.trades + [u.trades[|s.trades|]]
          && u.peak == Max(s.peak, u.settled))
  {
    hide CloseTrade, Trail, OrTimeStop, CheckExit, OpenFrom, Correlations, Positions, IndexOf, OpenGains;
  }

  // -------------------------------------------------------------------------
  // The trailing stop
  // -------------------------------------------------------------------------

  /** The span a bar covers together with the close before it. */
  function Span(prev: Candle, cur: Candle): real { Max(cur.high, prev.close) - Min(cur.low, prev.close) }

  /** Spans of the bars from lo to hi - 1, added up in order. */
  function Spans(cs: seq<Candle>, lo: nat, hi: nat): real
    requires 0 < lo <= hi <= |cs|
  {
    if lo == hi then 0.0 else Spans(cs, lo, hi - 1) + Span(cs[hi - 2], cs[hi - 1])
  }

  ghost predicate Upright(cs: seq<Candle>) { forall i :: 0 <= i < |cs| ==> cs[i].low <= cs[i].high }

  lemma {:induction false} SpansSplit(cs: seq<Candle>, lo: nat, hi: nat)
    requires 0 < lo < hi <= |cs|
    ensures Spans(cs, lo, hi) == Span(cs[lo - 1], cs[lo]) + Spans(cs, lo + 1, hi)
  {
    hide Span;
    if lo + 1 < hi { SpansSplit(cs, lo, hi - 1); }
  }

  lemma {:induction false} RangesAreSpans(cs: seq<Candle>, n: nat)
    requires Upright(cs) && n < |cs|
    ensures TrueRanges(cs, n) == Spans(cs, |cs| - n, |cs|)
  {
    if n > 0 {
      RangesAreSpans(cs, n - 1);
      SpansSplit(cs, |cs| - n, |cs|);
      assert cs[|cs| - n].low <= cs[|cs| - n].high;
    }
  }

  /** While a trade stays open its stop trails the bar's far end by the multiple of the
      mean span of the last `period` bars, once there are that many and one more,
      and never gives way. */
  lemma StopTrailsMeanSpan(env: Env, candles: seq<Candle>, n: nat, mean: real)
    requires n < |candles| && CanTrail(env.cfg) && Upright(candles)
    requires After(env, candles, n).open.Some? && After(env, candles, n + 1).open.Some?
    requires var period := env.cfg.trailAtrPeriod;
             period <= n && period > 0 ==> Value(mean, period as real) == Spans(candles, n + 1 - period, n + 1)
    ensures var cfg, stop := env.cfg, After(env, candles, n).open.value.stop;
            var trailed, c := After(env, candles, n + 1).open.value, candles[n];
            trailed.stop ==
              if cfg.trailAtrMult.None? || n < cfg.trailAtrPeriod then stop
              else if trailed.side == Long then Max(stop, c.high - Value(cfg.trailAtrMult.value, mean))
              else Min(stop, c.low + Value(cfg.trailAtrMult.value, mean))
  {
    hide CloseTrade, OrTimeStop, CheckExitWithOpen, MarkedEquity, Value, TrueRanges, Spans;
    var cfg, upTo := env.cfg, candles[..n + 1];
    if cfg.trailAtrMult.Some? && cfg.trailAtrPeriod <= n {
      RangesAreSpans(upTo, cfg.trailAtrPeriod);
      SpansOfPrefix(candles, n + 1, n + 1 - cfg.trailAtrPeriod, n + 1);
      MeanIs(mean, cfg.trailAtrPeriod as real, TrueRanges(upTo, cfg.trailAtrPeriod));
    }
  }

  lemma {:induction false} SpansOfPrefix(cs: seq<Candle>, n: nat, lo: nat, hi: nat)
    requires 0 < lo <= hi <= n <= |cs|
    ensures Spans(cs[..n], lo, hi) == Spans(cs, lo, hi)
  {
    if lo < hi { SpansOfPrefix(cs, n, lo, hi - 1); }
  }

  lemma MeanIs(mean: real, d: real, total: real)
    requires d > 0.0 && Value(mean, d) == total
    ensures total / d == mean
  {
  }
}
