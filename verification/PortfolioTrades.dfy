/** Trades of the portfolio replay, asset by asset: intervals never overlap, and
    stops only move towards profit. */
module PortfolioTrades {
  import opened Common
  import opened Backtest
  import opened BacktestProofs
  import opened Portfolio
  import opened PortfolioProofs
  import TradeAccounts

  function TradesOf(ts: seq<Trade>, asset: string): seq<Trade> {
    if ts == [] then []
    else TradesOf(ts[..|ts| - 1], asset) + if ts[|ts| - 1].asset == asset then [ts[|ts| - 1]] else []
  }

  /** The trade an asset has open, if any. */
  function Held(hs: seq<Holding>, asset: string): Option<OpenTrade> {
    var k := IndexOf(hs, asset);
    if k < |hs| then Some(hs[k].trade) else None
  }

  /** What the replay is to one asset: its trades so far and its open trade. */
  function View(s: PLoop, asset: string): Loop {
    Loop(0.0, 0.0, [], TradesOf(s.trades, asset), Held(s.holdings, asset))
  }

  ghost predicate OnePerAsset(hs: seq<Holding>) {
    forall i, j :: 0 <= i < j < |hs| ==> hs[i].asset != hs[j].asset
  }

  lemma TradesOfSnoc(ts: seq<Trade>, t: Trade, asset: string)
    ensures TradesOf(ts + [t], asset) == TradesOf(ts, asset) + if t.asset == asset then [t] else []
  {
    assert (ts + [t])[..|ts|] == ts;
  }

  lemma HeldAt(hs: seq<Holding>, k: nat)
    requires OnePerAsset(hs) && k < |hs|
    ensures Held(hs, hs[k].asset) == Some(hs[k].trade)
  {
  }

  lemma HeldMeansListed(hs: seq<Holding>, asset: string)
    ensures Held(hs, asset).None? <==> forall i :: 0 <= i < |hs| ==> hs[i].asset != asset
  {
  }

  /** Closing a trade, moving it on, or opening one concerns its own asset only. */
  lemma HeldAfterCut(hs: seq<Holding>, k: nat, asset: string)
    requires OnePerAsset(hs) && k < |hs|
    ensures OnePerAsset(hs[..k] + hs[k + 1..])
    ensures Held(hs[..k] + hs[k + 1..], asset) == if asset == hs[k].asset then None else Held(hs, asset)
  {
    hide IndexOf, Held;
    var cut := hs[..k] + hs[k + 1..];
    assert forall i :: 0 <= i < |cut| ==> cut[i] == hs[if i < k then i else i + 1];
    HeldMeansListed(cut, asset);
    HeldMeansListed(hs, asset);
    if i :| 0 <= i < |hs| && i != k && hs[i].asset == asset {
      HeldAt(hs, i);
      HeldAt(cut, if i < k then i else i - 1);
    }
  }

  lemma HeldAfterMove(hs: seq<Holding>, k: nat, h: Holding, asset: string)
    requires OnePerAsset(hs) && k < |hs| && h.asset == hs[k].asset
    ensures OnePerAsset(hs[k := h])
    ensures Held(hs[k := h], asset) == if asset == h.asset then Some(h.trade) else Held(hs, asset)
  {
    hide IndexOf, Held;
    var moved := hs[k := h];
    assert forall i :: 0 <= i < |hs| ==> moved[i].asset == hs[i].asset;
    HeldMeansListed(moved, asset);
    HeldMeansListed(hs, asset);
    if i :| 0 <= i < |hs| && hs[i].asset == asset {
      HeldAt(moved, i);
      HeldAt(hs, i);
    }
  }

  lemma HeldAfterOpen(hs: seq<Holding>, h: Holding, asset: string)
    requires OnePerAsset(hs) && Held(hs, h.asset).None?
    ensures OnePerAsset(hs + [h])
    ensures Held(hs + [h], asset) == if asset == h.asset then Some(h.trade) else Held(hs, asset)
  {
    hide IndexOf, Held;
    HeldMeansListed(hs, h.asset);
    HeldMeansListed(hs, asset);
    HeldMeansListed(hs + [h], asset);
    if asset == h.asset {
      HeldAt(hs + [h], |hs|);
    } else if i :| 0 <= i < |hs| && hs[i].asset == asset {
      HeldAt(hs + [h], i);
      HeldAt(hs, i);
      assert (hs + [h])[i] == hs[i];
    }
  }

  // -------------------------------------------------------------------------
  // One event
  // -------------------------------------------------------------------------

  /** What an event of its own asset makes of a trade: a stop moved towards profit, one bar older. */
  ghost predicate MovedOn(t: OpenTrade, u: OpenTrade) {
    && u == t.(barsHeld := t.barsHeld + 1, stop := u.stop)
    && (t.side == Long ==> u.stop >= t.stop) && (t.side == Short ==> u.stop <= t.stop)
  }

  /** One asset's view after one of its bars at time ts: the trade moves on or closes, or one may open. */
  ghost predicate OwnBar(v: Loop, w: Loop, ts: int) {
    if v.open.Some? then
      || (w.trades == v.trades && w.open.Some? && MovedOn(v.open.value, w.open.value))
      || (w.open.None? && exists t ::
            w.trades == v.trades + [t] && t.entryTime == v.open.value.entryTime && t.exitTime == ts)
    else
      && w.trades == v.trades
      && (w.open.Some? ==> w.open.value.entryTime == ts && w.open.value.stop == w.open.value.initialStop)
  }

  lemma TrailMovesOn(t: OpenTrade, upTo: seq<Candle>, c: Candle, cfg: Config)
    requires CanTrail(cfg)
    ensures MovedOn(t, Trail(t.(barsHeld := t.barsHeld + 1), upTo, c, cfg))
  {
    hide Atr, Value;
  }

  lemma HoldIsOwnBar(env: PEnv, s: PLoop, k: nat, upTo: seq<Candle>, c: Candle, asset: string)
    requires OnePerAsset(s.holdings) && k < |s.holdings| && CanTrail(env.cfg)
    ensures var t := HoldEvent(env, s, k, upTo, c);
            && OnePerAsset(t.holdings)
            && if asset == s.holdings[k].asset then OwnBar(View(s, asset), View(t, asset), c.ts)
               else View(t, asset) == View(s, asset)
  {
    hide CloseTrade, Trail, OrTimeStop, CheckExit, IndexOf, Held, TradesOf, MovedOn;
    var h := s.holdings[k];
    var held := h.trade.(barsHeld := h.trade.barsHeld + 1);
    var exit := OrTimeStop(CheckExit(held, c), held, c, env.cfg);
    HeldAt(s.holdings, k);
    if exit.Some? {
      var trade := CloseTrade(held, exit.value, c.ts, h.asset, env.cfg);
      TradeAccounts.ClosingKeepsTimes(held, exit.value, c.ts, h.asset, env.cfg);
      TradesOfSnoc(s.trades, trade, asset);
      HeldAfterCut(s.holdings, k, asset);
    } else {
      TrailMovesOn(h.trade, upTo, c, env.cfg);
      HeldAfterMove(s.holdings, k, h.(trade := Trail(held, upTo, c, env.cfg)), asset);
    }
  }

  lemma FlatIsOwnBar(env: PEnv, s: PLoop, own: string, upTo: seq<Candle>, c: Candle, asset: string)
    requires OnePerAsset(s.holdings) && Held(s.holdings, own).None?
    ensures var t := FlatEvent(env, s, own, upTo, c);
            && OnePerAsset(t.holdings)
            && if asset == own then OwnBar(View(s, asset), View(t, asset), c.ts) else View(t, asset) == View(s, asset)
  {
    hide OpenFrom, Correlations, Positions, IndexOf, Held, TradesOf;
    var t := FlatEvent(env, s, own, upTo, c);
    if t != s {
      var h := t.holdings[|s.holdings|];
      OpenKeepsTimes(env, h, own, c);
      HeldAfterOpen(s.holdings, h, asset);
    }
  }

  lemma OpenKeepsTimes(env: PEnv, h: Holding, own: string, c: Candle)
    ensures forall o :: h.trade == OpenFrom(o, c.ts, env.cfg) ==>
              h.trade.entryTime == c.ts && h.trade.stop == h.trade.initialStop
  {
  }

  /** An event is a bar to its own asset and nothing to the others. */
  lemma EventIsOwnBar(env: PEnv, s: PLoop, own: string, upTo: seq<Candle>, asset: string)
    requires OnePerAsset(s.holdings) && upTo != [] && CanTrail(env.cfg)
    ensures var t := OnEvent(env, s, own, upTo);
            && OnePerAsset(t.holdings)
            && if asset == own then OwnBar(View(s, asset), View(t, asset), upTo[|upTo| - 1].ts)
               else View(t, asset) == View(s, asset)
  {
    hide HoldEvent, FlatEvent, OpenGains, OwnBar, TradesOf;
    var c := upTo[|upTo| - 1];
    var t := s.(lastClose := s.lastClose[own := c.close]);
    var k := IndexOf(t.holdings, own);
    if k < |t.holdings| {
      HoldIsOwnBar(env, t, k, upTo, c, asset);
    } else {
      FlatIsOwnBar(env, t, own, upTo, c, asset);
    }
  }

  // -------------------------------------------------------------------------
  // Runs
  // -------------------------------------------------------------------------

  /** Time of an asset's latest event among the first n. */
  function LastOf(line: seq<Event>, n: nat, asset: string): Option<int>
    requires n <= |line|
  {
    if n == 0 then None else if line[n - 1].asset == asset then Some(line[n - 1].ts) else LastOf(line, n - 1, asset)
  }

  /** The events of each asset come at strictly increasing times. */
  ghost predicate StrictPerAsset(line: seq<Event>) {
    forall i, j :: 0 <= i < j < |line| && line[i].asset == line[j].asset ==> line[i].ts < line[j].ts
  }

  lemma {:induction false} LastOfIsListed(line: seq<Event>, n: nat, asset: string)
    requires n <= |line| && LastOf(line, n, asset).Some?
    ensures exists i :: 0 <= i < n && line[i].asset == asset && line[i].ts == LastOf(line, n, asset).value
  {
    if line[n - 1].asset != asset { LastOfIsListed(line, n - 1, asset); }
  }

  lemma OwnBarPlaces(v: Loop, w: Loop, ts: int, last: Option<int>)
    requires Placed(v, last) && OwnBar(v, w, ts) && (last.Some? ==> last.value < ts)
    ensures Placed(w, Some(ts))
  {
  }

  lemma EventBar(frames: seq<Frame>, e: Event)
    requires InFrames(frames, e)
    ensures var upTo := CandlesOf(frames, e.asset)[..e.index + 1]; upTo[|upTo| - 1].ts == e.ts
  {
  }

  lemma {:induction false} RunPlaces(env: PEnv, line: seq<Event>, n: nat, asset: string)
    requires n <= |line| && CanTrail(env.cfg) && StrictPerAsset(line)
    requires forall i :: 0 <= i < |line| ==> InFrames(env.frames, line[i])
    ensures OnePerAsset(AfterEvents(env, line, n).holdings)
    ensures Placed(View(AfterEvents(env, line, n), asset), LastOf(line, n, asset))
  {
    hide OnEvent, OpenGains, OwnBar, Placed, View;
    if n == 0 {
      NothingPlaced(env, asset);
    } else {
      RunPlaces(env, line, n - 1, asset);
      var e := line[n - 1];
      assert InFrames(env.frames, e);
      EventBar(env.frames, e);
      var s := AfterEvents(env, line, n - 1);
      EventIsOwnBar(env, s, e.asset, CandlesOf(env.frames, e.asset)[..e.index + 1], asset);
      if e.asset == asset {
        if LastOf(line, n - 1, asset).Some? { LastOfIsListed(line, n - 1, asset); }
        OwnBarPlaces(View(s, asset), View(AfterEvents(env, line, n), asset), e.ts, LastOf(line, n - 1, asset));
      }
    }
  }

  lemma NothingPlaced(env: PEnv, asset: string)
    ensures Begin(env).holdings == [] && Placed(View(Begin(env), asset), None)
  {
    hide OpenGains;
  }

  /** While an asset's trade stays open, nothing about it changes but, on a bar of
      its own, its age and a stop that moves only towards profit. */
  lemma PortfolioStopOnlyRatchets(env: PEnv, line: seq<Event>, n: nat, asset: string)
    requires n < |line| && CanTrail(env.cfg) && StrictPerAsset(line)
    requires forall i :: 0 <= i < |line| ==> InFrames(env.frames, line[i])
    requires Held(AfterEvents(env, line, n).holdings, asset).Some?
    requires Held(AfterEvents(env, line, n + 1).holdings, asset).Some?
    ensures var t := Held(AfterEvents(env, line, n).holdings, asset).value;
            var u := Held(AfterEvents(env, line, n + 1).holdings, asset).value;
            if line[n].asset == asset then MovedOn(t, u) else u == t
  {
    hide OnEvent, OpenGains, Held, TradesOf, MovedOn;
    RunPlaces(env, line, n, asset);
    var e := line[n];
    assert InFrames(env.frames, e);
    var upTo := CandlesOf(env.frames, e.asset)[..e.index + 1];
    EventIsOwnBar(env, AfterEvents(env, line, n), e.asset, upTo, asset);
  }

  // -------------------------------------------------------------------------
  // Settlement
  // -------------------------------------------------------------------------

  ghost predicate AllAscending(frames: seq<Frame>) {
    forall k :: 0 <= k < |frames| ==> Ascending(frames[k].candles)
  }

  /** The last bar of an asset that has bars. */
  function LastBar(frames: seq<Frame>, asset: string): int
    requires CandlesOf(frames, asset) != []
  {
    var cs := CandlesOf(frames, asset);
    cs[|cs| - 1].ts
  }

  lemma LaterPlaces(v: Loop, last: Option<int>, later: int)
    requires Placed(v, last) && (last.Some? ==> last.value <= later)
    ensures Placed(v, Some(later))
  {
  }

  lemma SettlingOnePlaces(env: PEnv, s: PLoop, asset: string, last: int)
    requires s.holdings != [] && OnePerAsset(s.holdings) && CandlesOf(env.frames, s.holdings[0].asset) != []
    requires Placed(View(s, asset), Some(last))
    requires s.holdings[0].asset == asset ==> LastBar(env.frames, asset) == last
    ensures OnePerAsset(SettleOne(env, s).holdings) && Placed(View(SettleOne(env, s), asset), Some(last))
  {
    hide CloseTrade, CandlesOf, IndexOf, Held, TradesOf;
    var t, h := SettleOne(env, s), s.holdings[0];
    assert s.holdings[..0] + s.holdings[1..] == s.holdings[1..];
    HeldAfterCut(s.holdings, 0, asset);
    HeldAt(s.holdings, 0);
    SettledTrade(env, s);
    TradesOfSnoc(s.trades, t.trades[|s.trades|], asset);
  }

  lemma SettledTrade(env: PEnv, s: PLoop)
    requires s.holdings != [] && CandlesOf(env.frames, s.holdings[0].asset) != []
    ensures var t, h := SettleOne(env, s), s.holdings[0];
            && t.trades == s.trades + [t.trades[|s.trades|]]
            && t.trades[|s.trades|].asset == h.asset && t.trades[|s.trades|].entryTime == h.trade.entryTime
            && t.trades[|s.trades|].exitTime == LastBar(env.frames, h.asset)
  {
    hide CandlesOf, Gain, Commission, WithSlippage;
  }

  lemma {:induction false} SettlementPlaces(env: PEnv, s: PLoop, asset: string, last: int)
    requires OnePerAsset(s.holdings) && forall h :: h in s.holdings ==> CandlesOf(env.frames, h.asset) != []
    requires Placed(View(s, asset), Some(last))
    requires forall h :: h in s.holdings && h.asset == asset ==> LastBar(env.frames, asset) == last
    ensures DisjointIntervals(TradesOf(SettleAll(env, s).trades, asset))
    decreases s.holdings
  {
    hide SettleOne, CandlesOf, LastBar, View;
    if s.holdings == [] {
      ViewTrades(s, asset);
    } else {
      SettlingOnePlaces(env, s, asset, last);
      SettlementPlaces(env, SettleOne(env, s), asset, last);
    }
  }

  lemma ViewTrades(s: PLoop, asset: string)
    ensures View(s, asset).trades == TradesOf(s.trades, asset)
  {
  }

  // -------------------------------------------------------------------------
  // The timeline of strictly ascending bars
  // -------------------------------------------------------------------------

  ghost predicate NoRepeats(es: seq<Event>) { forall i, j :: 0 <= i < j < |es| ==> es[i] != es[j] }

  lemma {:induction false} OccursOnce(es: seq<Event>, e: Event)
    requires NoRepeats(es)
    ensures multiset(es)[e] <= 1
  {
    if es != [] {
      var n := |es| - 1;
      OccursOnce(es[..n], e);
      assert es == es[..n] + [es[n]];
      if es[n] == e { assert e !in es[..n]; }
    }
  }

  lemma OncePerMultiset(es: seq<Event>, fs: seq<Event>)
    requires NoRepeats(es) && multiset(es) == multiset(fs)
    ensures NoRepeats(fs)
  {
    forall i, j | 0 <= i < j < |fs| ensures fs[i] != fs[j] {
      OccursOnce(es, fs[i]);
      assert fs == fs[..j] + fs[j..];
      assert fs[i] in fs[..j] && fs[j] in fs[j..];
    }
  }

  lemma {:induction false} AllEventsDiffer(frames: seq<Frame>)
    requires DistinctAssets(frames)
    ensures NoRepeats(AllEvents(frames))
  {
    hide EventsOf;
    if frames != [] {
      var f, rest := frames[0], frames[1..];
      assert forall k :: 0 <= k < |rest| ==> rest[k] == frames[k + 1];
      AllEventsDiffer(rest);
      EventsAreBars(f, |f.candles|);
      var a, b := EventsOf(f, |f.candles|), AllEvents(rest);
      var es: seq<Event> := a + b;
      forall i, j | 0 <= i < j < |es| ensures es[i] != es[j] {
        if i < |a| <= j {
          AllEventsAreBars(rest, es[j]);
        }
      }
    }
  }

  lemma TimelineIsStrict(frames: seq<Frame>)
    requires DistinctAssets(frames) && AllAscending(frames)
    ensures StrictPerAsset(Timeline(frames))
  {
    hide Timeline, AllEvents;
    var line := Timeline(frames);
    TimelineIsSound(frames);
    AllEventsDiffer(frames);
    OncePerMultiset(AllEvents(frames), line);
    forall i, j | 0 <= i < j < |line| && line[i].asset == line[j].asset ensures line[i].ts < line[j].ts {
      assert InFrames(frames, line[i]) && InFrames(frames, line[j]) && line[i] != line[j];
      assert !Earlier(line[j], line[i]);
      CandlesAscend(frames, line[i].asset);
    }
  }

  lemma {:induction false} CandlesAscend(frames: seq<Frame>, asset: string)
    requires AllAscending(frames)
    ensures Ascending(CandlesOf(frames, asset))
  {
    if frames != [] {
      assert forall k :: 0 <= k < |frames[1..]| ==> frames[1..][k] == frames[k + 1];
      CandlesAscend(frames[1..], asset);
      assert Ascending(frames[0].candles);
    }
  }

  lemma LastEventIsInBars(frames: seq<Frame>, line: seq<Event>, n: nat, asset: string)
    requires n <= |line| && LastOf(line, n, asset).Some? && AllAscending(frames)
    requires forall i :: 0 <= i < |line| ==> InFrames(frames, line[i])
    ensures CandlesOf(frames, asset) != [] && LastOf(line, n, asset).value <= LastBar(frames, asset)
  {
    LastOfIsListed(line, n, asset);
    var i :| 0 <= i < n && line[i].asset == asset && line[i].ts == LastOf(line, n, asset).value;
    assert InFrames(frames, line[i]);
    CandlesAscend(frames, asset);
  }

  /** For strictly ascending bars, the trades a portfolio run reports for an asset never overlap. */
  lemma PortfolioTradesAreDisjoint(env: PEnv, asset: string)
    requires DistinctAssets(env.frames) && AllAscending(env.frames) && CanTrail(env.cfg)
    ensures DisjointIntervals(TradesOf(Simulated(env).trades, asset))
  {
    hide Timeline, AfterEvents, SettleAll, View, Shape, LastOf, LastBar, CandlesOf, AllAscending;
    var line := Timeline(env.frames);
    TimelineIsSound(env.frames);
    TimelineIsStrict(env.frames);
    var s := AfterEvents(env, line, |line|);
    LoopInvariant(env, line, |line|);
    HoldingsHaveBars(env, s);
    RunPlaces(env, line, |line|, asset);
    var last := LastOf(line, |line|, asset);
    if last.Some? { LastEventIsInBars(env.frames, line, |line|, asset); }
    var end := if CandlesOf(env.frames, asset) != [] then LastBar(env.frames, asset) else 0;
    LaterPlaces(View(s, asset), last, end);
    SettlementPlaces(env, s, asset, end);
  }

  lemma HoldingsHaveBars(env: PEnv, s: PLoop)
    requires Shape(env, s)
    ensures forall h :: h in s.holdings ==> CandlesOf(env.frames, h.asset) != []
  {
    hide CandlesOf;
  }
}
