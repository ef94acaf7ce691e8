/** The accounts of the portfolio replay. */
module PortfolioAccounts {
  import opened Common
  import opened RiskEngine
  import opened Backtest
  import opened TradeAccounts
  import opened Portfolio
  import opened PortfolioProofs
  import PortfolioTrades
  import PortfolioCausality

  ghost predicate ProperLine(env: PEnv, line: seq<Event>) {
    CanTrail(env.cfg) && forall i :: 0 <= i < |line| ==> InFrames(env.frames, line[i])
  }

  /** The bar an event is about. */
  function BarOf(env: PEnv, e: Event): Candle
    requires InFrames(env.frames, e)
  {
    CandlesOf(env.frames, e.asset)[e.index]
  }

  /** What the gate gets to see of the open trades: entry fill, current stop, side, risk and
      class of each, in the order they were opened, and a size of one. */
  function Seen(hs: seq<Holding>): (ps: seq<Position>)
    ensures |ps| == |hs|
  {
    seq(|hs|, i requires 0 <= i < |hs| =>
      Position(hs[i].asset, hs[i].assetClass, hs[i].trade.side, hs[i].trade.entryFill, hs[i].trade.stop,
               hs[i].riskPct, 1.0))
  }

  lemma {:induction false} PositionsAreSeen(hs: seq<Holding>)
    ensures Positions(hs) == Seen(hs)
  {
    if hs != [] {
      PositionsAreSeen(hs[1..]);
      assert Seen(hs) == [Seen(hs)[0]] + Seen(hs[1..]);
    }
  }

  /** The bars of an asset stamped before a time: of time-ordered bars, the first ones. */
  ghost predicate BarsBefore(bars: seq<Candle>, cs: seq<Candle>, ts: int) {
    && (forall c :: c in bars <==> c in cs && c.ts < ts)
    && (PortfolioCausality.Ordered(cs) ==> bars <= cs && forall i :: 0 <= i < |cs| ==> (cs[i].ts < ts <==> i < |bars|))
  }

  lemma {:induction false} UntilHolds(cs: seq<Candle>, ts: int)
    ensures forall c :: c in Until(cs, ts - 1) <==> c in cs && c.ts < ts
  {
    if cs != [] {
      UntilHolds(cs[..|cs| - 1], ts);
      assert cs == cs[..|cs| - 1] + [cs[|cs| - 1]];
    }
  }

  lemma UntilIsBefore(cs: seq<Candle>, ts: int)
    ensures BarsBefore(Until(cs, ts - 1), cs, ts)
  {
    hide Until, PortfolioCausality.Ordered;
    UntilHolds(cs, ts);
    if PortfolioCausality.Ordered(cs) { PortfolioCausality.UntilIsPrefix(cs, ts - 1); }
  }

  /** The correlations the gate gets: for each open trade of another asset, that of both
      assets' bars before now, if they have one; none of any other pair. */
  lemma {:induction false} CorrelationsAreOfPairs(env: PEnv, hs: seq<Holding>, asset: string, ts: int, other: string)
    requires other != asset && PortfolioTrades.OnePerAsset(hs) && forall h :: h in hs ==> h.asset != asset
    ensures var mine := Until(CandlesOf(env.frames, asset), ts - 1);
            var theirs := Until(CandlesOf(env.frames, other), ts - 1);
            var given := Correlations(env, hs, asset, ts);
      && BarsBefore(mine, CandlesOf(env.frames, asset), ts) && BarsBefore(theirs, CandlesOf(env.frames, other), ts)
      && ({other, asset} in given <==>
            (exists h :: h in hs && h.asset == other) && env.correlation(theirs, mine).Some?)
      && ({other, asset} in given ==> Some(given[{other, asset}]) == env.correlation(theirs, mine))
  {
    hide BarsBefore, CandlesOf, Until;
    UntilIsBefore(CandlesOf(env.frames, asset), ts);
    UntilIsBefore(CandlesOf(env.frames, other), ts);
    if hs != [] {
      var n := |hs| - 1;
      CorrelationsAreOfPairs(env, hs[..n], asset, ts, other);
      assert hs == hs[..n] + [hs[n]];
      if {other, asset} == {hs[n].asset, asset} { SamePair(other, hs[n].asset, asset); }
    }
  }

  lemma SamePair(a: string, b: string, c: string)
    requires {a, c} == {b, c} && a != c && b != c
    ensures a == b
  {
    assert a in {b, c};
  }

  /** At event k its asset held nothing, the strategy signalled on the bars up to then, and
      the gate approved this order with the settled equity, the peak and the open trades of then. */
  ghost predicate EnteredAt(env: PEnv, line: seq<Event>, k: nat, asset: string, o: Order)
    requires ProperLine(env, line)
  {
    && k < |line| && line[k].asset == asset
    && var s, c := AfterEvents(env, line, k), BarOf(env, line[k]);
       var signal := env.strategy(CandlesOf(env.frames, asset)[..line[k].index + 1], asset, c.ts);
       && (forall h :: h in s.holdings ==> h.asset != asset) && signal.Some?
       && env.gate(signal.value, env.account.(
                     equity := s.settled, peakEquity := s.peak, openPositions := Seen(s.holdings),
                     correlations := Correlations(env, s.holdings, asset, c.ts))) == Some(o)
  }

  /** The holding was entered at event k by order o and carries that order's risk and class. */
  ghost predicate OpenSince(env: PEnv, line: seq<Event>, n: nat, h: Holding, k: nat, o: Order)
    requires ProperLine(env, line)
  {
    && k < n <= |line| && EnteredAt(env, line, k, h.asset, o) && OpenedBy(h.trade, o, env.cfg)
    && h.trade.entryTime == line[k].ts && h.riskPct == o.riskPct && h.assetClass == o.assetClass
  }

  /** The trade was entered at event k by order o and left at price p on bar c of its asset,
      its last one if the run ended then. */
  ghost predicate LivedFrom(env: PEnv, line: seq<Event>, tr: Trade, k: nat, c: Candle, o: Order, p: real)
    requires ProperLine(env, line)
  {
    && EnteredAt(env, line, k, tr.asset, o) && tr.entryTime == line[k].ts
    && Accounts(tr, o, p, env.cfg) && LeftOn(tr, p, c, false) && c in CandlesOf(env.frames, tr.asset)
    && (tr.reason == EndOfData || tr.reason == FoldForceClose ==>
          c == CandlesOf(env.frames, tr.asset)[|CandlesOf(env.frames, tr.asset)| - 1]
          && (tr.reason == FoldForceClose <==> env.forceClose))
  }

  ghost predicate AccountedFor(env: PEnv, line: seq<Event>, tr: Trade)
    requires ProperLine(env, line)
  {
    exists k, c, o, p :: LivedFrom(env, line, tr, k, c, o, p)
  }

  ghost predicate IsKnown(env: PEnv, line: seq<Event>, n: nat, h: Holding)
    requires ProperLine(env, line)
  {
    exists k, o :: OpenSince(env, line, n, h, k, o)
  }

  ghost predicate AllKnown(env: PEnv, line: seq<Event>, n: nat, hs: seq<Holding>)
    requires ProperLine(env, line)
  {
    forall i :: 0 <= i < |hs| ==> IsKnown(env, line, n, hs[i])
  }

  ghost predicate AllAccountedFor(env: PEnv, line: seq<Event>, trades: seq<Trade>)
    requires ProperLine(env, line)
  {
    forall i :: 0 <= i < |trades| ==> AccountedFor(env, line, trades[i])
  }

  lemma StaysKnown(env: PEnv, line: seq<Event>, n: nat, h: Holding)
    requires ProperLine(env, line) && n < |line| && IsKnown(env, line, n, h)
    ensures IsKnown(env, line, n + 1, h)
  {
    hide EnteredAt, OpenedBy;
    var k, o :| OpenSince(env, line, n, h, k, o);
    assert OpenSince(env, line, n + 1, h, k, o);
  }

  lemma AllStayKnown(env: PEnv, line: seq<Event>, n: nat, hs: seq<Holding>)
    requires ProperLine(env, line) && n < |line| && AllKnown(env, line, n, hs)
    ensures AllKnown(env, line, n + 1, hs)
  {
    hide IsKnown, ProperLine;
    forall i | 0 <= i < |hs| ensures IsKnown(env, line, n + 1, hs[i]) { StaysKnown(env, line, n, hs[i]); }
  }

  /** One more bar of its asset: the holding is closed and accounted for, or stays known with a moved stop. */
  lemma BarAccounts(env: PEnv, line: seq<Event>, n: nat, h: Holding)
    requires ProperLine(env, line) && n < |line| && line[n].asset == h.asset && IsKnown(env, line, n, h)
    ensures var c := BarOf(env, line[n]);
            var held := h.trade.(barsHeld := h.trade.barsHeld + 1);
            var exit := OrTimeStop(CheckExit(held, c), held, c, env.cfg);
            var upTo := CandlesOf(env.frames, h.asset)[..line[n].index + 1];
            if exit.Some? then AccountedFor(env, line, CloseTrade(held, exit.value, c.ts, h.asset, env.cfg))
            else IsKnown(env, line, n + 1, h.(trade := Trail(held, upTo, c, env.cfg)))
  {
    hide EnteredAt, OpenedBy, CloseTrade, Accounts, LeftOn, OrTimeStop, CheckExit, Trail, CandlesOf;
    var c := BarOf(env, line[n]);
    var held := h.trade.(barsHeld := h.trade.barsHeld + 1);
    var exit := OrTimeStop(CheckExit(held, c), held, c, env.cfg);
    var k, o :| OpenSince(env, line, n, h, k, o);
    AgeIsNoMatter(h.trade, o, env.cfg, held.barsHeld);
    ExitIsLeftOn(held, c, h.asset, env.cfg, false);
    if exit.Some? {
      var tr := CloseTrade(held, exit.value, c.ts, h.asset, env.cfg);
      ClosingAccounts(held, o, exit.value, c.ts, h.asset, env.cfg);
      assert LivedFrom(env, line, tr, k, c, o, exit.value.price);
    } else {
      var upTo := CandlesOf(env.frames, h.asset)[..line[n].index + 1];
      TrailKeepsOrder(held, upTo, c, env.cfg);
      StopIsNoMatter(held, o, env.cfg, Trail(held, upTo, c, env.cfg).stop);
      assert OpenSince(env, line, n + 1, h.(trade := Trail(held, upTo, c, env.cfg)), k, o);
    }
  }

  lemma HoldAccounts(env: PEnv, line: seq<Event>, n: nat, s: PLoop, j: nat)
    requires ProperLine(env, line) && n < |line| && j < |s.holdings| && s.holdings[j].asset == line[n].asset
    requires AllKnown(env, line, n, s.holdings) && AllAccountedFor(env, line, s.trades)
    ensures var upTo := CandlesOf(env.frames, line[n].asset)[..line[n].index + 1];
            var u := HoldEvent(env, s, j, upTo, BarOf(env, line[n]));
            AllKnown(env, line, n + 1, u.holdings) && AllAccountedFor(env, line, u.trades)
  {
    hide CloseTrade, OrTimeStop, CheckExit, Trail, CandlesOf, IsKnown, AccountedFor, BarOf, AllKnown;
    AllStayKnown(env, line, n, s.holdings);
    KnownAt(env, line, n, s.holdings, j);
    BarAccounts(env, line, n, s.holdings[j]);
    var upTo := CandlesOf(env.frames, line[n].asset)[..line[n].index + 1];
    var u := HoldEvent(env, s, j, upTo, BarOf(env, line[n]));
    if |u.holdings| < |s.holdings| {
      KnownWithout(env, line, n + 1, s.holdings, j);
    } else {
      KnownWith(env, line, n + 1, s.holdings, j, u.holdings[j]);
    }
  }

  lemma KnownAt(env: PEnv, line: seq<Event>, n: nat, hs: seq<Holding>, j: nat)
    requires ProperLine(env, line) && j < |hs| && AllKnown(env, line, n, hs)
    ensures IsKnown(env, line, n, hs[j])
  {
    hide IsKnown;
  }

  lemma KnownWithout(env: PEnv, line: seq<Event>, n: nat, hs: seq<Holding>, j: nat)
    requires ProperLine(env, line) && j < |hs| && AllKnown(env, line, n, hs)
    ensures AllKnown(env, line, n, hs[..j] + hs[j + 1..])
  {
    hide IsKnown, ProperLine;
    var cut := hs[..j] + hs[j + 1..];
    assert forall i :: 0 <= i < |cut| ==> cut[i] == hs[if i < j then i else i + 1];
  }

  lemma KnownWith(env: PEnv, line: seq<Event>, n: nat, hs: seq<Holding>, j: nat, h: Holding)
    requires ProperLine(env, line) && j <= |hs| && AllKnown(env, line, n, hs) && IsKnown(env, line, n, h)
    ensures AllKnown(env, line, n, if j < |hs| then hs[j := h] else hs + [h])
  {
    hide IsKnown, ProperLine;
  }

  lemma FlatAccounts(env: PEnv, line: seq<Event>, n: nat, close: map<string, real>)
    requires ProperLine(env, line) && n < |line|
    requires forall h :: h in AfterEvents(env, line, n).holdings ==> h.asset != line[n].asset
    requires AllKnown(env, line, n, AfterEvents(env, line, n).holdings)
    ensures var s, e := AfterEvents(env, line, n).(lastClose := close), line[n];
            var u := FlatEvent(env, s, e.asset, CandlesOf(env.frames, e.asset)[..e.index + 1], BarOf(env, e));
            AllKnown(env, line, n + 1, u.holdings) && u.trades == s.trades
  {
    hide AfterEvents, OpenFrom, OpenedBy, CandlesOf, Correlations, Positions, Seen, IsKnown, AllKnown;
    var s, e := AfterEvents(env, line, n).(lastClose := close), line[n];
    AllStayKnown(env, line, n, s.holdings);
    var upTo, c := CandlesOf(env.frames, e.asset)[..e.index + 1], BarOf(env, e);
    var u := FlatEvent(env, s, e.asset, upTo, c);
    if u != s {
      var h := u.holdings[|s.holdings|];
      var signal := env.strategy(upTo, e.asset, c.ts);
      var o := env.gate(signal.value, env.account.(
                          equity := s.settled, peakEquity := s.peak, openPositions := Positions(s.holdings),
                          correlations := Correlations(env, s.holdings, e.asset, c.ts))).value;
      PositionsAreSeen(s.holdings);
      OpeningIsOpenedBy(o, c.ts, env.cfg);
      OpensFresh(o, c.ts, env.cfg);
      assert h == Holding(e.asset, OpenFrom(o, c.ts, env.cfg), o.riskPct, o.assetClass);
      assert OpenSince(env, line, n + 1, h, n, o);
      assert IsKnown(env, line, n + 1, h) by { KnownBy(env, line, n + 1, h, n, o); }
      KnownWith(env, line, n + 1, s.holdings, |s.holdings|, h);
    }
  }

  lemma KnownBy(env: PEnv, line: seq<Event>, n: nat, h: Holding, k: nat, o: Order)
    requires ProperLine(env, line) && OpenSince(env, line, n, h, k, o)
    ensures IsKnown(env, line, n, h)
  {
    hide OpenSince;
  }

  lemma {:induction false} LoopAccounts(env: PEnv, line: seq<Event>, n: nat)
    requires ProperLine(env, line) && n <= |line|
    ensures AllKnown(env, line, n, AfterEvents(env, line, n).holdings)
    ensures AllAccountedFor(env, line, AfterEvents(env, line, n).trades)
  {
    hide HoldEvent, FlatEvent, AllKnown, AllAccountedFor, OpenGains;
    if n == 0 {
      NothingKnown(env, line);
    } else {
      LoopAccounts(env, line, n - 1);
      var s, e := AfterEvents(env, line, n - 1), line[n - 1];
      assert InFrames(env.frames, e);
      var upTo := CandlesOf(env.frames, e.asset)[..e.index + 1];
      assert upTo[|upTo| - 1] == BarOf(env, e);
      var t := s.(lastClose := s.lastClose[e.asset := BarOf(env, e).close]);
      var j := IndexOf(t.holdings, e.asset);
      if j < |t.holdings| {
        HoldAccounts(env, line, n - 1, t, j);
      } else {
        FlatAccounts(env, line, n - 1, t.lastClose);
      }
    }
  }

  lemma NothingKnown(env: PEnv, line: seq<Event>)
    requires ProperLine(env, line)
    ensures AllKnown(env, line, 0, Begin(env).holdings) && AllAccountedFor(env, line, Begin(env).trades)
  {
    hide OpenGains;
  }

  lemma SettlingAccounts(env: PEnv, line: seq<Event>, s: PLoop)
    requires ProperLine(env, line) && s.holdings != [] && CandlesOf(env.frames, s.holdings[0].asset) != []
    requires IsKnown(env, line, |line|, s.holdings[0])
    ensures var u := SettleOne(env, s);
            |u.trades| == |s.trades| + 1 && u.trades[..|s.trades|] == s.trades
            && AccountedFor(env, line, u.trades[|s.trades|])
  {
    hide CloseTrade, EnteredAt, OpenedBy, Accounts, CandlesOf;
    var h := s.holdings[0];
    var k, o :| OpenSince(env, line, |line|, h, k, o);
    var cs := CandlesOf(env.frames, h.asset);
    var last := cs[|cs| - 1];
    var exit := Exit(last.close, if env.forceClose then FoldForceClose else EndOfData);
    ClosingAccounts(h.trade, o, exit, last.ts, h.asset, env.cfg);
    var tr := CloseTrade(h.trade, exit, last.ts, h.asset, env.cfg);
    assert LivedFrom(env, line, tr, k, last, o, last.close);
  }

  lemma {:induction false} SettlementAccounts(env: PEnv, line: seq<Event>, s: PLoop)
    requires ProperLine(env, line) && forall h :: h in s.holdings ==> CandlesOf(env.frames, h.asset) != []
    requires AllKnown(env, line, |line|, s.holdings) && AllAccountedFor(env, line, s.trades)
    ensures AllAccountedFor(env, line, SettleAll(env, s).trades)
    decreases s.holdings
  {
    hide SettleOne, IsKnown, AccountedFor, CandlesOf;
    if s.holdings != [] {
      SettlingAccounts(env, line, s);
      SettlementAccounts(env, line, SettleOne(env, s));
    }
  }

  /** Every trade a portfolio run reports was entered at an event of its own asset, while
      that asset held nothing, by an order the gate approved there, and left on a bar of
      that asset for a reason the bar shows; its fills, net result and R multiple are
      what order and exit price make them. */
  lemma PortfolioTradesAreAccountedFor(env: PEnv)
    requires DistinctAssets(env.frames) && CanTrail(env.cfg)
    ensures ProperLine(env, Timeline(env.frames))
    ensures AllAccountedFor(env, Timeline(env.frames), Simulated(env).trades)
  {
    hide Timeline, AfterEvents, SettleAll, AllKnown, AllAccountedFor, Shape, CandlesOf;
    var line := Timeline(env.frames);
    TimelineIsSound(env.frames);
    LoopAccounts(env, line, |line|);
    LoopInvariant(env, line, |line|);
    PortfolioTrades.HoldingsHaveBars(env, AfterEvents(env, line, |line|));
    SettlementAccounts(env, line, AfterEvents(env, line, |line|));
  }

  /** The same friction law over every portfolio run. */
  lemma PortfolioHasNoFreeLunch(env: PEnv, i: nat, k: nat, c: Candle, o: Order, p: real)
    requires DistinctAssets(env.frames) && CanTrail(env.cfg) && i < |Simulated(env).trades|
    requires ProperLine(env, Timeline(env.frames))
    requires LivedFrom(env, Timeline(env.frames), Simulated(env).trades[i], k, c, o, p)
    requires Frictional(env.cfg, o) && p >= 0.0
    ensures p == o.entryPrice ==> Simulated(env).trades[i].netPnl <= 0.0
    ensures env.cfg.slippage <= 1.0 ==>
              Simulated(env).trades[i].netPnl
              <= Value(if o.side == Long then p - o.entryPrice else o.entryPrice - p, o.positionSize)
  {
    hide Simulated, Accounts, EnteredAt, LeftOn, Value, Timeline, CandlesOf;
    if p == o.entryPrice || env.cfg.slippage <= 1.0 {
      FrictionNeverHelps(Simulated(env).trades[i], o, p, env.cfg);
    }
  }

  /** What each event decides about its own asset. If that holds nothing, it gets a trade if
      and only if the gate approves its signal, and the other trades stay; if it holds
      one, that is closed if and only if the bar touches stop or target or the trade
      has reached its age, and one more trade is reported. */
  lemma EventDecidesExactly(env: PEnv, line: seq<Event>, n: nat, j: nat)
    requires ProperLine(env, line) && n < |line|
    requires var hs, asset := AfterEvents(env, line, n).holdings, line[n].asset;
             && j <= |hs| && (forall i :: 0 <= i < j ==> hs[i].asset != asset)
             && (j < |hs| ==> hs[j].asset == asset)
    ensures var s, u, e, c := AfterEvents(env, line, n), AfterEvents(env, line, n + 1), line[n], BarOf(env, line[n]);
            var signal := env.strategy(CandlesOf(env.frames, e.asset)[..e.index + 1], e.asset, c.ts);
            var order := if signal.None? then None
                         else env.gate(signal.value, env.account.(
                                         equity := s.settled, peakEquity := s.peak, openPositions := Seen(s.holdings),
                                         correlations := Correlations(env, s.holdings, e.asset, c.ts)));
      && (j == |s.holdings| ==>
            && u.trades == s.trades && s.holdings <= u.holdings
            && |u.holdings| == |s.holdings| + (if order.Some? then 1 else 0)
            && (order.Some? ==>
                  && u.holdings[j].asset == e.asset && OpenedBy(u.holdings[j].trade, order.value, env.cfg)
                  && u.holdings[j].trade.stop == order.value.stopPrice))
      && (j < |s.holdings| ==>
            var t := s.holdings[j].trade;
            if TouchesStop(t.side, t.stop, c) || TouchesTarget(t.side, t.target, c)
               || t.barsHeld + 1 >= env.cfg.maxHoldBars
            then |u.trades| == |s.trades| + 1 && u.holdings == s.holdings[..j] + s.holdings[j + 1..]
            else u.trades == s.trades && u.holdings == s.holdings[j := s.holdings[j].(trade := u.holdings[j].trade)])
  {
    hide AfterEvents, CloseTrade, Trail, OpenFrom, OpenedBy, Correlations, Positions, Seen, OpenGains, CandlesOf;
    var s, e := AfterEvents(env, line, n), line[n];
    assert InFrames(env.frames, e);
    var upTo := CandlesOf(env.frames, e.asset)[..e.index + 1];
    var c := BarOf(env, e);
    assert upTo[|upTo| - 1] == c;
    NextEvent(env, line, n);
    IndexIs(s.holdings, e.asset, j);
    if j < |s.holdings| {
      var held := s.holdings[j].trade.(barsHeld := s.holdings[j].trade.barsHeld + 1);
      TouchIsExact(held, c, env.cfg);
    } else {
      PositionsAreSeen(s.holdings);
      forall o: Order ensures OpenedBy(OpenFrom(o, c.ts, env.cfg), o, env.cfg) {
        OpeningIsOpenedBy(o, c.ts, env.cfg);
      }
      forall o: Order ensures OpenFrom(o, c.ts, env.cfg).stop == o.stopPrice { OpensFresh(o, c.ts, env.cfg); }
    }
  }

  lemma NextEvent(env: PEnv, line: seq<Event>, n: nat)
    requires ProperLine(env, line) && n < |line|
    ensures InFrames(env.frames, line[n])
    ensures var e := line[n];
            AfterEvents(env, line, n + 1)
            == OnEvent(env, AfterEvents(env, line, n), e.asset, CandlesOf(env.frames, e.asset)[..e.index + 1])
  {
    hide OnEvent;
    assert InFrames(env.frames, line[n]);
  }

  lemma IndexIs(hs: seq<Holding>, asset: string, j: nat)
    requires j <= |hs| && (forall i :: 0 <= i < j ==> hs[i].asset != asset) && (j < |hs| ==> hs[j].asset == asset)
    ensures IndexOf(hs, asset) == j
  {
  }

  lemma TouchIsExact(t: OpenTrade, c: Candle, cfg: Config)
    ensures OrTimeStop(CheckExit(t, c), t, c, cfg).None? <==>
            !TouchesStop(t.side, t.stop, c) && !TouchesTarget(t.side, t.target, c) && t.barsHeld < cfg.maxHoldBars
  {
  }
}
