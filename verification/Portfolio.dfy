/** The shared-account portfolio replay: every asset's bars merged by time,
    one open trade per asset. */
module Portfolio {
  import opened Common
  import opened RiskEngine
  import opened Backtest

  /** One asset's candles; the list of frames is the source's dictionary in insertion order. */
  datatype Frame = Frame(asset: string, candles: seq<Candle>)

  datatype Event = Event(ts: int, asset: string, index: nat)

  datatype Holding = Holding(asset: string, trade: OpenTrade, riskPct: real, assetClass: string)

  /** Correlation of two candle histories, if they share enough bars. */
  type Correlation = (seq<Candle>, seq<Candle>) -> Option<real>

  datatype PEnv = PEnv(
    frames: seq<Frame>, strategy: Strategy, gate: RiskGate, correlation: Correlation, account: Account, cfg: Config,
    forceClose: bool)

  datatype PLoop = PLoop(
    settled: real, peak: real, lastClose: map<string, real>, holdings: seq<Holding>, curve: seq<real>,
    trades: seq<Trade>)

  function CandlesOf(frames: seq<Frame>, asset: string): seq<Candle> {
    if frames == [] then [] else if frames[0].asset == asset then frames[0].candles else CandlesOf(frames[1..], asset)
  }

  /** The bars stamped at or before a time. */
  function Until(cs: seq<Candle>, ts: int): seq<Candle> {
    if cs == [] then []
    else Until(cs[..|cs| - 1], ts) + if cs[|cs| - 1].ts <= ts then [cs[|cs| - 1]] else []
  }

  // -------------------------------------------------------------------------
  // Timeline
  // -------------------------------------------------------------------------

  predicate TextLess(a: string, b: string) {
    b != [] && (a == [] || a[0] < b[0] || (a[0] == b[0] && TextLess(a[1..], b[1..])))
  }

  predicate Earlier(a: Event, b: Event) {
    a.ts < b.ts || (a.ts == b.ts && (TextLess(a.asset, b.asset) || (a.asset == b.asset && a.index < b.index)))
  }

  function EventsOf(f: Frame, n: nat): seq<Event>
    requires n <= |f.candles|
  {
    if n == 0 then [] else EventsOf(f, n - 1) + [Event(f.candles[n - 1].ts, f.asset, n - 1)]
  }

  function AllEvents(frames: seq<Frame>): seq<Event> {
    if frames == [] then [] else EventsOf(frames[0], |frames[0].candles|) + AllEvents(frames[1..])
  }

  function Timeline(frames: seq<Frame>): seq<Event> { StableSort(AllEvents(frames), Earlier) }

  /** Every event of the timeline names a bar that exists. */
  ghost predicate InFrames(frames: seq<Frame>, e: Event) {
    e.index < |CandlesOf(frames, e.asset)| && CandlesOf(frames, e.asset)[e.index].ts == e.ts
  }

  ghost predicate DistinctAssets(frames: seq<Frame>) {
    forall i, j :: 0 <= i < j < |frames| ==> frames[i].asset != frames[j].asset
  }

  // -------------------------------------------------------------------------
  // Marking and snapshots
  // -------------------------------------------------------------------------

  function MarkGain(h: Holding, mark: real): real {
    if h.trade.side == Long then Value(mark - h.trade.entryFill, h.trade.size)
    else Value(h.trade.entryFill - mark, h.trade.size)
  }

  /** A holding without a last close is marked at its own entry. */
  function OpenGains(hs: seq<Holding>, lastClose: map<string, real>): real {
    if hs == [] then 0.0
    else
      var h := hs[|hs| - 1];
      OpenGains(hs[..|hs| - 1], lastClose)
        + MarkGain(h, if h.asset in lastClose then lastClose[h.asset] else h.trade.entryFill)
  }

  function WithCurvePoint(s: PLoop): PLoop { s.(curve := s.curve + [s.settled + OpenGains(s.holdings, s.lastClose)]) }

  /** The positions shown to the risk gate; their size is left at the default of one. */
  function Positions(hs: seq<Holding>): seq<Position> {
    if hs == [] then []
    else
      var h := hs[0];
      [Position(h.asset, h.assetClass, h.trade.side, h.trade.entryFill, h.trade.stop, h.riskPct, 1.0)]
        + Positions(hs[1..])
  }

  /** Correlations look only at bars strictly before the time they are taken. */
  function Correlations(env: PEnv, hs: seq<Holding>, asset: string, ts: int): map<set<string>, real> {
    if hs == [] then map[]
    else
      var rest := Correlations(env, hs[..|hs| - 1], asset, ts);
      var other := hs[|hs| - 1].asset;
      var c := env.correlation(Until(CandlesOf(env.frames, other), ts - 1),
                               Until(CandlesOf(env.frames, asset), ts - 1));
      if c.Some? then rest[{other, asset} := c.value] else rest
  }

  // -------------------------------------------------------------------------
  // One event
  // -------------------------------------------------------------------------

  function IndexOf(hs: seq<Holding>, asset: string): (i: nat)
    ensures i <= |hs|
    ensures i < |hs| ==> hs[i].asset == asset
    ensures forall j :: 0 <= j < i ==> hs[j].asset != asset
  {
    FirstWhere(hs, (h: Holding) => h.asset == asset)
  }

  function Begin(env: PEnv): PLoop {
    WithCurvePoint(PLoop(env.account.equity, env.account.peakEquity, map[], [], [], []))
  }

  /** The exit rule here does not look at the open. */
  function HoldEvent(env: PEnv, s: PLoop, k: nat, upTo: seq<Candle>, c: Candle): PLoop
    requires k < |s.holdings| && CanTrail(env.cfg)
  {
    var h := s.holdings[k];
    var held := h.trade.(barsHeld := h.trade.barsHeld + 1);
    var exit := OrTimeStop(CheckExit(held, c), held, c, env.cfg);
    if exit.Some? then
      var trade := CloseTrade(held, exit.value, c.ts, h.asset, env.cfg);
      var settled := s.settled + trade.netPnl;
      s.(settled := settled, peak := Max(s.peak, settled), trades := s.trades + [trade],
         holdings := s.holdings[..k] + s.holdings[k + 1..])
    else
      s.(holdings := s.holdings[k := h.(trade := Trail(held, upTo, c, env.cfg))])
  }

  function FlatEvent(env: PEnv, s: PLoop, asset: string, upTo: seq<Candle>, c: Candle): PLoop {
    var signal := env.strategy(upTo, asset, c.ts);
    if signal.None? then s
    else
      var snapshot := env.account.(equity := s.settled, peakEquity := s.peak, openPositions := Positions(s.holdings),
                                   correlations := Correlations(env, s.holdings, asset, c.ts));
      var order := env.gate(signal.value, snapshot);
      if order.None? then s
      else
        var o := order.value;
        s.(holdings := s.holdings + [Holding(asset, OpenFrom(o, c.ts, env.cfg), o.riskPct, o.assetClass)])
  }

  function OnEvent(env: PEnv, s: PLoop, asset: string, upTo: seq<Candle>): PLoop
    requires upTo != [] && CanTrail(env.cfg)
  {
    var c := upTo[|upTo| - 1];
    var t := s.(lastClose := s.lastClose[asset := c.close]);
    var k := IndexOf(t.holdings, asset);
    WithCurvePoint(if k < |t.holdings| then HoldEvent(env, t, k, upTo, c) else FlatEvent(env, t, asset, upTo, c))
  }

  /** State after the first n events of a timeline whose events all name existing bars. */
  function AfterEvents(env: PEnv, timeline: seq<Event>, n: nat): PLoop
    requires n <= |timeline| && CanTrail(env.cfg)
    requires forall i :: 0 <= i < |timeline| ==> InFrames(env.frames, timeline[i])
  {
    if n == 0 then Begin(env)
    else
      var e := timeline[n - 1];
      OnEvent(env, AfterEvents(env, timeline, n - 1), e.asset, CandlesOf(env.frames, e.asset)[..e.index + 1])
  }

  // -------------------------------------------------------------------------
  // Settlement
  // -------------------------------------------------------------------------

  /** Closes the trade opened first, at its asset's own last close. */
  function SettleOne(env: PEnv, s: PLoop): (r: PLoop)
    requires s.holdings != [] && CandlesOf(env.frames, s.holdings[0].asset) != []
    ensures r.holdings == s.holdings[1..]
  {
    var h := s.holdings[0];
    var cs := CandlesOf(env.frames, h.asset);
    var last := cs[|cs| - 1];
    var exit := Exit(last.close, if env.forceClose then FoldForceClose else EndOfData);
    var trade := CloseTrade(h.trade, exit, last.ts, h.asset, env.cfg);
    s.(settled := s.settled + trade.netPnl, trades := s.trades + [trade], holdings := s.holdings[1..])
  }

  /** Closes what is still open, in insertion order. */
  function SettleAll(env: PEnv, s: PLoop): PLoop
    requires forall h :: h in s.holdings ==> CandlesOf(env.frames, h.asset) != []
    decreases s.holdings
  {
    if s.holdings == [] then s else SettleAll(env, SettleOne(env, s))
  }

  function Final(env: PEnv, s: PLoop): Result
    requires s.curve != [] && forall h :: h in s.holdings ==> CandlesOf(env.frames, h.asset) != []
  {
    var t := SettleAll(env, s);
    Result(t.settled, t.trades, s.curve[|s.curve| - 1 := t.settled])
  }
}

/** The portfolio loop, its conservation laws and its heat cap. */
module PortfolioProofs {
  import opened Common
  import opened RiskEngine
  import opened Backtest
  import BacktestProofs
  import opened Portfolio

  // -------------------------------------------------------------------------
  // The timeline
  // -------------------------------------------------------------------------

  lemma {:induction false} TextLessIsStrict(a: string, b: string)
    ensures TextLess(a, b) ==> !TextLess(b, a) && a != b
    ensures a != b && !TextLess(a, b) ==> TextLess(b, a)
  {
    if a != [] && b != [] && a[0] == b[0] {
      TextLessIsStrict(a[1..], b[1..]);
      if a[1..] == b[1..] { assert a == b; }
    }
  }

  lemma {:induction false} TextLessChains(a: string, b: string, c: string)
    requires TextLess(a, c)
    ensures TextLess(a, b) || TextLess(b, c)
  {
    if a != [] && b != [] && a[0] == b[0] == c[0] { TextLessChains(a[1..], b[1..], c[1..]); }
  }

  lemma EarlierIsKeyOrder()
    ensures KeyOrder(Earlier)
  {
    forall a: Event, b: Event | Earlier(a, b) ensures !Earlier(b, a) {
      TextLessIsStrict(a.asset, b.asset);
    }
    forall a: Event, b: Event, c: Event | Earlier(a, c) ensures Earlier(a, b) || Earlier(b, c) {
      TextLessIsStrict(a.asset, b.asset);
      TextLessIsStrict(b.asset, c.asset);
      if TextLess(a.asset, c.asset) { TextLessChains(a.asset, b.asset, c.asset); }
    }
  }

  lemma {:induction false} EventsAreBars(f: Frame, n: nat)
    requires n <= |f.candles|
    ensures |EventsOf(f, n)| == n
    ensures forall i :: 0 <= i < n ==> EventsOf(f, n)[i] == Event(f.candles[i].ts, f.asset, i)
  {
    if n > 0 { EventsAreBars(f, n - 1); }
  }

  lemma {:induction false} CandlesOfMember(frames: seq<Frame>, k: nat)
    requires k < |frames| && DistinctAssets(frames)
    ensures CandlesOf(frames, frames[k].asset) == frames[k].candles
  {
    if k > 0 { CandlesOfMember(frames[1..], k - 1); }
  }

  lemma {:induction false} AllEventsAreBars(frames: seq<Frame>, e: Event)
    requires e in AllEvents(frames)
    ensures exists k :: 0 <= k < |frames| && frames[k].asset == e.asset && e.index < |frames[k].candles|
                        && frames[k].candles[e.index].ts == e.ts
  {
    var own := EventsOf(frames[0], |frames[0].candles|);
    EventsAreBars(frames[0], |frames[0].candles|);
    if e in own {
      var i :| 0 <= i < |own| && own[i] == e;
    } else {
      assert e in AllEvents(frames[1..]);
      AllEventsAreBars(frames[1..], e);
      var k :| 0 <= k < |frames[1..]| && frames[1..][k].asset == e.asset && e.index < |frames[1..][k].candles|
               && frames[1..][k].candles[e.index].ts == e.ts;
      assert frames[k + 1] == frames[1..][k];
    }
  }

  /** By time, then by asset name, then by bar. */
  ghost predicate InTimeOrder(line: seq<Event>) {
    forall i, j :: 0 <= i < j < |line| ==>
      line[i].ts < line[j].ts
      || (line[i].ts == line[j].ts
          && (TextLess(line[i].asset, line[j].asset)
              || (line[i].asset == line[j].asset && line[i].index <= line[j].index)))
  }

  lemma SortedIsInTimeOrder(line: seq<Event>)
    requires Sorted(line, Earlier)
    ensures InTimeOrder(line)
  {
    forall i, j | 0 <= i < j < |line|
      ensures line[i].ts < line[j].ts
        || (line[i].ts == line[j].ts
            && (TextLess(line[i].asset, line[j].asset)
                || (line[i].asset == line[j].asset && line[i].index <= line[j].index)))
    {
      assert !Earlier(line[j], line[i]);
      TextLessIsStrict(line[i].asset, line[j].asset);
    }
  }

  /** The merged timeline holds every bar of every asset once, in time order, and names only existing bars. */
  lemma TimelineIsSound(frames: seq<Frame>)
    requires DistinctAssets(frames)
    ensures Sorted(Timeline(frames), Earlier)
    ensures InTimeOrder(Timeline(frames))
    ensures multiset(Timeline(frames)) == multiset(AllEvents(frames))
    ensures forall i :: 0 <= i < |Timeline(frames)| ==> InFrames(frames, Timeline(frames)[i])
  {
    EarlierIsKeyOrder();
    StableSortSorts(AllEvents(frames), Earlier);
    StableSortKeepsAll(AllEvents(frames), Earlier);
    SortedIsInTimeOrder(Timeline(frames));
    forall i | 0 <= i < |Timeline(frames)| ensures InFrames(frames, Timeline(frames)[i]) {
      var e := Timeline(frames)[i];
      assert e in multiset(AllEvents(frames));
      AllEventsAreBars(frames, e);
      var k :| 0 <= k < |frames| && frames[k].asset == e.asset && e.index < |frames[k].candles|
               && frames[k].candles[e.index].ts == e.ts;
      CandlesOfMember(frames, k);
    }
  }

  // -------------------------------------------------------------------------
  // Conservation and shape
  // -------------------------------------------------------------------------

  /** At most one holding per asset, each of an asset whose bars have been seen. */
  ghost predicate GoodHoldings(frames: seq<Frame>, hs: seq<Holding>, lastClose: map<string, real>) {
    && (forall i, j :: 0 <= i < j < |hs| ==> hs[i].asset != hs[j].asset)
    && (forall i :: 0 <= i < |hs| ==> CandlesOf(frames, hs[i].asset) != [] && hs[i].asset in lastClose)
  }

  ghost predicate Shape(env: PEnv, s: PLoop) { GoodHoldings(env.frames, s.holdings, s.lastClose) }

  ghost predicate Balanced(env: PEnv, s: PLoop, n: nat) {
    && s.settled == env.account.equity + BacktestProofs.NetPnl(s.trades)
    && |s.curve| == n + 1
    && (s.holdings == [] ==> s.curve[n] == s.settled)
  }

  lemma HoldKeepsShape(env: PEnv, s: PLoop, k: nat, upTo: seq<Candle>, c: Candle)
    requires Shape(env, s) && k < |s.holdings| && CanTrail(env.cfg)
    ensures Shape(env, HoldEvent(env, s, k, upTo, c))
  {
    hide CloseTrade, Trail, OrTimeStop, CheckExit, CandlesOf;
    var hs, ts := s.holdings, HoldEvent(env, s, k, upTo, c).holdings;
    if |ts| < |hs| {
      assert forall i :: 0 <= i < |ts| ==> ts[i] == hs[if i < k then i else i + 1];
    } else {
      assert forall i :: 0 <= i < |ts| ==> ts[i].asset == hs[i].asset;
    }
  }

  lemma FlatKeepsShape(env: PEnv, s: PLoop, asset: string, upTo: seq<Candle>, c: Candle)
    requires Shape(env, s) && IndexOf(s.holdings, asset) == |s.holdings|
    requires CandlesOf(env.frames, asset) != [] && asset in s.lastClose
    ensures Shape(env, FlatEvent(env, s, asset, upTo, c))
  {
    hide OpenFrom, Correlations, Positions, CandlesOf, IndexOf;
  }

  lemma EventKeepsShape(env: PEnv, s: PLoop, asset: string, upTo: seq<Candle>)
    requires Shape(env, s) && upTo != [] && CanTrail(env.cfg) && CandlesOf(env.frames, asset) != []
    ensures Shape(env, OnEvent(env, s, asset, upTo))
  {
    hide HoldEvent, FlatEvent, OpenGains, CandlesOf;
    var c := upTo[|upTo| - 1];
    var t := s.(lastClose := s.lastClose[asset := c.close]);
    var k := IndexOf(t.holdings, asset);
    if k < |t.holdings| { HoldKeepsShape(env, t, k, upTo, c); } else { FlatKeepsShape(env, t, asset, upTo, c); }
  }

  /** What an event does to money: nothing, or one more trade is settled. */
  ghost predicate SettlesAtMostOne(s: PLoop, t: PLoop) {
    && t.curve == s.curve
    && ((t.settled == s.settled && t.trades == s.trades)
        || exists trade :: t.trades == s.trades + [trade] && t.settled == s.settled + trade.netPnl)
  }

  lemma HoldSettles(env: PEnv, s: PLoop, k: nat, upTo: seq<Candle>, c: Candle)
    requires k < |s.holdings| && CanTrail(env.cfg)
    ensures SettlesAtMostOne(s, HoldEvent(env, s, k, upTo, c))
  {
    hide CloseTrade, Trail, OrTimeStop, CheckExit;
  }

  lemma FlatSettles(env: PEnv, s: PLoop, asset: string, upTo: seq<Candle>, c: Candle)
    ensures SettlesAtMostOne(s, FlatEvent(env, s, asset, upTo, c))
  {
    hide OpenFrom, Correlations, Positions;
  }

  lemma SettlingBalances(env: PEnv, s: PLoop, t: PLoop, n: nat)
    requires Balanced(env, s, n) && SettlesAtMostOne(s, t)
    ensures Balanced(env, WithCurvePoint(t), n + 1)
  {
    hide BacktestProofs.NetPnl;
    if t.trades != s.trades {
      var trade :| t.trades == s.trades + [trade] && t.settled == s.settled + trade.netPnl;
      BacktestProofs.OneMoreTrade(s.trades, trade);
    }
    NothingOpen(t.lastClose);
  }

  lemma NothingOpen(lastClose: map<string, real>)
    ensures OpenGains([], lastClose) == 0.0
  {
  }

  lemma EventBalances(env: PEnv, s: PLoop, asset: string, upTo: seq<Candle>, n: nat)
    requires Balanced(env, s, n) && upTo != [] && CanTrail(env.cfg)
    ensures Balanced(env, OnEvent(env, s, asset, upTo), n + 1)
  {
    hide HoldEvent, FlatEvent, SettlesAtMostOne, BacktestProofs.NetPnl, WithCurvePoint;
    var c := upTo[|upTo| - 1];
    var t := s.(lastClose := s.lastClose[asset := c.close]);
    var k := IndexOf(t.holdings, asset);
    if k < |t.holdings| {
      HoldSettles(env, t, k, upTo, c);
      SettlingBalances(env, t, HoldEvent(env, t, k, upTo, c), n);
    } else {
      FlatSettles(env, t, asset, upTo, c);
      SettlingBalances(env, t, FlatEvent(env, t, asset, upTo, c), n);
    }
  }

  lemma {:induction false} LoopInvariant(env: PEnv, timeline: seq<Event>, n: nat)
    requires n <= |timeline| && CanTrail(env.cfg)
    requires forall i :: 0 <= i < |timeline| ==> InFrames(env.frames, timeline[i])
    ensures Shape(env, AfterEvents(env, timeline, n)) && Balanced(env, AfterEvents(env, timeline, n), n)
  {
    hide OnEvent;
    if n > 0 {
      LoopInvariant(env, timeline, n - 1);
      var e := timeline[n - 1];
      var upTo := CandlesOf(env.frames, e.asset)[..e.index + 1];
      EventKeepsShape(env, AfterEvents(env, timeline, n - 1), e.asset, upTo);
      EventBalances(env, AfterEvents(env, timeline, n - 1), e.asset, upTo, n - 1);
    }
  }

  lemma SettlingOneBalances(env: PEnv, s: PLoop)
    requires s.holdings != [] && CandlesOf(env.frames, s.holdings[0].asset) != []
    requires s.settled == env.account.equity + BacktestProofs.NetPnl(s.trades)
    ensures var t := SettleOne(env, s);
            && t.settled == env.account.equity + BacktestProofs.NetPnl(t.trades)
            && |t.trades| == |s.trades| + 1 && s.trades <= t.trades
  {
    hide CloseTrade, CandlesOf, BacktestProofs.NetPnl;
    var t := SettleOne(env, s);
    BacktestProofs.OneMoreTrade(s.trades, t.trades[|s.trades|]);
  }

  lemma {:induction false} SettlementBalances(env: PEnv, s: PLoop)
    requires forall h :: h in s.holdings ==> CandlesOf(env.frames, h.asset) != []
    requires s.settled == env.account.equity + BacktestProofs.NetPnl(s.trades)
    ensures SettleAll(env, s).settled == env.account.equity + BacktestProofs.NetPnl(SettleAll(env, s).trades)
    ensures |SettleAll(env, s).trades| == |s.trades| + |s.holdings|
            && SettleAll(env, s).trades[..|s.trades|] == s.trades
    decreases s.holdings
  {
    hide SettleOne, CandlesOf, BacktestProofs.NetPnl;
    if s.holdings != [] {
      SettlingOneBalances(env, s);
      SettlementBalances(env, SettleOne(env, s));
    }
  }

  function Simulated(env: PEnv): Result
    requires DistinctAssets(env.frames) && CanTrail(env.cfg)
  {
    TimelineIsSound(env.frames);
    LoopInvariant(env, Timeline(env.frames), |Timeline(env.frames)|);
    Final(env, AfterEvents(env, Timeline(env.frames), |Timeline(env.frames)|))
  }

  /** Conservation: final equity is the start plus all net results, and the curve
      has one point per event plus the start, ending at the final equity. */
  lemma PortfolioConserves(env: PEnv)
    requires DistinctAssets(env.frames) && CanTrail(env.cfg)
    ensures var r := Simulated(env);
      && r.finalEquity == env.account.equity + BacktestProofs.NetPnl(r.trades)
      && |r.curve| == |Timeline(env.frames)| + 1 && r.curve[|r.curve| - 1] == r.finalEquity
  {
    hide AfterEvents, Timeline;
    TimelineIsSound(env.frames);
    var s := AfterEvents(env, Timeline(env.frames), |Timeline(env.frames)|);
    LoopInvariant(env, Timeline(env.frames), |Timeline(env.frames)|);
    SettlementBalances(env, s);
  }

  /** One pass of the portfolio loop over a bar of an asset. */
  method OneBar(env: PEnv, asset: string, upTo: seq<Candle>, settled0: real, peak0: real, close0: map<string, real>,
                open0: seq<Holding>, curve0: seq<real>, trades0: seq<Trade>)
    returns (settled: real, peak: real, lastClose: map<string, real>, open: seq<Holding>, curve: seq<real>,
             trades: seq<Trade>)
    requires upTo != [] && CanTrail(env.cfg)
    ensures PLoop(settled, peak, lastClose, open, curve, trades)
         == OnEvent(env, PLoop(settled0, peak0, close0, open0, curve0, trades0), asset, upTo)
  {
    hide CloseTrade, Trail, OrTimeStop, CheckExit, OpenFrom, OpenGains, Correlations, Positions, IndexOf;
    settled, peak, open, trades := settled0, peak0, open0, trades0;
    var c := upTo[|upTo| - 1];
    lastClose := close0[asset := c.close];
    var k := IndexOf(open, asset);
    if k < |open| {
      var held := open[k].trade.(barsHeld := open[k].trade.barsHeld + 1);
      var exit := OrTimeStop(CheckExit(held, c), held, c, env.cfg);
      if exit.Some? {
        var trade := CloseTrade(held, exit.value, c.ts, open[k].asset, env.cfg);
        settled := settled + trade.netPnl;
        peak := Max(peak, settled);
        trades := trades + [trade];
        open := open[..k] + open[k + 1..];
      } else {
        open := open[k := open[k].(trade := Trail(held, upTo, c, env.cfg))];
      }
    } else {
      var signal := env.strategy(upTo, asset, c.ts);
      if signal.Some? {
        var snapshot := env.account.(equity := settled, peakEquity := peak, openPositions := Positions(open),
                                     correlations := Correlations(env, open, asset, c.ts));
        var order := env.gate(signal.value, snapshot);
        if order.Some? {
          open := open + [Holding(asset, OpenFrom(order.value, c.ts, env.cfg), order.value.riskPct,
                                  order.value.assetClass)];
        }
      }
    }
    curve := curve0 + [settled + OpenGains(open, lastClose)];
  }

  /** The portfolio loop as it runs: open trades in insertion order, one pass over the timeline. */
  method RunPortfolioBacktest(env: PEnv) returns (r: Result)
    requires DistinctAssets(env.frames) && CanTrail(env.cfg)
    ensures r == Simulated(env)
  {
    hide OnEvent, OpenGains, Timeline;
    var timeline := Timeline(env.frames);
    TimelineIsSound(env.frames);
    var settled, peak := env.account.equity, env.account.peakEquity;
    var lastClose: map<string, real> := map[];
    var open: seq<Holding> := [];
    var trades: seq<Trade> := [];
    var curve := [settled + OpenGains(open, lastClose)];
    var n := 0;
    while n < |timeline|
      invariant 0 <= n <= |timeline|
      invariant PLoop(settled, peak, lastClose, open, curve, trades) == AfterEvents(env, timeline, n)
    {
      var e := timeline[n];
      assert InFrames(env.frames, e);
      var upTo := CandlesOf(env.frames, e.asset)[..e.index + 1];
      settled, peak, lastClose, open, curve, trades :=
        OneBar(env, e.asset, upTo, settled, peak, lastClose, open, curve, trades);
      n := n + 1;
    }
    LoopInvariant(env, timeline, |timeline|);
    r := SettleOpenTrades(env, AfterEvents(env, timeline, |timeline|), settled, open, trades, curve);
  }

  /** The settlement loop at the end of data or at a fold boundary. */
  method SettleOpenTrades(env: PEnv, ghost s: PLoop, equity: real, left: seq<Holding>, closed: seq<Trade>,
                          curve: seq<real>)
    returns (r: Result)
    requires curve != [] && forall h :: h in left ==> CandlesOf(env.frames, h.asset) != []
    requires s.settled == equity && s.holdings == left && s.trades == closed && s.curve == curve
    ensures r == Final(env, s)
  {
    hide CloseTrade, CandlesOf;
    var settled, open, trades := equity, left, closed;
    while open != []
      invariant forall h :: h in open ==> CandlesOf(env.frames, h.asset) != []
      invariant SettleAll(env, s.(settled := settled, trades := trades, holdings := open)) == SettleAll(env, s)
      decreases |open|
    {
      var h := open[0];
      var cs := CandlesOf(env.frames, h.asset);
      var last := cs[|cs| - 1];
      var exit := Exit(last.close, if env.forceClose then FoldForceClose else EndOfData);
      var trade := CloseTrade(h.trade, exit, last.ts, h.asset, env.cfg);
      settled := settled + trade.netPnl;
      trades := trades + [trade];
      open := open[1..];
    }
    r := Result(settled, trades, curve[|curve| - 1 := settled]);
  }

  // -------------------------------------------------------------------------
  // Heat cap
  // -------------------------------------------------------------------------

  function OpenRisk(hs: seq<Holding>): real { if hs == [] then 0.0 else hs[0].riskPct + OpenRisk(hs[1..]) }

  function OpenInClass(hs: seq<Holding>, c: string): nat {
    if hs == [] then 0 else (if hs[0].assetClass == c then 1 else 0) + OpenInClass(hs[1..], c)
  }

  /** The gate is the risk engine under this configuration. */
  ghost predicate GatedBy(env: PEnv, cfg: RiskConfig) {
    forall s, a :: env.gate(s, a) == (var d := Evaluate(cfg, s, a); if d.Approved? then Some(d.order) else None)
  }

  /** No scaling inverts a risk: the strategy's scales and the configured reductions are not negative. */
  ghost predicate NonNegativeRisks(env: PEnv, cfg: RiskConfig) {
    && 0.0 < cfg.riskPct && cfg.weeklyLossReduction >= 0.0 && cfg.preEventReduction >= 0.0
    && forall cs, asset, ts ::
         var s := env.strategy(cs, asset, ts); s.Some? && s.value.volScale.Some? ==> s.value.volScale.value >= 0.0
  }

  /** Neither reduction, nor both together, lifts a risk. */
  predicate Unlifting(cfg: RiskConfig) {
    && cfg.weeklyLossReduction <= 1.0 && cfg.preEventReduction <= 1.0
    && Value(cfg.weeklyLossReduction, cfg.preEventReduction) <= 1.0
  }

  /** No scaling lifts a risk: the reductions do not, or every signal carries a scale and so is clamped. */
  ghost predicate NeverLifted(env: PEnv, cfg: RiskConfig) {
    && Accepted(cfg)
    && (Unlifting(cfg)
        || forall cs, asset, ts :: var s := env.strategy(cs, asset, ts); s.Some? ==> s.value.volScale.Some?)
  }

  ghost predicate WithinClasses(cfg: RiskConfig, hs: seq<Holding>) {
    forall c :: OpenInClass(hs, c) > 0 ==> OpenInClass(hs, c) <= cfg.maxPerClass
  }

  ghost predicate WithinHeat(env: PEnv, cfg: RiskConfig, hs: seq<Holding>) {
    && (hs != [] ==> OpenRisk(hs) <= HeatCapOf(cfg, env.account))
    && forall i :: 0 <= i < |hs| ==> hs[i].riskPct >= 0.0
  }

  ghost predicate WithinShares(cfg: RiskConfig, hs: seq<Holding>) {
    forall i :: 0 <= i < |hs| ==> hs[i].riskPct <= cfg.riskPct
  }

  ghost predicate Capped(env: PEnv, cfg: RiskConfig, hs: seq<Holding>) {
    && WithinClasses(cfg, hs)
    && (NonNegativeRisks(env, cfg) ==> WithinHeat(env, cfg, hs))
    && (NeverLifted(env, cfg) ==> WithinShares(cfg, hs))
  }

  lemma {:induction false} PositionsMirrorHoldings(hs: seq<Holding>, c: string)
    ensures Heat(Positions(hs)) == OpenRisk(hs) && InClass(Positions(hs), c) == OpenInClass(hs, c)
  {
    if hs != [] { PositionsMirrorHoldings(hs[1..], c); }
  }

  lemma {:induction false} SplitRisk(a: seq<Holding>, b: seq<Holding>, c: string)
    ensures OpenRisk(a + b) == OpenRisk(a) + OpenRisk(b)
            && OpenInClass(a + b, c) == OpenInClass(a, c) + OpenInClass(b, c)
  {
    if a == [] {
      assert a + b == b;
    } else {
      assert (a + b)[1..] == a[1..] + b;
      SplitRisk(a[1..], b, c);
    }
  }

  lemma ReplaceRisk(hs: seq<Holding>, k: nat, h: Holding, c: string)
    requires k < |hs| && h.riskPct == hs[k].riskPct && h.assetClass == hs[k].assetClass
    ensures OpenRisk(hs[k := h]) == OpenRisk(hs) && OpenInClass(hs[k := h], c) == OpenInClass(hs, c)
    ensures OpenRisk(hs[..k] + hs[k + 1..]) == OpenRisk(hs) - h.riskPct
    ensures OpenInClass(hs[..k] + hs[k + 1..], c) <= OpenInClass(hs, c)
  {
    SplitRisk(hs[..k], hs[k + 1..], c);
    SplitRisk(hs[..k], [hs[k]] + hs[k + 1..], c);
    SplitRisk(hs[..k], [h] + hs[k + 1..], c);
    SplitRisk([hs[k]], hs[k + 1..], c);
    SplitRisk([h], hs[k + 1..], c);
    assert hs == hs[..k] + ([hs[k]] + hs[k + 1..]);
    assert hs[k := h] == hs[..k] + ([h] + hs[k + 1..]);
  }

  /** Closing or moving a trade keeps the caps; a closed trade of negative risk would not. */
  lemma ReplaceKeepsCap(env: PEnv, cfg: RiskConfig, hs: seq<Holding>, k: nat, h: Holding)
    requires Capped(env, cfg, hs) && k < |hs| && h.riskPct == hs[k].riskPct && h.assetClass == hs[k].assetClass
    ensures Capped(env, cfg, hs[k := h]) && Capped(env, cfg, hs[..k] + hs[k + 1..])
  {
    hide OpenRisk, OpenInClass, HeatCapOf, NonNegativeRisks, NeverLifted;
    var moved, cut := hs[k := h], hs[..k] + hs[k + 1..];
    forall c: string
      ensures OpenInClass(moved, c) == OpenInClass(hs, c) && OpenInClass(cut, c) <= OpenInClass(hs, c)
    {
      ReplaceRisk(hs, k, h, c);
    }
    ReplaceRisk(hs, k, h, "");
    assert forall i :: 0 <= i < |cut| ==> cut[i] == hs[if i < k then i else i + 1];
    assert forall i :: 0 <= i < |moved| ==> moved[i].riskPct == hs[i].riskPct;
    assert WithinClasses(cfg, moved) && WithinClasses(cfg, cut);
    assert WithinShares(cfg, hs) ==> WithinShares(cfg, moved) && WithinShares(cfg, cut);
    assert WithinHeat(env, cfg, hs) ==> WithinHeat(env, cfg, moved) && WithinHeat(env, cfg, cut);
  }

  lemma HoldKeepsCap(env: PEnv, cfg: RiskConfig, s: PLoop, k: nat, upTo: seq<Candle>, c: Candle)
    requires Capped(env, cfg, s.holdings) && k < |s.holdings| && CanTrail(env.cfg)
    ensures Capped(env, cfg, HoldEvent(env, s, k, upTo, c).holdings)
  {
    hide CloseTrade, Trail, OrTimeStop, CheckExit, Capped;
    var h := s.holdings[k];
    var held := h.trade.(barsHeld := h.trade.barsHeld + 1);
    ReplaceKeepsCap(env, cfg, s.holdings, k, h.(trade := Trail(held, upTo, c, env.cfg)));
  }

  lemma OneHolding(h: Holding, c: string)
    ensures OpenRisk([h]) == h.riskPct && OpenInClass([h], c) == if h.assetClass == c then 1 else 0
  {
  }

  /** A new trade was approved by the risk engine on the trades already open. */
  ghost predicate Admitted(env: PEnv, cfg: RiskConfig, hs: seq<Holding>, h: Holding) {
    && OpenRisk(hs) + h.riskPct <= HeatCapOf(cfg, env.account)
    && OpenInClass(hs, h.assetClass) < cfg.maxPerClass
    && (NonNegativeRisks(env, cfg) ==> h.riskPct >= 0.0)
    && (NeverLifted(env, cfg) ==> h.riskPct <= cfg.riskPct)
  }

  lemma AdmittedKeepsCap(env: PEnv, cfg: RiskConfig, hs: seq<Holding>, h: Holding)
    requires Capped(env, cfg, hs) && Admitted(env, cfg, hs, h)
    ensures Capped(env, cfg, hs + [h])
  {
    hide OpenRisk, OpenInClass, HeatCapOf, NonNegativeRisks, NeverLifted;
    forall a: string
      ensures OpenRisk(hs + [h]) == OpenRisk(hs) + h.riskPct
      ensures OpenInClass(hs + [h], a) == OpenInClass(hs, a) + if h.assetClass == a then 1 else 0
    {
      SplitRisk(hs, [h], a);
      OneHolding(h, a);
    }
    SplitRisk(hs, [h], "");
    OneHolding(h, "");
  }

  lemma ReductionBounds(cfg: RiskConfig, a: Account)
    ensures cfg.weeklyLossReduction >= 0.0 && cfg.preEventReduction >= 0.0 ==> Reduction(cfg, a) >= 0.0
    ensures Unlifting(cfg) ==> Reduction(cfg, a) <= 1.0
  {
    hide Value;
    var weekly := if WeeklyReductionActive(cfg, a) then cfg.weeklyLossReduction else 1.0;
    var event := if EventReductionActive(cfg, a) then cfg.preEventReduction else 1.0;
    ValueOfValue(weekly, 1.0, 1.0);
    ValueOfValue(event, 1.0, 1.0);
    if cfg.weeklyLossReduction >= 0.0 && cfg.preEventReduction >= 0.0 { NonNegativeValue(weekly, event); }
  }

  /** What the strategy and the configuration promise about scalings carries over to a risk. */
  lemma RiskBounds(env: PEnv, cfg: RiskConfig, cs: seq<Candle>, asset: string, ts: int, a: Account)
    requires env.strategy(cs, asset, ts).Some?
    ensures var risk := EffectiveRisk(cfg, env.strategy(cs, asset, ts).value, a);
            && (NonNegativeRisks(env, cfg) ==> risk >= 0.0)
            && (NeverLifted(env, cfg) ==> risk <= cfg.riskPct)
  {
    hide Value, EffectiveRisk, Reduction;
    var s := env.strategy(cs, asset, ts).value;
    ReductionBounds(cfg, a);
    RiskIsReducedShare(cfg, s, a);
    if NonNegativeRisks(env, cfg) {
      NonNegativeValue(cfg.riskPct, Reduction(cfg, a));
      if s.volScale.Some? {
        assert s.volScale.value >= 0.0;
        NonNegativeValue(Value(cfg.riskPct, Reduction(cfg, a)), s.volScale.value);
      }
    }
    if NeverLifted(env, cfg) { RiskStaysCapped(cfg, s, a); }
  }

  lemma FlatKeepsCap(env: PEnv, cfg: RiskConfig, s: PLoop, asset: string, upTo: seq<Candle>, c: Candle)
    requires Capped(env, cfg, s.holdings) && GatedBy(env, cfg)
    ensures Capped(env, cfg, FlatEvent(env, s, asset, upTo, c).holdings)
  {
    hide Evaluate, EffectiveRisk, OpenFrom, Correlations, OpenRisk, OpenInClass, HeatCapOf, Capped, NonNegativeRisks,
         NeverLifted, CorrelatedHeat;
    var t := FlatEvent(env, s, asset, upTo, c);
    if t != s {
      var signal := env.strategy(upTo, asset, c.ts).value;
      var snapshot := env.account.(equity := s.settled, peakEquity := s.peak, openPositions := Positions(s.holdings),
                                   correlations := Correlations(env, s.holdings, asset, c.ts));
      ApprovalIsSafe(cfg, signal, snapshot);
      RiskBounds(env, cfg, upTo, asset, c.ts, snapshot);
      var h := t.holdings[|s.holdings|];
      CapIgnoresMoney(cfg, env.account, snapshot);
      PositionsMirrorHoldings(s.holdings, h.assetClass);
      assert Admitted(env, cfg, s.holdings, h);
      AdmittedKeepsCap(env, cfg, s.holdings, h);
    }
  }

  lemma CapIgnoresMoney(cfg: RiskConfig, a: Account, b: Account)
    requires a.highVolatility == b.highVolatility
    ensures HeatCapOf(cfg, a) == HeatCapOf(cfg, b)
  {
  }

  /** Along every portfolio run gated by the risk engine, after each event: each
      asset class is within its limit; if no scaling inverts a risk, the risk of
      all open trades is within the heat cap; and if none lifts it, each trade
      risks at most the configured share. */
  lemma {:induction false} HeatCapHolds(env: PEnv, cfg: RiskConfig, timeline: seq<Event>, n: nat)
    requires n <= |timeline| && CanTrail(env.cfg) && GatedBy(env, cfg)
    requires forall i :: 0 <= i < |timeline| ==> InFrames(env.frames, timeline[i])
    ensures var hs := AfterEvents(env, timeline, n).holdings;
            && WithinClasses(cfg, hs)
            && (NonNegativeRisks(env, cfg) ==> WithinHeat(env, cfg, hs))
            && (NeverLifted(env, cfg) ==> WithinShares(cfg, hs))
  {
    hide HoldEvent, FlatEvent, GatedBy, NonNegativeRisks, NeverLifted, OpenGains;
    if n > 0 {
      HeatCapHolds(env, cfg, timeline, n - 1);
      var e, s := timeline[n - 1], AfterEvents(env, timeline, n - 1);
      assert InFrames(env.frames, e);
      var upTo := CandlesOf(env.frames, e.asset)[..e.index + 1];
      var c := upTo[|upTo| - 1];
      var t := s.(lastClose := s.lastClose[e.asset := c.close]);
      var k := IndexOf(t.holdings, e.asset);
      if k < |t.holdings| {
        HoldKeepsCap(env, cfg, t, k, upTo, c);
      } else {
        FlatKeepsCap(env, cfg, t, e.asset, upTo, c);
      }
    }
  }

  // -------------------------------------------------------------------------
  // A negative scale breaks the heat cap
  // -------------------------------------------------------------------------

  /** A heat cap that two ordinary trades exceed, but not one beside a trade of scale k < 0. */
  function Tight(k: real): RiskConfig {
    var cap := 0.02 - Min(Value(0.02, -k), 0.01);
    RiskConfig(0.02, 2.0, cap, cap, 0.7, 5, 0.025, 0.055, 0.5, 0.175, 4, 4.0, 2.0, 0.5)
  }

  /** Signals at 100 with stop 90 and target 130; on asset A with volatility scale k. */
  function Hedging(k: real): Strategy {
    (cs, asset, ts) =>
      Some(Signal(asset, "crypto", Long, 100.0, 0.0, Some(90.0), Some(130.0), if asset == "A" then Some(k) else None))
  }

  function TightGate(k: real): RiskGate {
    (s, a) => var d := Evaluate(Tight(k), s, a); if d.Approved? then Some(d.order) else None
  }

  function Flat(ts: int): Candle { Candle(ts, 100.0, 100.0, 100.0, 100.0, 1.0) }

  const CALM := Account(1000.0, 1000.0, [], 0.0, 0.0, map[], map[], false, false, None, map[])

  const HEDGED_FRAMES := [Frame("A", [Flat(1), Flat(2)]), Frame("B", [Flat(1)])]

  function Hedged(k: real): PEnv {
    PEnv(HEDGED_FRAMES, Hedging(k), TightGate(k), (a, b) => None, CALM, Config(0.0, 0.0, 1, None, 0), false)
  }

  const HEDGED_EVENTS := [Event(1, "A", 0), Event(1, "B", 0), Event(2, "A", 1)]

  lemma HedgedEvents()
    ensures AllEvents(HEDGED_FRAMES) == [Event(1, "A", 0), Event(2, "A", 1), Event(1, "B", 0)]
  {
    var a1, b1, a2 := Event(1, "A", 0), Event(1, "B", 0), Event(2, "A", 1);
    assert EventsOf(HEDGED_FRAMES[0], 1) == [a1];
    assert EventsOf(HEDGED_FRAMES[0], 2) == [a1, a2];
    assert EventsOf(HEDGED_FRAMES[1], 1) == [b1];
    assert HEDGED_FRAMES[1..] == [HEDGED_FRAMES[1]];
    assert AllEvents([HEDGED_FRAMES[1]]) == [b1];
  }

  lemma HedgedTimeline()
    ensures Timeline(HEDGED_FRAMES) == HEDGED_EVENTS
  {
    hide AllEvents, StableSort, TextLess;
    var a1, b1, a2 := Event(1, "A", 0), Event(1, "B", 0), Event(2, "A", 1);
    HedgedEvents();
    AlphabeticalOrder();
    assert [a1, a2] + [b1] == [a1, a2, b1] && [a1, a2][..1] == [a1];
    StableSortAppend([a1, a2], b1, Earlier);
    assert Insert([a1, a2], b1, Earlier) == Insert([a1], b1, Earlier) + [a2];
  }

  lemma AlphabeticalOrder()
    ensures TextLess("A", "B") && !TextLess("B", "A") && !TextLess("A", "A")
  {
  }

  lemma HedgedRisk(asset: string, k: real)
    requires k < 0.0 && (asset == "A" || asset == "B")
    ensures EffectiveRisk(Tight(k), Hedging(k)([Flat(1)], asset, 1).value, CALM)
         == if asset == "A" then Value(0.02, k) else 0.02
    ensures Value(0.02, k) < 0.0 && HeatCapOf(Tight(k), CALM) >= 0.01
    ensures Value(0.02, k) + 0.02 <= HeatCapOf(Tight(k), CALM) < 0.02
  {
  }

  lemma HedgedEntry(k: real, asset: string, open: seq<Position>)
    requires k < 0.0 && (asset == "A" || asset == "B")
    requires if asset == "A" then open == []
             else |open| == 1 && open[0].riskPct == Value(0.02, k) && open[0].asset == "A"
    ensures var d := TightGate(k)(Hedging(k)([Flat(1)], asset, 1).value, CALM.(openPositions := open));
            && d.Some? && d.value.riskPct == (if asset == "A" then Value(0.02, k) else 0.02)
            && d.value.side == Long && d.value.stopPrice == 90.0 && d.value.targetPrice == 130.0
  {
    hide EffectiveRisk, Value, Min, HeatCapOf;
    var s, a := Hedging(k)([Flat(1)], asset, 1).value, CALM.(openPositions := open);
    HedgedRisk(asset, k);
    RiskIgnoresPositions(Tight(k), s, CALM, open);
    assert Heat(open) == if asset == "A" then 0.0 else Value(0.02, k);
    assert InClass(open, "crypto") <= 1;
    assert CorrelatedHeat(open, asset, map[], 0.7) == 0.0;
  }

  lemma RiskIgnoresPositions(cfg: RiskConfig, s: Signal, a: Account, open: seq<Position>)
    ensures EffectiveRisk(cfg, s, a.(openPositions := open)) == EffectiveRisk(cfg, s, a)
    ensures HeatCapOf(cfg, a.(openPositions := open)) == HeatCapOf(cfg, a)
  {
  }

  ghost predicate HedgedHolding(h: Holding, asset: string, risk: real) {
    && h.asset == asset && h.riskPct == risk
    && h.trade.side == Long && h.trade.stop == 90.0 && h.trade.target == 130.0 && h.trade.barsHeld == 0
  }

  lemma OnePosition(h: Holding)
    ensures var ps := Positions([h]); |ps| == 1 && ps[0].riskPct == h.riskPct && ps[0].asset == h.asset
  {
  }

  lemma HedgedOpens(k: real, s: PLoop, asset: string)
    requires k < 0.0 && s.settled == s.peak == 1000.0
    requires if asset == "A" then s.holdings == []
             else asset == "B" && |s.holdings| == 1 && HedgedHolding(s.holdings[0], "A", Value(0.02, k))
    ensures var t := OnEvent(Hedged(k), s, asset, [Flat(1)]);
            && t.settled == t.peak == 1000.0
            && |t.holdings| == |s.holdings| + 1 && t.holdings[..|s.holdings|] == s.holdings
            && HedgedHolding(t.holdings[|s.holdings|], asset, if asset == "A" then Value(0.02, k) else 0.02)
  {
    hide Evaluate, OpenGains, Value, Tight;
    assert IndexOf(s.holdings, asset) == |s.holdings|;
    if asset == "B" {
      OnePosition(s.holdings[0]);
      assert s.holdings == [s.holdings[0]] && s.holdings[..0] == [];
    }
    HedgedEntry(k, asset, Positions(s.holdings));
    assert Correlations(Hedged(k), s.holdings, asset, 1) == map[];
  }

  lemma HedgedCloses(k: real, s: PLoop)
    requires |s.holdings| == 2 && HedgedHolding(s.holdings[0], "A", Value(0.02, k)) && s.holdings[1].asset == "B"
    ensures OnEvent(Hedged(k), s, "A", [Flat(1), Flat(2)]).holdings == [s.holdings[1]]
  {
    hide CloseTrade, OpenGains, Value;
    assert IndexOf(s.holdings, "A") == 0;
  }

  lemma HedgedStep(k: real, n: nat)
    requires n < 3 && forall i :: 0 <= i < 3 ==> InFrames(HEDGED_FRAMES, HEDGED_EVENTS[i])
    ensures AfterEvents(Hedged(k), HEDGED_EVENTS, n + 1) ==
            OnEvent(Hedged(k), AfterEvents(Hedged(k), HEDGED_EVENTS, n), HEDGED_EVENTS[n].asset,
                    if n < 2 then [Flat(1)] else [Flat(1), Flat(2)])
  {
    hide OnEvent, Tight;
    assert CandlesOf(HEDGED_FRAMES, "A") == [Flat(1), Flat(2)] && CandlesOf(HEDGED_FRAMES, "B") == [Flat(1)];
    assert [Flat(1), Flat(2)][..1] == [Flat(1)] && [Flat(1)][..1] == [Flat(1)];
    assert [Flat(1), Flat(2)][..2] == [Flat(1), Flat(2)];
  }

  lemma HedgedBars()
    ensures forall i :: 0 <= i < 3 ==> InFrames(HEDGED_FRAMES, HEDGED_EVENTS[i])
  {
    assert CandlesOf(HEDGED_FRAMES, "A") == [Flat(1), Flat(2)] && CandlesOf(HEDGED_FRAMES, "B") == [Flat(1)];
  }

  lemma HedgedStart(k: real)
    requires forall i :: 0 <= i < 3 ==> InFrames(HEDGED_FRAMES, HEDGED_EVENTS[i])
    ensures var s := AfterEvents(Hedged(k), HEDGED_EVENTS, 0); s.settled == s.peak == 1000.0 && s.holdings == []
  {
  }

  /** With any negative scale the cap fails: a trade of negative risk makes room for
      another, and when it closes the open risk is above the cap. */
  lemma NegativeScaleBreaksHeatCap(k: real)
    requires k < 0.0
    ensures GatedBy(Hedged(k), Tight(k)) && Accepted(Tight(k)) && PositiveReductions(Tight(k))
    ensures CanTrail(Hedged(k).cfg)
    ensures Timeline(HEDGED_FRAMES) == HEDGED_EVENTS
    ensures forall i :: 0 <= i < 3 ==> InFrames(HEDGED_FRAMES, HEDGED_EVENTS[i])
    ensures var hs := AfterEvents(Hedged(k), HEDGED_EVENTS, 3).holdings;
            hs != [] && OpenRisk(hs) == 0.02 > HeatCapOf(Tight(k), CALM)
  {
    hide Evaluate, AfterEvents, OnEvent, InFrames, Timeline, Value, HeatCapOf;
    HedgedTimeline();
    HedgedBars();
    HedgedStart(k);
    HedgedStep(k, 0);
    HedgedOpens(k, AfterEvents(Hedged(k), HEDGED_EVENTS, 0), "A");
    HedgedStep(k, 1);
    HedgedOpens(k, AfterEvents(Hedged(k), HEDGED_EVENTS, 1), "B");
    HedgedStep(k, 2);
    var s := AfterEvents(Hedged(k), HEDGED_EVENTS, 2);
    HedgedCloses(k, s);
    OneHolding(s.holdings[1], "");
    HedgedRisk("A", k);
  }

  /** A run of the portfolio replay, gated by an accepted configuration with positive
      reductions, over events that name existing bars. */
  ghost predicate ProperRun(env: PEnv, cfg: RiskConfig, timeline: seq<Event>) {
    && Accepted(cfg) && PositiveReductions(cfg) && GatedBy(env, cfg) && CanTrail(env.cfg)
    && forall i :: 0 <= i < |timeline| ==> InFrames(env.frames, timeline[i])
  }

  /** Every signal carries an allowed scale, or none. */
  ghost predicate ScalesFrom(env: PEnv, allowed: real -> bool) {
    forall cs, asset, ts ::
      var s := env.strategy(cs, asset, ts); s.Some? && s.value.volScale.Some? ==> allowed(s.value.volScale.value)
  }

  /** With these scales the open risk stays within the heat cap, on every run and at every event of it. */
  ghost predicate ScalesAreSafe(allowed: real -> bool) {
    forall env: PEnv, cfg: RiskConfig, timeline: seq<Event>, n: nat ::
      n <= |timeline| && ProperRun(env, cfg, timeline) && ScalesFrom(env, allowed) ==>
        var hs := AfterEvents(env, timeline, n).holdings;
        hs != [] ==> OpenRisk(hs) <= HeatCapOf(cfg, env.account)
  }

  /** The exact condition for the heat cap: it holds on every run whose scales come
      from a given range if and only if the range has no negative scale. */
  lemma HeatCapHoldsExactly(allowed: real -> bool)
    ensures ScalesAreSafe(allowed) <==> forall k :: allowed(k) ==> k >= 0.0
  {
    hide AfterEvents, OpenRisk, HeatCapOf, GatedBy, InFrames, Tight, Hedged;
    if forall k :: allowed(k) ==> k >= 0.0 {
      forall env: PEnv, cfg: RiskConfig, timeline: seq<Event>, n: nat |
        n <= |timeline| && ProperRun(env, cfg, timeline) && ScalesFrom(env, allowed)
        ensures var hs := AfterEvents(env, timeline, n).holdings;
                hs != [] ==> OpenRisk(hs) <= HeatCapOf(cfg, env.account)
      {
        HeatCapHolds(env, cfg, timeline, n);
      }
    } else {
      var k :| allowed(k) && k < 0.0;
      NegativeScaleBreaksHeatCap(k);
      HedgedScales(k, allowed);
      assert ProperRun(Hedged(k), Tight(k), HEDGED_EVENTS);
    }
  }

  lemma HedgedScales(k: real, allowed: real -> bool)
    requires allowed(k)
    ensures ScalesFrom(Hedged(k), allowed)
    ensures Hedged(k).frames == HEDGED_FRAMES && Hedged(k).account == CALM
  {
  }
}
