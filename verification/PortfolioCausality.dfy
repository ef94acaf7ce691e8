/** No look-ahead in the portfolio replay: cutting every asset's bars at a time
    changes nothing about the run up to that time. */
module PortfolioCausality {
  import opened Common
  import opened Backtest
  import opened Portfolio
  import opened PortfolioProofs

  ghost predicate Ordered(cs: seq<Candle>) {
    forall i, j :: 0 <= i < j < |cs| ==> cs[i].ts <= cs[j].ts
  }

  ghost predicate AllOrdered(frames: seq<Frame>) {
    forall k :: 0 <= k < |frames| ==> Ordered(frames[k].candles)
  }

  function Cut(frames: seq<Frame>, ts: int): seq<Frame> {
    if frames == [] then [] else [Frame(frames[0].asset, Until(frames[0].candles, ts))] + Cut(frames[1..], ts)
  }

  // -------------------------------------------------------------------------
  // Bars
  // -------------------------------------------------------------------------

  lemma {:induction false} UntilAll(cs: seq<Candle>, ts: int)
    requires forall i :: 0 <= i < |cs| ==> cs[i].ts <= ts
    ensures Until(cs, ts) == cs
  {
    if cs != [] { UntilAll(cs[..|cs| - 1], ts); }
  }

  lemma NoBars(ts: int)
    ensures Until([], ts) == []
  {
  }

  lemma UntilSkipsLast(cs: seq<Candle>, ts: int)
    requires cs != [] && cs[|cs| - 1].ts > ts
    ensures Until(cs, ts) == Until(cs[..|cs| - 1], ts)
  {
  }

  /** Of ordered bars, the ones up to a time are a prefix. */
  lemma {:induction false} UntilIsPrefix(cs: seq<Candle>, ts: int)
    requires Ordered(cs)
    ensures Until(cs, ts) <= cs
    ensures forall i :: 0 <= i < |cs| ==> (cs[i].ts <= ts <==> i < |Until(cs, ts)|)
  {
    hide Until;
    NoBars(ts);
    if cs != [] {
      var n := |cs| - 1;
      if cs[n].ts <= ts {
        UntilAll(cs, ts);
      } else {
        UntilSkipsLast(cs, ts);
        UntilIsPrefix(cs[..n], ts);
        assert forall i :: 0 <= i < n ==> cs[..n][i] == cs[i];
      }
    }
  }

  lemma {:induction false} UntilTwice(cs: seq<Candle>, ts: int, earlier: int)
    requires earlier <= ts
    ensures Until(Until(cs, ts), earlier) == Until(cs, earlier)
  {
    if cs != [] {
      var n := |cs| - 1;
      UntilTwice(cs[..n], ts, earlier);
      if cs[n].ts <= ts {
        var kept := Until(cs[..n], ts);
        assert (kept + [cs[n]])[..|kept|] == kept;
      } else {
        assert Until(cs, ts) == Until(cs[..n], ts);
      }
    }
  }

  lemma {:induction false} CutCandles(frames: seq<Frame>, ts: int, asset: string)
    ensures CandlesOf(Cut(frames, ts), asset) == Until(CandlesOf(frames, asset), ts)
  {
    if frames != [] { CutCandles(frames[1..], ts, asset); }
  }

  lemma {:induction false} CandlesAreOrdered(frames: seq<Frame>, asset: string)
    requires AllOrdered(frames)
    ensures Ordered(CandlesOf(frames, asset))
  {
    if frames != [] {
      assert forall k :: 0 <= k < |frames[1..]| ==> frames[1..][k] == frames[k + 1];
      CandlesAreOrdered(frames[1..], asset);
      assert Ordered(frames[0].candles);
    }
  }

  // -------------------------------------------------------------------------
  // Events
  // -------------------------------------------------------------------------

  function EventsUntil(es: seq<Event>, ts: int): seq<Event> {
    if es == [] then []
    else EventsUntil(es[..|es| - 1], ts) + if es[|es| - 1].ts <= ts then [es[|es| - 1]] else []
  }

  lemma {:induction false} EventsUntilConcat(a: seq<Event>, b: seq<Event>, ts: int)
    ensures EventsUntil(a + b, ts) == EventsUntil(a, ts) + EventsUntil(b, ts)
  {
    if b == [] {
      assert a + b == a;
    } else {
      var n := |b| - 1;
      assert (a + b)[..|a + b| - 1] == a + b[..n];
      EventsUntilConcat(a, b[..n], ts);
    }
  }

  lemma EventsUntilSnoc(es: seq<Event>, e: Event, ts: int)
    ensures EventsUntil(es + [e], ts) == EventsUntil(es, ts) + if e.ts <= ts then [e] else []
  {
    assert (es + [e])[..|es|] == es;
  }

  lemma {:induction false} EventsUntilCount(es: seq<Event>, ts: int, e: Event)
    ensures multiset(EventsUntil(es, ts))[e] == if e.ts <= ts then multiset(es)[e] else 0
  {
    if es != [] {
      var n := |es| - 1;
      EventsUntilCount(es[..n], ts, e);
      EventsUntilSnoc(es[..n], es[n], ts);
      assert es == es[..n] + [es[n]];
    }
  }

  lemma {:induction false} FirstEventsUntil(f: Frame, n: nat, k: nat, ts: int)
    requires k <= |f.candles| && n <= |f.candles|
    requires forall i :: 0 <= i < |f.candles| ==> (f.candles[i].ts <= ts <==> i < k)
    ensures EventsUntil(EventsOf(f, n), ts) == EventsOf(f, if n <= k then n else k)
  {
    hide EventsUntil;
    if n == 0 {
      NoEvents(ts);
    } else {
      FirstEventsUntil(f, n - 1, k, ts);
      EventsUntilSnoc(EventsOf(f, n - 1), Event(f.candles[n - 1].ts, f.asset, n - 1), ts);
    }
  }

  lemma NoEvents(ts: int)
    ensures EventsUntil([], ts) == []
  {
  }

  lemma {:induction false} EventsOfPrefix(f: Frame, g: Frame, n: nat)
    requires f.asset == g.asset && g.candles <= f.candles && n <= |g.candles|
    ensures EventsOf(g, n) == EventsOf(f, n)
  {
    if n > 0 { EventsOfPrefix(f, g, n - 1); }
  }

  lemma FrameEventsUntil(f: Frame, ts: int)
    requires Ordered(f.candles)
    ensures EventsUntil(EventsOf(f, |f.candles|), ts)
         == EventsOf(Frame(f.asset, Until(f.candles, ts)), |Until(f.candles, ts)|)
  {
    hide EventsUntil, EventsOf, Until;
    UntilIsPrefix(f.candles, ts);
    FirstEventsUntil(f, |f.candles|, |Until(f.candles, ts)|, ts);
    EventsOfPrefix(f, Frame(f.asset, Until(f.candles, ts)), |Until(f.candles, ts)|);
  }

  /** The events of the cut frames are the events up to the time. */
  lemma {:induction false} CutEvents(frames: seq<Frame>, ts: int)
    requires AllOrdered(frames)
    ensures AllEvents(Cut(frames, ts)) == EventsUntil(AllEvents(frames), ts)
  {
    if frames != [] {
      var f := frames[0];
      assert forall k :: 0 <= k < |frames[1..]| ==> frames[1..][k] == frames[k + 1];
      CutEvents(frames[1..], ts);
      assert Ordered(f.candles);
      FrameEventsUntil(f, ts);
      EventsUntilConcat(EventsOf(f, |f.candles|), AllEvents(frames[1..]), ts);
      assert Cut(frames, ts)[1..] == Cut(frames[1..], ts);
    }
  }

  lemma {:induction false} EventsUntilAll(es: seq<Event>, ts: int)
    requires forall i :: 0 <= i < |es| ==> es[i].ts <= ts
    ensures EventsUntil(es, ts) == es
  {
    if es != [] { EventsUntilAll(es[..|es| - 1], ts); }
  }

  lemma {:induction false} EventsUntilIsPrefix(es: seq<Event>, ts: int)
    requires Sorted(es, Earlier)
    ensures EventsUntil(es, ts) <= es
  {
    if es != [] {
      var n := |es| - 1;
      if es[n].ts <= ts {
        forall i | 0 <= i < n ensures es[i].ts <= ts { assert !Earlier(es[n], es[i]); }
        EventsUntilAll(es, ts);
      } else {
        EventsUntilIsPrefix(es[..n], ts);
      }
    }
  }

  lemma NeitherIsEarlier(a: Event, b: Event)
    requires !Earlier(a, b) && !Earlier(b, a)
    ensures a == b
  {
    TextLessIsStrict(a.asset, b.asset);
  }

  lemma SameLast(a: seq<Event>, b: seq<Event>)
    requires multiset(a) == multiset(b) && Sorted(a, Earlier) && Sorted(b, Earlier) && |a| == |b| > 0
    ensures a[|a| - 1] == b[|a| - 1]
  {
    hide Earlier;
    var n := |a| - 1;
    assert a[n] in multiset(b) && b[n] in multiset(a);
    var i :| 0 <= i <= n && b[i] == a[n];
    var j :| 0 <= j <= n && a[j] == b[n];
    if i < n && j < n { NeitherIsEarlier(a[n], b[n]); }
  }

  lemma DropLast(a: seq<Event>)
    requires a != []
    ensures multiset(a[..|a| - 1]) == multiset(a) - multiset{a[|a| - 1]}
  {
    assert a == a[..|a| - 1] + [a[|a| - 1]];
  }

  /** Two sorted arrangements of the same events are the same. */
  lemma {:induction false} OneSortedOrder(a: seq<Event>, b: seq<Event>)
    requires multiset(a) == multiset(b) && Sorted(a, Earlier) && Sorted(b, Earlier)
    ensures a == b
    decreases |a|
  {
    hide Earlier;
    assert |a| == |multiset(a)| && |b| == |multiset(b)|;
    if a != [] {
      SameLast(a, b);
      DropLast(a);
      DropLast(b);
      OneSortedOrder(a[..|a| - 1], b[..|b| - 1]);
    }
  }

  lemma PrefixStaysSorted(es: seq<Event>, p: seq<Event>)
    requires Sorted(es, Earlier) && p <= es
    ensures Sorted(p, Earlier)
  {
  }

  lemma {:induction false} CutAssets(frames: seq<Frame>, ts: int)
    ensures |Cut(frames, ts)| == |frames|
    ensures forall k :: 0 <= k < |frames| ==> Cut(frames, ts)[k].asset == frames[k].asset
  {
    if frames != [] { CutAssets(frames[1..], ts); }
  }

  /** The timeline of the cut frames is the timeline up to the time. */
  lemma CutTimeline(frames: seq<Frame>, ts: int)
    requires AllOrdered(frames) && DistinctAssets(frames)
    ensures DistinctAssets(Cut(frames, ts))
    ensures Timeline(Cut(frames, ts)) == EventsUntil(Timeline(frames), ts) <= Timeline(frames)
  {
    hide Timeline, Earlier, AllEvents;
    CutAssets(frames, ts);
    TimelineIsSound(frames);
    TimelineIsSound(Cut(frames, ts));
    CutEvents(frames, ts);
    var line := Timeline(frames);
    EventsUntilIsPrefix(line, ts);
    PrefixStaysSorted(line, EventsUntil(line, ts));
    forall e ensures multiset(EventsUntil(line, ts))[e] == multiset(Timeline(Cut(frames, ts)))[e] {
      EventsUntilCount(line, ts, e);
      EventsUntilCount(AllEvents(frames), ts, e);
    }
    OneSortedOrder(Timeline(Cut(frames, ts)), EventsUntil(line, ts));
  }

  // -------------------------------------------------------------------------
  // The run
  // -------------------------------------------------------------------------

  lemma {:induction false} SameCorrelations(env: PEnv, cut: PEnv, hs: seq<Holding>, asset: string, ts: int, upTo: int)
    requires cut == env.(frames := Cut(env.frames, upTo)) && ts <= upTo
    ensures Correlations(cut, hs, asset, ts) == Correlations(env, hs, asset, ts)
  {
    if hs != [] {
      SameCorrelations(env, cut, hs[..|hs| - 1], asset, ts, upTo);
      var other := hs[|hs| - 1].asset;
      CutCandles(env.frames, upTo, other);
      CutCandles(env.frames, upTo, asset);
      UntilTwice(CandlesOf(env.frames, other), upTo, ts - 1);
      UntilTwice(CandlesOf(env.frames, asset), upTo, ts - 1);
    }
  }

  /** An event sees the same bars and correlations in both. */
  lemma SameEvent(env: PEnv, cut: PEnv, s: PLoop, asset: string, bars: seq<Candle>, upTo: int)
    requires cut == env.(frames := Cut(env.frames, upTo)) && CanTrail(env.cfg)
    requires bars != [] && bars[|bars| - 1].ts <= upTo
    ensures OnEvent(cut, s, asset, bars) == OnEvent(env, s, asset, bars)
  {
    hide Correlations, OpenGains, IndexOf, CloseTrade, Trail, OrTimeStop, CheckExit;
    var c := bars[|bars| - 1];
    SameCorrelations(env, cut, s.holdings, asset, c.ts, upTo);
  }

  lemma SameBars(frames: seq<Frame>, upTo: int, e: Event)
    requires AllOrdered(frames) && InFrames(Cut(frames, upTo), e)
    ensures InFrames(frames, e) && e.ts <= upTo
    ensures CandlesOf(Cut(frames, upTo), e.asset)[..e.index + 1] == CandlesOf(frames, e.asset)[..e.index + 1]
  {
    CutCandles(frames, upTo, e.asset);
    CandlesAreOrdered(frames, e.asset);
    UntilIsPrefix(CandlesOf(frames, e.asset), upTo);
  }

  lemma {:induction false} SameRun(env: PEnv, cut: PEnv, line: seq<Event>, upTo: int, n: nat)
    requires cut == env.(frames := Cut(env.frames, upTo)) && CanTrail(env.cfg) && AllOrdered(env.frames)
    requires n <= |line|
    requires forall i :: 0 <= i < |line| ==> InFrames(cut.frames, line[i]) && InFrames(env.frames, line[i])
    ensures AfterEvents(cut, line, n) == AfterEvents(env, line, n)
  {
    hide OnEvent, OpenGains;
    if n > 0 {
      SameRun(env, cut, line, upTo, n - 1);
      var e := line[n - 1];
      assert InFrames(cut.frames, e);
      SameBars(env.frames, upTo, e);
      SameEvent(env, cut, AfterEvents(env, line, n - 1), e.asset, CandlesOf(env.frames, e.asset)[..e.index + 1], upTo);
    }
  }

  lemma {:induction false} RunIgnoresTail(env: PEnv, line: seq<Event>, prefix: seq<Event>, n: nat)
    requires CanTrail(env.cfg) && prefix <= line && n <= |prefix|
    requires forall i :: 0 <= i < |line| ==> InFrames(env.frames, line[i])
    ensures forall i :: 0 <= i < |prefix| ==> InFrames(env.frames, prefix[i])
    ensures AfterEvents(env, prefix, n) == AfterEvents(env, line, n)
  {
    hide OnEvent, InFrames, OpenGains;
    assert forall i :: 0 <= i < |prefix| ==> prefix[i] == line[i];
    if n > 0 { RunIgnoresTail(env, line, prefix, n - 1); }
  }

  /** No look-ahead: for ordered bars, the replay of the bars up to any time goes
      through the same events and states as the replay of all bars does up to then. */
  lemma PortfolioNoLookAhead(env: PEnv, upTo: int, n: nat)
    requires DistinctAssets(env.frames) && AllOrdered(env.frames) && CanTrail(env.cfg)
    requires n <= |EventsUntil(Timeline(env.frames), upTo)|
    ensures var cut := env.(frames := Cut(env.frames, upTo));
      && (forall i :: 0 <= i < |Timeline(cut.frames)| ==> InFrames(cut.frames, Timeline(cut.frames)[i]))
      && (forall i :: 0 <= i < |Timeline(env.frames)| ==> InFrames(env.frames, Timeline(env.frames)[i]))
      && Timeline(cut.frames) == EventsUntil(Timeline(env.frames), upTo) <= Timeline(env.frames)
      && AfterEvents(cut, Timeline(cut.frames), n) == AfterEvents(env, Timeline(env.frames), n)
  {
    hide Timeline, InFrames, AfterEvents;
    var cut := env.(frames := Cut(env.frames, upTo));
    CutTimeline(env.frames, upTo);
    TimelineIsSound(env.frames);
    TimelineIsSound(cut.frames);
    RunIgnoresTail(env, Timeline(env.frames), Timeline(cut.frames), n);
    SameRun(env, cut, Timeline(cut.frames), upTo, n);
  }
}
