/** The survival engine: a stateless severity ladder wrapped in hysteresis,
    with the held tier persisted after every cycle. */
module Survival {
  import opened Common
  import opened TierStates

  datatype Tier = NORMAL | CAUTION | SURVIVAL | COOLDOWN

  function SeverityOf(t: Tier): (s: nat)
    ensures s <= 3
  {
    match t case NORMAL => 0 case CAUTION => 1 case SURVIVAL => 2 case COOLDOWN => 3
  }

  function TierAt(s: nat): Tier
    requires s <= 3
  {
    if s == 0 then NORMAL else if s == 1 then CAUTION else if s == 2 then SURVIVAL else COOLDOWN
  }

  function Name(t: Tier): string {
    match t case NORMAL => "normal" case CAUTION => "caution" case SURVIVAL => "survival" case COOLDOWN => "cooldown"
  }

  function Parse(s: string): Option<Tier> {
    if s == "normal" then Some(NORMAL) else if s == "caution" then Some(CAUTION)
    else if s == "survival" then Some(SURVIVAL) else if s == "cooldown" then Some(COOLDOWN) else None
  }

  datatype Config = Config(maxDrawdown: real, dailyLossLimit: real, weeklyLossLimit: real, consecutiveLossLimit: int)

  datatype Account = Account(
    equity: real, peakEquity: real, dailyPnlPct: real, weeklyPnlPct: real, consecutiveLosses: map<string, nat>,
    killSwitch: bool, dayStartEquity: Option<real>)

  /** Model results, each possibly missing: high-volatility flags and the tail risk estimate. */
  datatype Models = Models(garchHighVol: Option<bool>, hmmHighVol: Option<bool>, cvar99: Option<real>)

  datatype Input = Input(account: Account, models: Models)

  /** Whether exact arithmetic crosses a limit that floating point missed, given the carried anchor. */
  type FlipDetector = (Account, Option<real>) -> bool

  function Drawdown(a: Account): real {
    if a.peakEquity > 0.0 then (a.peakEquity - a.equity) / a.peakEquity else 0.0
  }

  /** The largest loss streak reaches n; no streaks count as a streak of zero. */
  predicate LossesReach(losses: map<string, nat>, n: int) {
    if losses == map[] then 0 >= n else exists k :: k in losses && losses[k] >= n
  }

  predicate Stressed(cfg: Config, a: Account, m: Models) {
    || m.hmmHighVol == Some(true) || m.garchHighVol == Some(true)
    || a.weeklyPnlPct <= -cfg.weeklyLossLimit
    || Drawdown(a) >= cfg.maxDrawdown * 0.60
    || (m.cvar99.Some? && m.cvar99.value >= 0.08)
    || LossesReach(a.consecutiveLosses, 2)
  }

  function RawTier(cfg: Config, a: Account, m: Models, flip: bool): Tier {
    if a.killSwitch then COOLDOWN
    else if Drawdown(a) >= cfg.maxDrawdown then COOLDOWN
    else if a.dailyPnlPct <= -cfg.dailyLossLimit || LossesReach(a.consecutiveLosses, cfg.consecutiveLossLimit)
    then SURVIVAL
    else if Stressed(cfg, a, m) then CAUTION
    else if flip then CAUTION
    else NORMAL
  }

  // -------------------------------------------------------------------------
  // Hysteresis
  // -------------------------------------------------------------------------

  /** The held severity and the number of consecutive cycles spent below it. */
  datatype Held = Held(sev: nat, below: int)

  function Advance(h: Held, raw: nat, dwell: int): Held {
    if raw > h.sev then Held(raw, 0)
    else if raw < h.sev then
      if h.below + 1 >= dwell then Held(h.sev - 1, 0) else Held(h.sev, h.below + 1)
    else Held(h.sev, 0)
  }

  function CurrentTier(t: TierState): Tier {
    var p := Parse(t.tier);
    if p.Some? then p.value else if t.tier == UNKNOWN_TIER then CAUTION else NORMAL
  }

  function HeldBy(t: TierState): Held { Held(SeverityOf(CurrentTier(t)), t.belowCount) }

  function Anchor(a: Account): Option<real> {
    Some(if a.dayStartEquity.Some? then a.dayStartEquity.value else a.equity)
  }

  function NextState(t: TierState, cycle: int, raw: Tier, dwell: int, anchor: Option<real>): (n: TierState)
    ensures Parse(n.tier).Some?
  {
    var h := Advance(HeldBy(t), SeverityOf(raw), dwell);
    TierState(Name(TierAt(h.sev)), if TierAt(h.sev) != CurrentTier(t) then cycle else t.enteredCycle, h.below, anchor)
  }

  /** What the held tier allows. */
  datatype Status = Status(tier: Tier, multiplier: real, allowNewEntries: bool, confidenceFloor: real)

  function Template(t: Tier): Status {
    match t
    case COOLDOWN => Status(t, 0.0, false, 1.0)
    case SURVIVAL => Status(t, 0.0, false, 0.85)
    case CAUTION => Status(t, 0.50, true, 0.70)
    case NORMAL => Status(t, 1.00, true, 0.55)
  }

  /** The state a starting engine takes over: unusable tiers are replaced. */
  function Adopt(t: TierState): TierState {
    if Parse(t.tier).Some? then t
    else if t.tier == UNKNOWN_TIER then TierState("caution", 0, 0, t.lastSettledEquity)
    else DEFAULT_STATE
  }

  class SurvivalEngine {
    const config: Config
    const minDwellCycles: int
    const flips: FlipDetector
    const file: StateFile
    var cycleCount: int
    var tierState: TierState

    constructor (config: Config, minDwellCycles: int, flips: FlipDetector, file: StateFile)
      ensures this.config == config && this.minDwellCycles == minDwellCycles && this.flips == flips && this.file == file
      ensures cycleCount == 0 && tierState == Adopt(Load(file.State())) && Parse(tierState.tier).Some?
      ensures var loaded := Load(file.State());
        && (Parse(loaded.tier).Some? ==> tierState == loaded)
        && (loaded.tier == UNKNOWN_TIER ==> CurrentTier(tierState) == CAUTION && tierState.belowCount == 0
                                            && tierState.lastSettledEquity == loaded.lastSettledEquity)
        && (Parse(loaded.tier).None? && loaded.tier != UNKNOWN_TIER ==> tierState == DEFAULT_STATE)
        && SeverityOf(CurrentTier(tierState)) == SeverityOf(CurrentTier(loaded))
    {
      this.config, this.minDwellCycles, this.flips, this.file := config, minDwellCycles, flips, file;
      cycleCount, tierState := 0, Adopt(Load(file.State()));
    }

    /** Advances the automaton by one cycle and persists the result. */
    method EvaluateSurvivalStatus(i: Input) returns (status: Status)
      modifies this, file
      ensures cycleCount == old(cycleCount) + 1
      ensures tierState == var t := old(tierState);
        NextState(t, old(cycleCount) + 1, RawTier(config, i.account, i.models, flips(i.account, t.lastSettledEquity)),
                  minDwellCycles, Anchor(i.account))
      ensures file.State() == SavedUpTo(old(file.State()), tierState, Replaced)
      ensures status == Template(CurrentTier(tierState))
      ensures tierState.tier == "normal" ==> status == Status(NORMAL, 1.00, true, 0.55)
      ensures tierState.tier == "caution" ==> status == Status(CAUTION, 0.50, true, 0.70)
      ensures tierState.tier == "survival" ==> status == Status(SURVIVAL, 0.0, false, 0.85)
      ensures tierState.tier == "cooldown" ==> status == Status(COOLDOWN, 0.0, false, 1.0)
      ensures tierState.enteredCycle ==
                if CurrentTier(tierState) == CurrentTier(old(tierState)) then old(tierState.enteredCycle)
                else cycleCount
      ensures tierState.lastSettledEquity ==
                Some(if i.account.dayStartEquity.Some? then i.account.dayStartEquity.value else i.account.equity)
    {
      hide RawTier, Load;
      cycleCount := cycleCount + 1;
      var current := CurrentTier(tierState);
      var raw := RawTier(config, i.account, i.models, flips(i.account, tierState.lastSettledEquity));
      var rawSev, curSev := SeverityOf(raw), SeverityOf(current);
      var newTier, below := current, tierState.belowCount;
      if rawSev > curSev {
        newTier, below := raw, 0;
      } else if rawSev < curSev {
        below := below + 1;
        if below >= minDwellCycles { newTier, below := TierAt(curSev - 1), 0; }
      } else {
        below := 0;
      }
      var entered := if newTier != current then cycleCount else tierState.enteredCycle;
      tierState := TierState(Name(newTier), entered, below, Anchor(i.account));
      file.Save(tierState);
      status := Template(newTier);
    }
  }
}

/** What the hysteresis guarantees over whole runs. */
module SurvivalProofs {
  import opened Common
  import opened TierStates
  import opened Survival

  /** The held state after a run of raw severities. */
  function Run(h: Held, raws: seq<nat>, dwell: int): Held {
    if raws == [] then h else Advance(Run(h, raws[..|raws| - 1], dwell), raws[|raws| - 1], dwell)
  }

  /** Sliding window: after every cycle the held severity is at least each raw
      severity of the last `dwell` cycles, and strictly above those of the
      last `below` cycles. */
  lemma {:induction false} WindowIsCovered(h: Held, raws: seq<nat>, dwell: int)
    requires dwell >= 1
    ensures var g := Run(h, raws, dwell);
      && (h.below >= 0 ==> g.below >= 0)
      && (forall j :: 0 <= j < |raws| && j >= |raws| - dwell ==> raws[j] <= g.sev)
      && (forall j :: 0 <= j < |raws| && j >= |raws| - g.below ==> raws[j] < g.sev)
    decreases raws
  {
    if raws != [] {
      var before := raws[..|raws| - 1];
      WindowIsCovered(h, before, dwell);
      assert forall j :: 0 <= j < |before| ==> before[j] == raws[j];
    }
  }

  /** A dwell below one acts as one. */
  lemma ShortDwellIsOne(h: Held, raw: nat, dwell: int)
    requires dwell <= 1 && h.below >= 0
    ensures Advance(h, raw, dwell) == Advance(h, raw, 1)
  {
  }

  /** The engine never overreacts: what bounds the held severity at the start and every raw
      one bounds it throughout; in particular it is always one of the four tiers. */
  lemma {:induction false} HeldIsBounded(h: Held, raws: seq<nat>, dwell: int, top: nat)
    requires h.sev <= top && forall j :: 0 <= j < |raws| ==> raws[j] <= top
    ensures Run(h, raws, dwell).sev <= top
  {
    if raws != [] { HeldIsBounded(h, raws[..|raws| - 1], dwell, top); }
  }

  /** No cycle within dwell - 1 cycles of a raw SURVIVAL or COOLDOWN allows new entries. */
  lemma NoEntrySoonAfterDanger(h: Held, raws: seq<nat>, dwell: int, j: nat)
    requires dwell >= 1 && |raws| - dwell <= j < |raws| && 2 <= raws[j]
    requires h.sev <= 3 && forall i :: 0 <= i < |raws| ==> raws[i] <= 3
    ensures Run(h, raws, dwell).sev <= 3
    ensures !Template(TierAt(Run(h, raws, dwell).sev)).allowNewEntries
    ensures Template(TierAt(Run(h, raws, dwell).sev)).multiplier == 0.0
  {
    hide Run;
    HeldIsBounded(h, raws, dwell, 3);
    WindowIsCovered(h, raws, dwell);
  }

  lemma SmallMultiple(d: int, z: int)
    requires d >= 1
    ensures d * z < d ==> z <= 0
    ensures -d < d * z ==> z >= 0
  {
    assert z >= 1 ==> d * z >= d;
    assert z <= -1 ==> d * z <= -d;
  }

  lemma QuotientBound(x: int, y: int, d: int)
    requires d >= 1 && d * x <= y
    ensures x <= y / d
  {
    var q, r := y / d, y % d;
    assert d * (x - q) == d * x - d * q;
    SmallMultiple(d, x - q);
  }

  lemma {:induction false} DefenseDecaysSlowly(h: Held, raws: seq<nat>, dwell: int)
    requires dwell >= 1 && h.below >= 0
    ensures var g := Run(h, raws, dwell);
            g.below >= 0 && dwell * g.sev - g.below >= dwell * h.sev - h.below - |raws|
    decreases raws
  {
    if raws != [] {
      var before, raw := raws[..|raws| - 1], raws[|raws| - 1];
      DefenseDecaysSlowly(h, before, dwell);
      OneCycleDecay(Run(h, before, dwell), raw, dwell);
    }
  }

  lemma OneCycleDecay(h: Held, raw: nat, dwell: int)
    requires dwell >= 1 && h.below >= 0
    ensures var g := Advance(h, raw, dwell);
            g.below >= 0 && dwell * g.sev - g.below >= dwell * h.sev - h.below - 1
  {
    var g := Advance(h, raw, dwell);
    if raw > h.sev {
      assert dwell * (g.sev - h.sev) >= 0;
      assert dwell * g.sev == dwell * h.sev + dwell * (g.sev - h.sev);
    } else if g.sev == h.sev - 1 {
      assert dwell * g.sev == dwell * h.sev - dwell;
    }
  }

  /** After k cycles the tier has dropped by at most (k + below) / dwell levels. */
  lemma DropIsBounded(h: Held, raws: seq<nat>, dwell: int)
    requires dwell >= 1 && h.below >= 0
    ensures h.sev - Run(h, raws, dwell).sev <= (|raws| + h.below) / dwell
  {
    DefenseDecaysSlowly(h, raws, dwell);
    var g := Run(h, raws, dwell);
    assert dwell * (h.sev - g.sev) == dwell * h.sev - dwell * g.sev;
    QuotientBound(h.sev - g.sev, |raws| + h.below, dwell);
  }

  function Larger(a: int, b: int): int { if a >= b then a else b }

  function Smaller(a: int, b: int): int { if a <= b then a else b }

  ghost predicate Constant(raws: seq<nat>, r: nat) { forall i :: 0 <= i < |raws| ==> raws[i] == r }

  lemma NextQuotient(y: int, d: int)
    requires d >= 1
    ensures y % d + 1 < d ==> (y + 1) / d == y / d && (y + 1) % d == y % d + 1
    ensures y % d + 1 >= d ==> (y + 1) / d == y / d + 1 && (y + 1) % d == 0
  {
    var q, r := y / d, y % d;
    assert y + 1 == d * q + (r + 1);
    if r + 1 < d {
      DivisionIs(y + 1, d, q, r + 1);
    } else {
      assert d * (q + 1) == d * q + d;
      DivisionIs(y + 1, d, q + 1, 0);
    }
  }

  lemma DivisionIs(y: int, d: int, q: int, r: int)
    requires d >= 1 && y == d * q + r && 0 <= r < d
    ensures y / d == q && y % d == r
  {
    var q', r' := y / d, y % d;
    assert d * (q' - q) == d * q' - d * q;
    SmallMultiple(d, q' - q);
  }

  /** Under a constant raw severity r at or below the held one, the held severity
      after k cycles is exactly max(r, start - (k + below) / dwell), where a
      below-count of dwell or more counts as dwell - 1. */
  lemma {:induction false} ConstantDescent(h: Held, raws: seq<nat>, r: nat, dwell: int)
    requires dwell >= 1 && h.below >= 0 && r <= h.sev && Constant(raws, r)
    ensures var g, k := Run(h, raws, dwell), |raws| + Smaller(h.below, dwell - 1);
      && g.sev == Larger(r, h.sev - k / dwell)
      && (raws != [] && g.sev > r ==> g.below == k % dwell)
    decreases raws
  {
    var b := Smaller(h.below, dwell - 1);
    if raws == [] {
      DivisionIs(b, dwell, 0, b);
    } else {
      var before := raws[..|raws| - 1];
      ConstantDescent(h, before, r, dwell);
      NextQuotient(|before| + b, dwell);
      if before == [] { DivisionIs(b, dwell, 0, b); }
    }
  }

  // -------------------------------------------------------------------------
  // Monotonicity
  // -------------------------------------------------------------------------

  /** Held states from less to more defensive: by severity, and at equal severity
      the one that has spent longer below is closer to stepping down. */
  predicate NoMoreDefensive(a: Held, b: Held) { a.sev < b.sev || (a.sev == b.sev && a.below >= b.below) }

  /** Pointwise worse raw severities keep a run at least as defensive throughout. */
  lemma {:induction false} RunIsMonotone(h: Held, g: Held, raws: seq<nat>, worse: seq<nat>, dwell: int)
    requires h.below >= 0 && g.below >= 0 && NoMoreDefensive(h, g)
    requires |raws| == |worse| && forall i :: 0 <= i < |raws| ==> raws[i] <= worse[i]
    ensures NoMoreDefensive(Run(h, raws, dwell), Run(g, worse, dwell))
    ensures Run(h, raws, dwell).below >= 0 && Run(g, worse, dwell).below >= 0
    decreases raws
  {
    if raws != [] {
      RunIsMonotone(h, g, raws[..|raws| - 1], worse[..|worse| - 1], dwell);
    }
  }

  /** b is a worse account than a: less equity at the same peak, lower PnL, longer streaks, more alarms. */
  ghost predicate WorseAccount(a: Account, b: Account) {
    && b.equity <= a.equity && b.peakEquity == a.peakEquity
    && b.dailyPnlPct <= a.dailyPnlPct && b.weeklyPnlPct <= a.weeklyPnlPct
    && (forall k :: k in a.consecutiveLosses ==>
          k in b.consecutiveLosses && a.consecutiveLosses[k] <= b.consecutiveLosses[k])
    && (a.killSwitch ==> b.killSwitch)
  }

  ghost predicate WorseModels(a: Models, b: Models) {
    && (a.garchHighVol == Some(true) ==> b.garchHighVol == Some(true))
    && (a.hmmHighVol == Some(true) ==> b.hmmHighVol == Some(true))
    && (a.cvar99.Some? ==> b.cvar99.Some? && a.cvar99.value <= b.cvar99.value)
  }

  lemma DeeperDrawdown(a: Account, b: Account)
    requires WorseAccount(a, b)
    ensures Drawdown(a) <= Drawdown(b)
  {
    if a.peakEquity > 0.0 {
      var p, x, y := a.peakEquity, Drawdown(a), Drawdown(b);
      assert x * p == p - a.equity && y * p == p - b.equity;
      assert x > y ==> (x - y) * p > 0.0;
      assert (x - y) * p == x * p - y * p;
    }
  }

  lemma LongerStreaks(a: map<string, nat>, b: map<string, nat>, n: int)
    requires forall k :: k in a ==> k in b && a[k] <= b[k]
    ensures LossesReach(a, n) ==> LossesReach(b, n)
  {
    if LossesReach(a, n) {
      if a == map[] {
        if b != map[] { var k :| k in b; assert b[k] >= n; }
      } else {
        var k :| k in a && a[k] >= n;
        assert k in b && b[k] >= n;
      }
    }
  }

  /** The raw ladder is no less severe on a worse account, worse model flags and more flips. */
  lemma LadderIsMonotone(cfg: Config, a: Account, b: Account, m: Models, n: Models, flip: bool, worseFlip: bool)
    requires WorseAccount(a, b) && WorseModels(m, n) && (flip ==> worseFlip)
    ensures SeverityOf(RawTier(cfg, a, m, flip)) <= SeverityOf(RawTier(cfg, b, n, worseFlip))
  {
    hide Drawdown, LossesReach;
    DeeperDrawdown(a, b);
    LongerStreaks(a.consecutiveLosses, b.consecutiveLosses, cfg.consecutiveLossLimit);
    LongerStreaks(a.consecutiveLosses, b.consecutiveLosses, 2);
  }

  /** The fall from the peak reaches this share of it; without a peak there is no fall. */
  predicate FellBy(a: Account, share: real) {
    if a.peakEquity > 0.0 then a.peakEquity - a.equity >= Value(share, a.peakEquity) else 0.0 >= share
  }

  /** Some asset class has lost at least n times in a row. */
  ghost predicate LostInARow(a: Account, n: int) {
    n <= 0 || exists k :: k in a.consecutiveLosses && a.consecutiveLosses[k] >= n
  }

  lemma DrawdownReaches(a: Account, share: real)
    ensures Drawdown(a) >= share <==> FellBy(a, share)
  {
    hide Value;
    if a.peakEquity > 0.0 { QuotientCompares(a.peakEquity - a.equity, a.peakEquity, share); }
  }

  lemma StreakReaches(a: Account, n: int)
    ensures LossesReach(a.consecutiveLosses, n) <==> LostInARow(a, n)
  {
    if a.consecutiveLosses != map[] {
      var k :| k in a.consecutiveLosses;
      assert a.consecutiveLosses[k] >= 0;
    }
  }

  /** The ladder's thresholds, level by level, in the account's own figures. */
  lemma LadderThresholds(cfg: Config, a: Account, m: Models, flip: bool)
    ensures var t := RawTier(cfg, a, m, flip);
      && (t == COOLDOWN <==> a.killSwitch || FellBy(a, cfg.maxDrawdown))
      && (t in {SURVIVAL, COOLDOWN} <==>
            || t == COOLDOWN || a.dailyPnlPct <= -cfg.dailyLossLimit || LostInARow(a, cfg.consecutiveLossLimit))
      && (t != NORMAL <==>
            || t in {SURVIVAL, COOLDOWN}
            || m.hmmHighVol == Some(true) || m.garchHighVol == Some(true)
            || (m.cvar99.Some? && m.cvar99.value >= 0.08)
            || a.weeklyPnlPct <= -cfg.weeklyLossLimit
            || FellBy(a, 0.60 * cfg.maxDrawdown)
            || LostInARow(a, 2)
            || flip)
  {
    hide Drawdown, FellBy, LossesReach, LostInARow;
    DrawdownReaches(a, cfg.maxDrawdown);
    DrawdownReaches(a, cfg.maxDrawdown * 0.60);
    StreakReaches(a, cfg.consecutiveLossLimit);
    StreakReaches(a, 2);
  }

  /** The anchor the cycle before the n-th one left. */
  function AnchorBefore(inputs: seq<Input>, n: nat, first: Option<real>): Option<real>
    requires n < |inputs|
  {
    if n == 0 then first else Anchor(inputs[n - 1].account)
  }

  function RawAt(cfg: Config, flips: FlipDetector, inputs: seq<Input>, n: nat, first: Option<real>): nat
    requires n < |inputs|
  {
    var i := inputs[n];
    SeverityOf(RawTier(cfg, i.account, i.models, flips(i.account, AnchorBefore(inputs, n, first))))
  }

  /** Raw severities of a run of inputs. */
  function RawsOf(cfg: Config, flips: FlipDetector, inputs: seq<Input>, first: Option<real>): seq<nat> {
    seq(|inputs|, n requires 0 <= n < |inputs| => RawAt(cfg, flips, inputs, n, first))
  }

  lemma RawsOfPrefix(cfg: Config, flips: FlipDetector, inputs: seq<Input>, first: Option<real>)
    requires inputs != []
    ensures var before := inputs[..|inputs| - 1];
            RawsOf(cfg, flips, inputs, first)
            == RawsOf(cfg, flips, before, first) + [RawAt(cfg, flips, inputs, |before|, first)]
  {
    hide RawTier;
    var before := inputs[..|inputs| - 1];
    forall n | 0 <= n < |before| ensures RawAt(cfg, flips, before, n, first) == RawAt(cfg, flips, inputs, n, first) {
      if n > 0 { assert before[n - 1] == inputs[n - 1]; }
    }
  }

  /** Whole-run monotonicity: a pointwise worse account history is held pointwise no less defensively. */
  lemma WorseHistoryIsHeldHarder(cfg: Config, flips: FlipDetector, dwell: int, h: Held, first: Option<real>,
                                 inputs: seq<Input>, worse: seq<Input>)
    requires h.below >= 0 && |inputs| == |worse|
    requires forall i :: 0 <= i < |inputs| ==>
      && WorseAccount(inputs[i].account, worse[i].account) && WorseModels(inputs[i].models, worse[i].models)
      && (flips(inputs[i].account, AnchorBefore(inputs, i, first)) ==>
          flips(worse[i].account, AnchorBefore(worse, i, first)))
    ensures Run(h, RawsOf(cfg, flips, inputs, first), dwell).sev <= Run(h, RawsOf(cfg, flips, worse, first), dwell).sev
  {
    hide RawTier, Run, WorseAccount, WorseModels, Anchor;
    forall i | 0 <= i < |inputs|
      ensures RawsOf(cfg, flips, inputs, first)[i] <= RawsOf(cfg, flips, worse, first)[i]
    {
      LadderIsMonotone(cfg, inputs[i].account, worse[i].account, inputs[i].models, worse[i].models,
                       flips(inputs[i].account, AnchorBefore(inputs, i, first)),
                       flips(worse[i].account, AnchorBefore(worse, i, first)));
    }
    RunIsMonotone(h, h, RawsOf(cfg, flips, inputs, first), RawsOf(cfg, flips, worse, first), dwell);
  }

  // -------------------------------------------------------------------------
  // Restarts
  // -------------------------------------------------------------------------

  datatype Machine = Machine(memory: TierState, cycle: int, disk: Disk)

  datatype Event = Cycle(input: Input) | Restart | CrashWhileSaving(input: Input, point: SavePoint)

  function Evaluated(cfg: Config, flips: FlipDetector, dwell: int, m: Machine, i: Input): TierState {
    NextState(m.memory, m.cycle + 1, RawTier(cfg, i.account, i.models, flips(i.account, m.memory.lastSettledEquity)),
              dwell, Anchor(i.account))
  }

  function Boot(d: Disk): Machine { Machine(Adopt(Load(d)), 0, d) }

  /** A crash ends the cycle at some point of its save; the engine is then constructed anew. */
  function Step(cfg: Config, flips: FlipDetector, dwell: int, m: Machine, e: Event): Machine {
    match e
    case Cycle(i) =>
      var t := Evaluated(cfg, flips, dwell, m, i);
      Machine(t, m.cycle + 1, SavedUpTo(m.disk, t, Replaced))
    case Restart => Boot(m.disk)
    case CrashWhileSaving(i, p) => Boot(SavedUpTo(m.disk, Evaluated(cfg, flips, dwell, m, i), p))
  }

  function RunMachine(cfg: Config, flips: FlipDetector, dwell: int, m: Machine, events: seq<Event>): Machine {
    if events == [] then m
    else Step(cfg, flips, dwell, RunMachine(cfg, flips, dwell, m, events[..|events| - 1]), events[|events| - 1])
  }

  /** The inputs of the cycles of a history that were carried through. */
  function Inputs(events: seq<Event>): seq<Input> {
    if events == [] then []
    else
      Inputs(events[..|events| - 1])
        + match events[|events| - 1]
          case Cycle(i) => [i]
          case Restart => []
          case CrashWhileSaving(i, p) => if p == Replaced then [i] else []
  }

  /** Memory holds what an engine constructed from the disk would, and the tier is a proper one. */
  ghost predicate InStep(m: Machine) { Parse(m.memory.tier).Some? && Adopt(Load(m.disk)) == m.memory }

  lemma StepStaysInStep(cfg: Config, flips: FlipDetector, dwell: int, m: Machine, e: Event)
    requires InStep(m)
    ensures InStep(Step(cfg, flips, dwell, m, e))
    ensures e.Restart? ==> Step(cfg, flips, dwell, m, e).memory == m.memory
    ensures e.CrashWhileSaving? ==>
      Step(cfg, flips, dwell, m, e).memory ==
        if e.point == Replaced then Evaluated(cfg, flips, dwell, m, e.input) else m.memory
  {
    hide NextState, RawTier, FromMapping, ToMapping;
    if !e.Restart? { MappingRoundTrip(Evaluated(cfg, flips, dwell, m, e.input)); }
  }

  /** The plain run that the history is compared with: an engine that never stops. */
  function Uninterrupted(cfg: Config, flips: FlipDetector, dwell: int, d: Disk, inputs: seq<Input>): Machine {
    if inputs == [] then Boot(d)
    else
      var n := |inputs| - 1;
      Step(cfg, flips, dwell, Uninterrupted(cfg, flips, dwell, d, inputs[..n]), Cycle(inputs[n]))
  }

  /** Same record but for the cycle index at which the tier was entered, which restarts renumber. */
  predicate SameRecord(a: TierState, b: TierState) {
    a.tier == b.tier && a.belowCount == b.belowCount && a.lastSettledEquity == b.lastSettledEquity
  }

  lemma SameRecordEvolvesAlike(cfg: Config, flips: FlipDetector, dwell: int, m: Machine, n: Machine, i: Input)
    requires SameRecord(m.memory, n.memory)
    ensures SameRecord(Evaluated(cfg, flips, dwell, m, i), Evaluated(cfg, flips, dwell, n, i))
  {
    hide RawTier;
  }

  /** Restart transparency: whatever the disk held at first, and whatever restarts,
      and crashes in the middle of a save, happen in between, the held tier,
      below-count and anchor are those of an engine that runs the completed cycles
      without ever stopping. */
  lemma {:induction false} RestartsAreTransparent(
    cfg: Config, flips: FlipDetector, dwell: int, d: Disk, events: seq<Event>)
    ensures var m := RunMachine(cfg, flips, dwell, Boot(d), events);
            && InStep(m)
            && SameRecord(m.memory, Uninterrupted(cfg, flips, dwell, d, Inputs(events)).memory)
    decreases events
  {
    hide NextState, RawTier, FromMapping, ToMapping;
    if events != [] {
      var before, e := events[..|events| - 1], events[|events| - 1];
      RestartsAreTransparent(cfg, flips, dwell, d, before);
      var m := RunMachine(cfg, flips, dwell, Boot(d), before);
      var u := Uninterrupted(cfg, flips, dwell, d, Inputs(before));
      StepStaysInStep(cfg, flips, dwell, m, e);
      if e.Cycle? || (e.CrashWhileSaving? && e.point == Replaced) {
        SameRecordEvolvesAlike(cfg, flips, dwell, m, u, e.input);
        assert Inputs(events) == Inputs(before) + [e.input];
        assert Inputs(events)[..|Inputs(events)| - 1] == Inputs(before);
      } else {
        assert Inputs(events) == Inputs(before);
      }
    }
  }

  /** A crash at any point of a save recovers exactly the record before the cycle or the one after it. */
  lemma CrashRecoversOneOfTwo(
    cfg: Config, flips: FlipDetector, dwell: int, d: Disk, events: seq<Event>, i: Input, p: SavePoint)
    ensures var m := RunMachine(cfg, flips, dwell, Boot(d), events);
            Step(cfg, flips, dwell, m, CrashWhileSaving(i, p)).memory in {m.memory, Evaluated(cfg, flips, dwell, m, i)}
  {
    hide Step, Evaluated;
    RestartsAreTransparent(cfg, flips, dwell, d, events);
    StepStaysInStep(cfg, flips, dwell, RunMachine(cfg, flips, dwell, Boot(d), events), CrashWhileSaving(i, p));
  }

  lemma NoRaws(cfg: Config, flips: FlipDetector, first: Option<real>)
    ensures RawsOf(cfg, flips, [], first) == []
  {
  }

  /** The persisted machine advances exactly the hysteresis that the run theorems
      are about, from the tier, below-count and anchor it was constructed with. */
  lemma {:induction false} MachineRunsHysteresis(
    cfg: Config, flips: FlipDetector, dwell: int, d: Disk, inputs: seq<Input>)
    ensures var m, start := Uninterrupted(cfg, flips, dwell, d, inputs), Boot(d).memory;
            && HeldBy(m.memory) == Run(HeldBy(start), RawsOf(cfg, flips, inputs, start.lastSettledEquity), dwell)
            && m.memory.lastSettledEquity ==
                 (if inputs == [] then start.lastSettledEquity else Anchor(inputs[|inputs| - 1].account))
    decreases inputs
  {
    hide RawTier, RawsOf, Boot;
    var first := Boot(d).memory.lastSettledEquity;
    if inputs == [] {
      assert RawsOf(cfg, flips, inputs, first) == [] by { NoRaws(cfg, flips, first); }
    } else {
      MachineRunsHysteresis(cfg, flips, dwell, d, inputs[..|inputs| - 1]);
      RawsOfPrefix(cfg, flips, inputs, first);
    }
  }

  /** On the persisted engine: whatever the disk held at first, and whatever restarts
      and crashes came in between, no status given within dwell - 1 completed cycles
      of a raw SURVIVAL or COOLDOWN allows new entries, and an engine constructed
      from that disk does not either. */
  lemma PersistedEngineStaysShut(cfg: Config, flips: FlipDetector, dwell: int, d: Disk, events: seq<Event>, j: nat)
    requires dwell >= 1 && |Inputs(events)| - dwell <= j < |Inputs(events)|
    requires RawAt(cfg, flips, Inputs(events), j, Boot(d).memory.lastSettledEquity) >= 2
    ensures var m := RunMachine(cfg, flips, dwell, Boot(d), events);
      && !Template(CurrentTier(m.memory)).allowNewEntries && Template(CurrentTier(m.memory)).multiplier == 0.0
      && CurrentTier(Boot(m.disk).memory) == CurrentTier(m.memory)
  {
    hide RawAt, RunMachine, Uninterrupted, Run, FromMapping;
    RestartsAreTransparent(cfg, flips, dwell, d, events);
    MachineRunsHysteresis(cfg, flips, dwell, d, Inputs(events));
    var start := Boot(d).memory;
    var raws := RawsOf(cfg, flips, Inputs(events), start.lastSettledEquity);
    forall n | 0 <= n < |raws| ensures raws[n] <= 3 {
      RawIsATier(cfg, flips, Inputs(events), n, start.lastSettledEquity);
    }
    NoEntrySoonAfterDanger(HeldBy(start), raws, dwell, j);
  }

  lemma RawIsATier(cfg: Config, flips: FlipDetector, inputs: seq<Input>, n: nat, first: Option<real>)
    requires n < |inputs|
    ensures RawAt(cfg, flips, inputs, n, first) <= 3
  {
  }

  /** The record's own ranking of tier names is the engine's ranking of tiers, from normal
      to cooldown, and any other name ranks with survival. */
  lemma RanksAgree(t: Tier, other: string)
    ensures TierStates.Severity(Name(t)) == SeverityOf(t)
    ensures SeverityOf(NORMAL) < SeverityOf(CAUTION) < SeverityOf(SURVIVAL) < SeverityOf(COOLDOWN)
    ensures Parse(Lower(other)).None? ==> TierStates.Severity(other) == SeverityOf(SURVIVAL)
    ensures Parse(Name(t)) == Some(t) && TierAt(SeverityOf(t)) == t
  {
    match t
    case NORMAL => LowerIsIdle("normal");
    case CAUTION => LowerIsIdle("caution");
    case SURVIVAL => LowerIsIdle("survival");
    case COOLDOWN => LowerIsIdle("cooldown");
  }
}
