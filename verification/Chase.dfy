/** The order chaser: a token bucket that gates every venue cancel, and the scan
    over stale working orders. Clock readings arrive as `clock(k)`, the time at
    which the limiter is asked for the k-th time. */
module Chase {
  import opened Common
  import opened OrderStateMachine

  datatype Bucket = Bucket(capacity: real, rate: real, tokens: real, last: real, denied: nat)

  function Acquire(b: Bucket, now: real): (Bucket, bool) {
    var refilled := Min(b.capacity, b.tokens + Value(b.rate, now - b.last));
    if refilled >= 1.0 then (b.(tokens := refilled - 1.0, last := now), true)
    else (b.(tokens := refilled, last := now, denied := b.denied + 1), false)
  }

  class TokenBucketRateLimiter {
    const capacity: real
    const refillRate: real
    var tokens: real
    var lastRefillTime: real
    var deniedCount: nat

    ghost function State(): Bucket
      reads this
    {
      Bucket(capacity, refillRate, tokens, lastRefillTime, deniedCount)
    }

    constructor (capacity: real, refillRate: real, now: real)
      ensures State() == Bucket(capacity, refillRate, capacity, now, 0)
    {
      this.capacity, this.refillRate := capacity, refillRate;
      tokens, lastRefillTime, deniedCount := capacity, now, 0;
    }

    method Take(now: real) returns (ok: bool)
      modifies this
      ensures (State(), ok) == Acquire(old(State()), now)
    {
      hide Value;
      tokens := Min(capacity, tokens + Value(refillRate, now - lastRefillTime));
      lastRefillTime := now;
      if tokens >= 1.0 {
        tokens := tokens - 1.0;
        return true;
      }
      deniedCount := deniedCount + 1;
      ok := false;
    }
  }

  datatype WorkingOrder = WorkingOrder(
    id: string, symbol: string, side: Side, price: real, requestedQty: real, filledQty: real, lastFillMs: real,
    status: OrderState)

  datatype Instrument = Instrument(minNotional: real, minQty: real)

  /** What a scan does about a stale order, and the cancels the OMS sends before a submission. */
  datatype Action =
    RateLimitDenied(id: string) | Abandoned(id: string) | Repriced(id: string) | WashCancelled(id: string)

  /** Statuses with which an order is dropped from tracking. */
  predicate Closed(s: OrderState) { s in {FILLED, CANCELED, REJECTED, PARTIAL_FILL_FINALIZED} }

  predicate BelowMinimum(w: WorkingOrder, info: Instrument) {
    var remaining := w.requestedQty - w.filledQty;
    remaining * w.price < info.minNotional || remaining < info.minQty
  }

  datatype Chaser = Chaser(working: seq<WorkingOrder>, bucket: Bucket, denied: nat, calls: nat)

  /** What a scan needs to know of the outside: time, timeout, instruments and the limiter's clock. */
  datatype Outside = Outside(nowMs: real, timeoutMs: real, info: string -> Instrument, clock: nat -> real)

  /** One order's turn in a scan: what stays tracked, the limiter, and the action logged. */
  function Visit(w: WorkingOrder, c: Chaser, env: Outside): (Chaser, seq<Action>) {
    if Closed(w.status) then (c, [])
    else if env.nowMs - w.lastFillMs <= env.timeoutMs then (c.(working := c.working + [w]), [])
    else
      var (b, ok) := Acquire(c.bucket, env.clock(c.calls));
      var d := c.(bucket := b, calls := c.calls + 1);
      if !ok then (d.(working := d.working + [w], denied := d.denied + 1), [RateLimitDenied(w.id)])
      else if BelowMinimum(w, env.info(w.symbol)) then (d, [Abandoned(w.id)])
      else (d.(working := d.working + [w.(status := PARTIAL_FILL_FINALIZED)]), [Repriced(w.id)])
  }

  /** Visits the orders in turn; `c.working` collects what stays tracked. */
  function ScanAll(orders: seq<WorkingOrder>, c: Chaser, env: Outside): (Chaser, seq<Action>)
    decreases orders
  {
    if orders == [] then (c, [])
    else
      var (d, first) := Visit(orders[0], c, env);
      var (e, later) := ScanAll(orders[1..], d, env);
      (e, first + later)
  }

  function Scan(c: Chaser, env: Outside): (Chaser, seq<Action>) {
    ScanAll(c.working, c.(working := []), env)
  }

  /** Dictionary assignment: replaces in place, or appends. */
  function Register(ws: seq<WorkingOrder>, w: WorkingOrder): seq<WorkingOrder>
    decreases ws
  {
    if ws == [] then [w] else if ws[0].id == w.id then [w] + ws[1..] else [ws[0]] + Register(ws[1..], w)
  }

  function Filled(w: WorkingOrder, qty: real, ms: real): WorkingOrder {
    var f := w.(filledQty := w.filledQty + qty, lastFillMs := ms);
    if f.filledQty >= f.requestedQty then f.(status := FILLED) else f
  }

  function OnFill(ws: seq<WorkingOrder>, id: string, qty: real, ms: real): (r: seq<WorkingOrder>)
    decreases ws
  {
    if ws == [] then []
    else if ws[0].id == id then [Filled(ws[0], qty, ms)] + ws[1..]
    else [ws[0]] + OnFill(ws[1..], id, qty, ms)
  }

  /** An order on the same asset that a submission would trade against. */
  predicate Opposes(w: WorkingOrder, asset: string, side: Side) { w.symbol == asset && w.side != side }

  /** A submission cancels every opposing order, whatever its status. */
  function AfterSubmission(ws: seq<WorkingOrder>, asset: string, side: Side): (r: seq<WorkingOrder>)
    ensures |r| == |ws|
  {
    seq(|ws|, i requires 0 <= i < |ws| => if Opposes(ws[i], asset, side) then ws[i].(status := CANCELED) else ws[i])
  }

  /** The cancels it sends, in the dictionary's order and without asking the limiter. */
  function WashCancels(ws: seq<WorkingOrder>, asset: string, side: Side): seq<Action> {
    if ws == [] then []
    else
      var w := ws[|ws| - 1];
      WashCancels(ws[..|ws| - 1], asset, side) + if Opposes(w, asset, side) then [WashCancelled(w.id)] else []
  }

  /** Dictionary lookup. */
  function Find(ws: seq<WorkingOrder>, id: string): Option<WorkingOrder>
    decreases ws
  {
    if ws == [] then None else if ws[0].id == id then Some(ws[0]) else Find(ws[1..], id)
  }

  /** The dictionary's keys, in insertion order. */
  function Ids(ws: seq<WorkingOrder>): seq<string>
    decreases ws
  {
    if ws == [] then [] else [ws[0].id] + Ids(ws[1..])
  }

  lemma {:induction false} RegisterReadsBack(ws: seq<WorkingOrder>, w: WorkingOrder, k: string)
    ensures Find(Register(ws, w), k) == if k == w.id then Some(w) else Find(ws, k)
    ensures Ids(Register(ws, w)) == if Find(ws, w.id).Some? then Ids(ws) else Ids(ws) + [w.id]
    decreases ws
  {
    if ws != [] && ws[0].id != w.id { RegisterReadsBack(ws[1..], w, k); }
  }

  lemma {:induction false} FillReadsBack(ws: seq<WorkingOrder>, id: string, qty: real, ms: real, k: string)
    ensures Ids(OnFill(ws, id, qty, ms)) == Ids(ws)
    ensures var was, now := Find(ws, k), Find(OnFill(ws, id, qty, ms), k);
            if k != id || was.None? then now == was
            else
              var total := was.value.filledQty + qty;
              now == Some(was.value.(filledQty := total, lastFillMs := ms,
                                     status := if total >= was.value.requestedQty then FILLED else was.value.status))
    decreases ws
  {
    if ws != [] && ws[0].id != id { FillReadsBack(ws[1..], id, qty, ms, k); }
  }

  class OrderChaser {
    const chaseTimeoutMs: real
    const rateLimiter: TokenBucketRateLimiter
    var workingOrders: seq<WorkingOrder>
    var deniedActions: nat
    ghost var calls: nat

    ghost function State(): Chaser
      reads this, rateLimiter
    {
      Chaser(workingOrders, rateLimiter.State(), deniedActions, calls)
    }

    constructor (timeoutMs: real, limiter: TokenBucketRateLimiter)
      ensures rateLimiter == limiter && chaseTimeoutMs == timeoutMs && State() == Chaser([], limiter.State(), 0, 0)
    {
      chaseTimeoutMs, rateLimiter, workingOrders, deniedActions, calls := timeoutMs, limiter, [], 0, 0;
    }

    method RegisterOrder(w: WorkingOrder)
      modifies this
      ensures State() == old(State()).(working := workingOrders)
      ensures forall k :: Find(workingOrders, k) == if k == w.id then Some(w) else Find(old(workingOrders), k)
      ensures Ids(workingOrders) ==
              if Find(old(workingOrders), w.id).Some? then Ids(old(workingOrders)) else Ids(old(workingOrders)) + [w.id]
      ensures workingOrders == Register(old(workingOrders), w)
    {
      ghost var was := workingOrders;
      workingOrders := Register(workingOrders, w);
      forall k ensures Find(workingOrders, k) == if k == w.id then Some(w) else Find(was, k) {
        RegisterReadsBack(was, w, k);
      }
      RegisterReadsBack(was, w, w.id);
    }

    method OnFillEvent(id: string, qty: real, ms: real)
      modifies this
      ensures State() == old(State()).(working := workingOrders)
      ensures Ids(workingOrders) == Ids(old(workingOrders))
      ensures forall k :: k != id || Find(old(workingOrders), id).None? ==>
                Find(workingOrders, k) == Find(old(workingOrders), k)
      ensures Find(old(workingOrders), id).Some? ==>
                var was := Find(old(workingOrders), id).value;
                var total := was.filledQty + qty;
                Find(workingOrders, id) == Some(was.(filledQty := total, lastFillMs := ms,
                                                     status := if total >= was.requestedQty
                                                               then FILLED else was.status))
      ensures workingOrders == OnFill(old(workingOrders), id, qty, ms)
    {
      ghost var was := workingOrders;
      workingOrders := OnFill(workingOrders, id, qty, ms);
      forall k | k != id || Find(was, id).None? ensures Find(workingOrders, k) == Find(was, k) {
        FillReadsBack(was, id, qty, ms, k);
      }
      FillReadsBack(was, id, qty, ms, id);
    }

    /** What a submission does to the chaser's orders first: opposing ones are
        cancelled at the venue, without a token from the limiter. */
    method PreventWashTrading(asset: string, side: Side) returns (log: seq<Action>)
      modifies this
      ensures State() == old(State()).(working := AfterSubmission(old(workingOrders), asset, side))
      ensures log == WashCancels(old(workingOrders), asset, side)
      ensures forall w :: w in workingOrders && w.symbol == asset && w.side != side ==> w.status == CANCELED
    {
      hide Opposes, TokenBucketRateLimiter.State;
      log := [];
      ghost var was, goal := workingOrders, AfterSubmission(workingOrders, asset, side);
      for i := 0 to |workingOrders|
        invariant |workingOrders| == |was|
        invariant State() == old(State()).(working := workingOrders)
        invariant forall j :: 0 <= j < |was| ==> workingOrders[j] == if j < i then goal[j] else was[j]
        invariant log == WashCancels(was[..i], asset, side)
      {
        var w := workingOrders[i];
        assert was[..i + 1][..i] == was[..i];
        if Opposes(w, asset, side) {
          log := log + [WashCancelled(w.id)];
          workingOrders := workingOrders[i := w.(status := CANCELED)];
        }
      }
      assert was[..|was|] == was && workingOrders == goal;
      OpposingAreCancelled(was, asset, side);
    }

    static lemma OpposingAreCancelled(ws: seq<WorkingOrder>, asset: string, side: Side)
      ensures forall w :: w in AfterSubmission(ws, asset, side) && w.symbol == asset && w.side != side ==>
                w.status == CANCELED
    {
    }

    /** `times(n)` is the limiter's clock at the n-th call of this scan. */
    method CheckAndChase(nowMs: real, info: string -> Instrument, times: nat -> real, ghost clock: nat -> real)
      returns (log: seq<Action>)
      requires forall n: nat :: times(n) == clock(calls + n)
      modifies this, rateLimiter
      ensures (State(), log) == Scan(old(State()), Outside(nowMs, chaseTimeoutMs, info, clock))
    {
      hide Acquire, BelowMinimum, Visit, TokenBucketRateLimiter.State;
      ghost var env := Outside(nowMs, chaseTimeoutMs, info, clock);
      log := [];
      var kept: seq<WorkingOrder> := [];
      var i, n := 0, 0;
      ghost var whole := Scan(State(), env);
      assert workingOrders[i..] == workingOrders && log + whole.1 == whole.1;
      while i < |workingOrders|
        invariant 0 <= i <= |workingOrders| && workingOrders == old(workingOrders) && calls == old(calls) + n
        invariant var (c, later) := ScanAll(workingOrders[i..], State().(working := kept), env);
                  whole == (c, log + later)
      {
        var w := workingOrders[i];
        ghost var c := State().(working := kept);
        ghost var before := log;
        VisitCases(w, c, env);
        if !Closed(w.status) {
          if nowMs - w.lastFillMs > chaseTimeoutMs {
            var below := BelowMinimum(w, info(w.symbol));
            var acquired := rateLimiter.Take(times(n));
            n, calls := n + 1, calls + 1;
            if !acquired {
              deniedActions := deniedActions + 1;
              log := log + [RateLimitDenied(w.id)];
              kept := kept + [w];
            } else if below {
              log := log + [Abandoned(w.id)];
            } else {
              log := log + [Repriced(w.id)];
              kept := kept + [w.(status := PARTIAL_FILL_FINALIZED)];
            }
          } else {
            kept := kept + [w];
          }
        }
        i := i + 1;
        ghost var first := Visit(w, c, env).1;
        assert State().(working := kept) == Visit(w, c, env).0 && log == before + first;
        ScanStep(old(workingOrders), i - 1, c, env, before);
      }
      assert log + [] == log;
      workingOrders := kept;
    }

    lemma ScanStep(ws: seq<WorkingOrder>, i: nat, c: Chaser, env: Outside, before: seq<Action>)
      requires i < |ws|
      ensures var (d, first) := Visit(ws[i], c, env);
              var (e, later) := ScanAll(ws[i + 1..], d, env);
              ScanAll(ws[i..], c, env) == (e, first + later) && before + (first + later) == before + first + later
    {
      hide Visit;
      assert ws[i..][1..] == ws[i + 1..];
    }

    lemma VisitCases(w: WorkingOrder, c: Chaser, env: Outside)
      ensures Closed(w.status) ==> Visit(w, c, env) == (c, [])
      ensures !Closed(w.status) && env.nowMs - w.lastFillMs <= env.timeoutMs ==>
                Visit(w, c, env) == (c.(working := c.working + [w]), [])
      ensures !Closed(w.status) && env.nowMs - w.lastFillMs > env.timeoutMs ==>
                var (b, ok) := Acquire(c.bucket, env.clock(c.calls));
                var d := c.(bucket := b, calls := c.calls + 1);
                Visit(w, c, env) == if !ok then (d.(working := d.working + [w], denied := d.denied + 1),
                                                 [RateLimitDenied(w.id)])
                                    else if BelowMinimum(w, env.info(w.symbol)) then (d, [Abandoned(w.id)])
                                    else (d.(working := d.working + [w.(status := PARTIAL_FILL_FINALIZED)]),
                                          [Repriced(w.id)])
    {
      hide Acquire, BelowMinimum;
    }
  }
}

/** Rate bound on venue cancels, and at most one chase cancel per registration. */
module ChaseProofs {
  import opened Common
  import opened OrderStateMachine
  import opened Chase

  ghost predicate Sane(b: Bucket) { 0.0 <= b.tokens <= b.capacity && b.rate >= 0.0 }

  ghost predicate Monotone(clock: nat -> real) { forall i: nat, j: nat :: i <= j ==> clock(i) <= clock(j) }

  /** The limiter after being asked at clock(lo), ..., clock(hi - 1), and how often it granted. */
  function Asked(b: Bucket, clock: nat -> real, lo: nat, hi: nat): (Bucket, nat)
    requires lo <= hi
    decreases hi
  {
    if lo == hi then (b, 0)
    else
      var (c, granted) := Asked(b, clock, lo, hi - 1);
      var (d, ok) := Acquire(c, clock(hi - 1));
      (d, granted + if ok then 1 else 0)
  }

  lemma RefillsAdd(rate: real, t0: real, t1: real, t2: real)
    ensures Value(rate, t1 - t0) + Value(rate, t2 - t1) == Value(rate, t2 - t0)
  {
    assert rate * (t1 - t0) + rate * (t2 - t1) == rate * (t2 - t0);
  }

  /** Tokens stay within [0, capacity], and between any two calls, inclusive,
      grants are bounded by capacity + rate * elapsed time. */
  lemma {:induction false} GrantsAreBounded(b: Bucket, clock: nat -> real, lo: nat, hi: nat)
    requires Sane(b) && Monotone(clock) && lo < hi && b.last <= clock(lo)
    ensures var (c, granted) := Asked(b, clock, lo, hi);
      && Sane(c) && c.last == clock(hi - 1) && c.capacity == b.capacity && c.rate == b.rate
      && c.tokens + granted as real <= b.capacity + Value(b.rate, clock(hi - 1) - clock(lo))
    decreases hi
  {
    hide Value;
    NonNegativeValue(b.rate, clock(lo) - b.last);
    NonNegativeValue(b.rate, clock(hi - 1) - clock(lo));
    if lo + 1 == hi {
      assert Asked(b, clock, lo, lo) == (b, 0);
    } else {
      GrantsAreBounded(b, clock, lo, hi - 1);
      NonNegativeValue(b.rate, clock(hi - 1) - clock(hi - 2));
      RefillsAdd(b.rate, clock(lo), clock(hi - 2), clock(hi - 1));
    }
  }

  // -------------------------------------------------------------------------
  // Runs of the chaser
  // -------------------------------------------------------------------------

  datatype Op =
    | RegisterOp(order: WorkingOrder)
    | FillOp(id: string, qty: real, ms: real)
    | ScanOp(nowMs: real, timeoutMs: real, info: string -> Instrument)
    | SubmitOp(asset: string, side: Side)

  function Do(c: Chaser, op: Op, clock: nat -> real): (Chaser, seq<Action>) {
    match op
    case RegisterOp(w) => (c.(working := Register(c.working, w)), [])
    case FillOp(id, qty, ms) => (c.(working := OnFill(c.working, id, qty, ms)), [])
    case ScanOp(now, timeout, info) => Scan(c, Outside(now, timeout, info, clock))
    case SubmitOp(asset, side) =>
      (c.(working := AfterSubmission(c.working, asset, side)), WashCancels(c.working, asset, side))
  }

  function Run(c: Chaser, ops: seq<Op>, clock: nat -> real): (Chaser, seq<Action>)
    decreases ops
  {
    if ops == [] then (c, [])
    else
      var (d, first) := Do(c, ops[0], clock);
      var (e, later) := Run(d, ops[1..], clock);
      (e, first + later)
  }

  /** A cancel sent by the chaser itself. */
  predicate Cancels(a: Action) { a.Abandoned? || a.Repriced? }

  function VenueCancels(log: seq<Action>): nat {
    if log == [] then 0 else (if Cancels(log[0]) then 1 else 0) + VenueCancels(log[1..])
  }

  lemma {:induction false} VenueCancelsConcat(a: seq<Action>, b: seq<Action>)
    ensures VenueCancels(a + b) == VenueCancels(a) + VenueCancels(b)
  {
    if a == [] {
      assert a + b == b;
    } else {
      assert (a + b)[1..] == a[1..] + b;
      VenueCancelsConcat(a[1..], b);
    }
  }

  /** c became d by asking the limiter at every clock index from c.calls to d.calls; `cancels` were granted. */
  ghost predicate AskedInOrder(c: Chaser, d: Chaser, cancels: nat, clock: nat -> real) {
    c.calls <= d.calls && (d.bucket, cancels) == Asked(c.bucket, clock, c.calls, d.calls)
  }

  lemma {:induction false} AskedComposes(b: Bucket, clock: nat -> real, lo: nat, mid: nat, hi: nat)
    requires lo <= mid <= hi
    ensures var (c, g) := Asked(b, clock, lo, mid);
            var (d, h) := Asked(c, clock, mid, hi);
            Asked(b, clock, lo, hi) == (d, g + h)
    decreases hi
  {
    hide Acquire;
    if mid < hi { AskedComposes(b, clock, lo, mid, hi - 1); }
  }

  lemma VisitAsks(w: WorkingOrder, c: Chaser, env: Outside)
    ensures var (d, log) := Visit(w, c, env);
            AskedInOrder(c, d, VenueCancels(log), env.clock)
  {
    hide Acquire, BelowMinimum;
    var (d, log) := Visit(w, c, env);
    if d.calls == c.calls + 1 {
      var (b, ok) := Acquire(c.bucket, env.clock(c.calls));
      assert Asked(c.bucket, env.clock, c.calls, c.calls) == (c.bucket, 0);
      assert Asked(c.bucket, env.clock, c.calls, c.calls + 1) == (b, if ok then 1 else 0);
    }
  }

  lemma {:induction false} ScanAsks(ws: seq<WorkingOrder>, c: Chaser, env: Outside)
    ensures var (d, log) := ScanAll(ws, c, env);
            AskedInOrder(c, d, VenueCancels(log), env.clock)
    decreases ws
  {
    hide Acquire, Visit;
    if ws != [] {
      var (d, first) := Visit(ws[0], c, env);
      var (e, later) := ScanAll(ws[1..], d, env);
      VisitAsks(ws[0], c, env);
      ScanAsks(ws[1..], d, env);
      AskedComposes(c.bucket, env.clock, c.calls, d.calls, e.calls);
      VenueCancelsConcat(first, later);
    }
  }

  lemma {:induction false} RunAsks(c: Chaser, ops: seq<Op>, clock: nat -> real)
    ensures var (d, log) := Run(c, ops, clock);
            AskedInOrder(c, d, VenueCancels(log), clock)
    decreases ops
  {
    hide Acquire, ScanAll, Register, OnFill, AfterSubmission, WashCancels;
    if ops != [] {
      var (d, first) := Do(c, ops[0], clock);
      var (e, later) := Run(d, ops[1..], clock);
      if ops[0].ScanOp? {
        ScanAsks(c.working, c.(working := []), Outside(ops[0].nowMs, ops[0].timeoutMs, ops[0].info, clock));
      } else if ops[0].SubmitOp? {
        WashCancelsAreNotChased(c.working, ops[0].asset, ops[0].side, "");
      }
      RunAsks(d, ops[1..], clock);
      AskedComposes(c.bucket, clock, c.calls, d.calls, e.calls);
      VenueCancelsConcat(first, later);
    }
  }

  /** Over any stretch of any run, whatever submissions come in between, the cancels
      the chaser sends to the venue are bounded by capacity + rate * (time of its
      last limiter call - time of its first). */
  lemma CancelsAreRateLimited(c: Chaser, ops: seq<Op>, clock: nat -> real)
    requires Sane(c.bucket) && Monotone(clock) && c.bucket.last <= clock(c.calls)
    ensures var (d, log) := Run(c, ops, clock);
      && (d.calls == c.calls ==> VenueCancels(log) == 0)
      && (d.calls > c.calls ==>
            VenueCancels(log) as real <= c.bucket.capacity + Value(c.bucket.rate, clock(d.calls - 1) - clock(c.calls)))
      && Sane(d.bucket) && d.bucket.last <= clock(d.calls)
  {
    hide Run, Value, Acquire;
    RunAsks(c, ops, clock);
    var (d, log) := Run(c, ops, clock);
    if d.calls > c.calls { GrantsAreBounded(c.bucket, clock, c.calls, d.calls); }
  }

  // -------------------------------------------------------------------------
  // At most once
  // -------------------------------------------------------------------------

  function CancelsOf(log: seq<Action>, id: string): nat {
    if log == [] then 0 else (if Cancels(log[0]) && log[0].id == id then 1 else 0) + CancelsOf(log[1..], id)
  }

  lemma {:induction false} CancelsOfConcat(a: seq<Action>, b: seq<Action>, id: string)
    ensures CancelsOf(a + b, id) == CancelsOf(a, id) + CancelsOf(b, id)
  {
    if a == [] {
      assert a + b == b;
    } else {
      assert (a + b)[1..] == a[1..] + b;
      CancelsOfConcat(a[1..], b, id);
    }
  }

  /** How many tracked entries of this id could still be cancelled. */
  function Pending(ws: seq<WorkingOrder>, id: string): nat {
    if ws == [] then 0 else (if ws[0].id == id && !Closed(ws[0].status) then 1 else 0) + Pending(ws[1..], id)
  }

  lemma {:induction false} PendingConcat(a: seq<WorkingOrder>, b: seq<WorkingOrder>, id: string)
    ensures Pending(a + b, id) == Pending(a, id) + Pending(b, id)
  {
    if a == [] {
      assert a + b == b;
    } else {
      assert (a + b)[1..] == a[1..] + b;
      PendingConcat(a[1..], b, id);
    }
  }

  lemma VisitUsesUpPending(w: WorkingOrder, c: Chaser, env: Outside, id: string)
    ensures var (d, log) := Visit(w, c, env);
            CancelsOf(log, id) + Pending(d.working, id) == Pending(c.working, id) + Pending([w], id)
  {
    hide Acquire, BelowMinimum;
    PendingConcat(c.working, [w], id);
    var closed := w.(status := PARTIAL_FILL_FINALIZED);
    PendingConcat(c.working, [closed], id);
    assert Pending([closed], id) == 0 && Pending([w], id) == if w.id == id && !Closed(w.status) then 1 else 0;
  }

  lemma {:induction false} ScanUsesUpPending(ws: seq<WorkingOrder>, c: Chaser, env: Outside, id: string)
    ensures var (d, log) := ScanAll(ws, c, env);
            CancelsOf(log, id) + Pending(d.working, id) == Pending(c.working, id) + Pending(ws, id)
    decreases ws
  {
    hide Visit;
    if ws != [] {
      var (d, first) := Visit(ws[0], c, env);
      var (e, later) := ScanAll(ws[1..], d, env);
      VisitUsesUpPending(ws[0], c, env, id);
      ScanUsesUpPending(ws[1..], d, env, id);
      CancelsOfConcat(first, later, id);
      PendingConcat([ws[0]], ws[1..], id);
      assert [ws[0]] + ws[1..] == ws;
    }
  }

  function Registrations(ops: seq<Op>, id: string): nat {
    if ops == [] then 0
    else (if ops[0].RegisterOp? && ops[0].order.id == id then 1 else 0) + Registrations(ops[1..], id)
  }

  lemma {:induction false} RegisterAddsOne(ws: seq<WorkingOrder>, w: WorkingOrder, id: string)
    ensures Pending(Register(ws, w), id) <= Pending(ws, id) + if w.id == id then 1 else 0
    decreases ws
  {
    if ws != [] && ws[0].id != w.id { RegisterAddsOne(ws[1..], w, id); }
  }

  lemma {:induction false} FillAddsNone(ws: seq<WorkingOrder>, id: string, qty: real, ms: real, k: string)
    ensures Pending(OnFill(ws, id, qty, ms), k) <= Pending(ws, k)
    decreases ws
  {
    if ws != [] && ws[0].id != id { FillAddsNone(ws[1..], id, qty, ms, k); }
  }

  lemma {:induction false} WashCancelsAreNotChased(ws: seq<WorkingOrder>, asset: string, side: Side, id: string)
    ensures VenueCancels(WashCancels(ws, asset, side)) == 0 && CancelsOf(WashCancels(ws, asset, side), id) == 0
  {
    if ws != [] {
      var n := |ws| - 1;
      WashCancelsAreNotChased(ws[..n], asset, side, id);
      var last := if Opposes(ws[n], asset, side) then [WashCancelled(ws[n].id)] else [];
      VenueCancelsConcat(WashCancels(ws[..n], asset, side), last);
      CancelsOfConcat(WashCancels(ws[..n], asset, side), last, id);
    }
  }

  lemma {:induction false} EveryOpposingIsCancelled(ws: seq<WorkingOrder>, asset: string, side: Side)
    ensures forall w :: w in ws && Opposes(w, asset, side) ==> WashCancelled(w.id) in WashCancels(ws, asset, side)
    ensures WashCancels(ws, asset, side) == [] <==> forall w :: w in ws ==> !Opposes(w, asset, side)
  {
    hide Opposes;
    if ws != [] {
      var n := |ws| - 1;
      EveryOpposingIsCancelled(ws[..n], asset, side);
      assert ws == ws[..n] + [ws[n]];
    }
  }

  /** The bound is the chaser's alone: a submission that meets opposing orders sends
      a cancel for each of them and leaves the limiter as it was. */
  lemma SubmissionsAskNoLimiter(c: Chaser, asset: string, side: Side, clock: nat -> real)
    ensures var (d, log) := Do(c, SubmitOp(asset, side), clock);
      && d.bucket == c.bucket && d.calls == c.calls
      && (forall w :: w in c.working && w.symbol == asset && w.side != side ==> WashCancelled(w.id) in log)
      && (log == [] <==> forall w :: w in c.working && w.symbol == asset ==> w.side == side)
      && |d.working| == |c.working|
      && (forall i :: 0 <= i < |c.working| ==>
            var w := c.working[i];
            d.working[i] == if w.symbol == asset && w.side != side then w.(status := CANCELED) else w)
  {
    EveryOpposingIsCancelled(c.working, asset, side);
  }

  lemma {:induction false} SubmissionAddsNone(ws: seq<WorkingOrder>, asset: string, side: Side, id: string)
    ensures Pending(AfterSubmission(ws, asset, side), id) <= Pending(ws, id)
    decreases ws
  {
    if ws != [] {
      SubmissionAddsNone(ws[1..], asset, side, id);
      assert AfterSubmission(ws, asset, side)[1..] == AfterSubmission(ws[1..], asset, side);
    }
  }

  /** Over every run the chaser cancels an id at most as often as it was
      registered: once per registration, never twice. */
  lemma {:induction false} CancelledAtMostOncePerRegistration(c: Chaser, ops: seq<Op>, clock: nat -> real, id: string)
    ensures var (d, log) := Run(c, ops, clock);
            CancelsOf(log, id) + Pending(d.working, id) <= Pending(c.working, id) + Registrations(ops, id)
    decreases ops
  {
    hide ScanAll, Register, OnFill;
    if ops != [] {
      var (d, first) := Do(c, ops[0], clock);
      var (e, later) := Run(d, ops[1..], clock);
      match ops[0] {
        case RegisterOp(w) => RegisterAddsOne(c.working, w, id);
        case FillOp(k, qty, ms) => FillAddsNone(c.working, k, qty, ms, id);
        case ScanOp(now, timeout, info) =>
          ScanUsesUpPending(c.working, c.(working := []), Outside(now, timeout, info, clock), id);
        case SubmitOp(asset, side) =>
          WashCancelsAreNotChased(c.working, asset, side, id);
          SubmissionAddsNone(c.working, asset, side, id);
      }
      CancelledAtMostOncePerRegistration(d, ops[1..], clock, id);
      CancelsOfConcat(first, later, id);
    }
  }

  // -------------------------------------------------------------------------
  // Nothing is withheld
  // -------------------------------------------------------------------------

  /** While nothing is granted nothing is lost: the tokens are what was there plus the
      whole refill since, and that is less than one. So a call that comes when a token
      is due is granted. */
  lemma {:induction false} DenialsMeanNoToken(b: Bucket, clock: nat -> real, lo: nat, hi: nat)
    requires Sane(b) && b.capacity >= 1.0 && Monotone(clock) && lo < hi && b.last <= clock(lo)
    requires Asked(b, clock, lo, hi).1 == 0
    ensures var c := Asked(b, clock, lo, hi).0;
      && c.tokens == b.tokens + Value(b.rate, clock(hi - 1) - b.last) < 1.0
      && c.denied == b.denied + (hi - lo) && c.capacity == b.capacity && c.rate == b.rate && c.last == clock(hi - 1)
    decreases hi
  {
    hide Value;
    if lo + 1 == hi {
      assert Asked(b, clock, lo, lo) == (b, 0);
    } else {
      DenialsMeanNoToken(b, clock, lo, hi - 1);
      RefillsAdd(b.rate, b.last, clock(hi - 2), clock(hi - 1));
    }
  }

  lemma DueTokenIsGranted(b: Bucket, now: real)
    requires b.capacity >= 1.0 && b.tokens + Value(b.rate, now - b.last) >= 1.0
    ensures var (c, ok) := Acquire(b, now);
            ok && c.denied == b.denied && c.tokens <= b.capacity - 1.0
  {
    hide Value;
  }

  // -------------------------------------------------------------------------
  // What a scan does to whom
  // -------------------------------------------------------------------------

  predicate StillOpen(w: WorkingOrder) {
    w.status != FILLED && w.status != CANCELED && w.status != REJECTED && w.status != PARTIAL_FILL_FINALIZED
  }

  /** Open, and not filled for longer than the timeout. */
  predicate Stale(w: WorkingOrder, env: Outside) { StillOpen(w) && env.nowMs - w.lastFillMs > env.timeoutMs }

  /** What is left of the order is worth less than the instrument's minimum, or is less of it. */
  predicate TooSmall(w: WorkingOrder, info: Instrument) {
    || Value(w.requestedQty - w.filledQty, w.price) < info.minNotional
    || w.requestedQty - w.filledQty < info.minQty
  }

  /** The scan had reason for this action: it is about a stale order, abandoned if too small and repriced if not. */
  ghost predicate Justified(a: Action, ws: seq<WorkingOrder>, env: Outside) {
    exists w :: w in ws && Stale(w, env) && a.id == w.id
                && match a
                   case RateLimitDenied(_) => true
                   case Abandoned(_) => TooSmall(w, env.info(w.symbol))
                   case Repriced(_) => !TooSmall(w, env.info(w.symbol))
                   case WashCancelled(_) => false
  }

  /** What is tracked afterwards was open before, or has just been repriced. */
  ghost predicate Explained(w: WorkingOrder, ws: seq<WorkingOrder>, env: Outside) {
    || (w in ws && StillOpen(w))
    || exists v :: v in ws && Stale(v, env) && !TooSmall(v, env.info(v.symbol))
                   && w == v.(status := PARTIAL_FILL_FINALIZED)
  }

  /** What becomes of a stale order: denied a token it stays as it is; with one it is
      abandoned if too small, and otherwise stays tracked with its remainder closed. */
  ghost predicate Followed(w: WorkingOrder, working: seq<WorkingOrder>, log: seq<Action>, env: Outside) {
    || (RateLimitDenied(w.id) in log && w in working)
    || (Abandoned(w.id) in log && TooSmall(w, env.info(w.symbol)))
    || (Repriced(w.id) in log && w.(status := PARTIAL_FILL_FINALIZED) in working)
  }

  lemma StillFollowed(w: WorkingOrder, working: seq<WorkingOrder>, log: seq<Action>, env: Outside,
                      more: seq<WorkingOrder>, before: seq<Action>, after: seq<Action>)
    requires Followed(w, working, log, env) && working <= more
    ensures Followed(w, more, before + log + after, env)
  {
    assert forall x :: x in working ==> x in more;
  }

  function Denials(log: seq<Action>): nat {
    if log == [] then 0 else (if log[0].RateLimitDenied? then 1 else 0) + Denials(log[1..])
  }

  lemma VisitIsJustified(w: WorkingOrder, c: Chaser, env: Outside)
    ensures var (d, log) := Visit(w, c, env);
      && c.working <= d.working
      && (StillOpen(w) && !Stale(w, env) ==> d.working == c.working + [w])
      && (Stale(w, env) ==> Followed(w, d.working, log, env))
      && (forall k :: |c.working| <= k < |d.working| ==> Explained(d.working[k], [w], env))
      && (forall a :: a in log ==> Justified(a, [w], env))
      && |log| == (if Stale(w, env) then 1 else 0) && d.calls == c.calls + |log|
      && d.denied == c.denied + Denials(log)
  {
    hide Acquire;
    assert w in [w];
  }

  lemma WidenReasons(ws: seq<WorkingOrder>, more: seq<WorkingOrder>, env: Outside, a: Action, w: WorkingOrder)
    requires forall v :: v in ws ==> v in more
    ensures Justified(a, ws, env) ==> Justified(a, more, env)
    ensures Explained(w, ws, env) ==> Explained(w, more, env)
  {
  }

  lemma {:induction false} DenialsConcat(a: seq<Action>, b: seq<Action>)
    ensures Denials(a + b) == Denials(a) + Denials(b)
  {
    if a == [] {
      assert a + b == b;
    } else {
      assert (a + b)[1..] == a[1..] + b;
      DenialsConcat(a[1..], b);
    }
  }

  function StaleOnes(ws: seq<WorkingOrder>, env: Outside): nat
    decreases ws
  {
    if ws == [] then 0 else (if Stale(ws[0], env) then 1 else 0) + StaleOnes(ws[1..], env)
  }

  /** The scan over a list, as far as its entries are concerned. */
  ghost predicate ScanIsSound(ws: seq<WorkingOrder>, c: Chaser, d: Chaser, log: seq<Action>, env: Outside) {
    && c.working <= d.working
    && (forall w :: w in ws && StillOpen(w) && !Stale(w, env) ==> w in d.working)
    && (forall w :: w in ws && Stale(w, env) ==> Followed(w, d.working, log, env))
    && (forall k :: |c.working| <= k < |d.working| ==> Explained(d.working[k], ws, env))
    && (forall a :: a in log ==> Justified(a, ws, env))
    && |log| == StaleOnes(ws, env) && d.calls == c.calls + |log| && d.denied == c.denied + Denials(log)
  }

  lemma {:induction false} ScanAllIsSound(ws: seq<WorkingOrder>, c: Chaser, env: Outside)
    ensures var (d, log) := ScanAll(ws, c, env); ScanIsSound(ws, c, d, log, env)
    decreases ws
  {
    hide Visit, Justified, Explained, Stale, StillOpen, Denials, Followed;
    if ws == [] {
      NoDenials();
    } else {
      var (d, first) := Visit(ws[0], c, env);
      var (e, later) := ScanAll(ws[1..], d, env);
      VisitIsJustified(ws[0], c, env);
      ScanAllIsSound(ws[1..], d, env);
      DenialsConcat(first, later);
      forall a | a in first + later ensures Justified(a, ws, env) {
        WidenReasons([ws[0]], ws, env, a, ws[0]);
        WidenReasons(ws[1..], ws, env, a, ws[0]);
      }
      forall k | |c.working| <= k < |e.working| ensures Explained(e.working[k], ws, env) {
        if k < |d.working| {
          WidenReasons([ws[0]], ws, env, Repriced(""), e.working[k]);
        } else {
          WidenReasons(ws[1..], ws, env, Repriced(""), e.working[k]);
        }
      }
      forall w | w in ws && StillOpen(w) && !Stale(w, env) ensures w in e.working {
        if w == ws[0] { assert e.working[|c.working|] == w; }
      }
      assert [] + first + later == first + later && first + later + [] == first + later;
      forall w | w in ws && Stale(w, env) ensures Followed(w, e.working, first + later, env) {
        if w == ws[0] {
          StillFollowed(w, d.working, first, env, e.working, [], later);
        } else {
          StillFollowed(w, e.working, later, env, e.working, first, []);
        }
      }
    }
  }

  lemma NoDenials()
    ensures Denials([]) == 0
  {
  }

  /** One scan, told by its effects: an open order within the timeout stays as it is; every
      stale one asks the limiter once and is logged once, cancelled only for the reason
      logged; and nothing is tracked that was not open before or repriced just now. */
  lemma ScanTouchesOnlyStale(c: Chaser, env: Outside)
    ensures var (d, log) := Scan(c, env);
      && (forall w :: w in c.working && StillOpen(w) && env.nowMs - w.lastFillMs <= env.timeoutMs ==> w in d.working)
      && (forall w :: w in c.working && Stale(w, env) ==> Followed(w, d.working, log, env))
      && (forall w :: w in d.working ==> Explained(w, c.working, env))
      && (forall a :: a in log ==> Justified(a, c.working, env))
      && |log| == StaleOnes(c.working, env) && d.calls == c.calls + |log| && d.denied == c.denied + Denials(log)
  {
    hide ScanAll, Explained, Justified, Denials, Followed;
    ScanAllIsSound(c.working, c.(working := []), env);
  }
}
