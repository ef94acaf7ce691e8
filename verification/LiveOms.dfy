/** The live order management system: state transitions, cumulative fills,
    positions, and idempotent submission. The venue's replies, data staleness
    and the shadow fill arrive as arguments. */
module LiveOms {
  import opened Common
  import opened OrderStateMachine
  import Chase

  /** A record registered by a late finalization has no side. */
  datatype Record = Record(asset: string, side: Option<Side>, intended: real)

  datatype Deviation = Deviation(
    id: string, asset: string, intendedQty: real, realizedQty: real, intendedRisk: real, realizedRisk: real)

  datatype Oms = Oms(
    active: map<string, OrderState>, records: map<string, Record>, fills: map<string, real>,
    positions: map<string, real>, deviations: seq<Deviation>)

  datatype Result = Ok(state: OrderState) | IllegalTransition | UnknownOrderFill | KeyError | VenueError

  datatype Order = Order(asset: string, side: Side, size: real)

  /** How the venue answers a status query: no such order, open, or something else. */
  datatype Existing = Absent | Open | Closed

  datatype Mode =
    | Live(existing: Existing, createSucceeds: bool)
    | ShadowAgainstBook(filledQty: real)
    | ShadowWithoutBook

  function Get(m: map<string, real>, k: string): real { if k in m then m[k] else 0.0 }

  /** Fills move a position up for a long order and down for a short one. */
  function Signed(side: Side, qty: real): real { if side == Long then qty else -qty }

  function Intended(o: Oms, id: string): Option<real> {
    if id in o.records then Some(o.records[id].intended) else None
  }

  // -------------------------------------------------------------------------
  // Transitions
  // -------------------------------------------------------------------------

  function Commit(o: Oms, id: string, s: OrderState, fillQty: Option<real>): Oms {
    o.(active := o.active[id := s],
       fills := if fillQty.Some? then o.fills[id := Get(o.fills, id) + fillQty.value] else o.fills)
  }

  /** Applies an event; from CREATED an otherwise illegal event is retried after
      an implicit submission, which stays behind even if the retry fails. */
  function Move(o: Oms, id: string, e: EventType, fillQty: Option<real>): (Oms, Result) {
    var current := if id in o.active then o.active[id] else CREATED;
    var next := Transition(current, e, fillQty, Intended(o, id), Get(o.fills, id));
    if next.Some? then (Commit(o, id, next.value, fillQty), Ok(next.value))
    else if current == CREATED then
      var hop := o.(active := o.active[id := SUBMITTED]);
      var retry := Transition(SUBMITTED, e, fillQty, Intended(o, id), Get(o.fills, id));
      if retry.Some? then (Commit(hop, id, retry.value, fillQty), Ok(retry.value)) else (hop, IllegalTransition)
    else (o, IllegalTransition)
  }

  /** Decimal truncation onto the venue's grid. */
  function Quantize(size: real, step: real): real
    requires step > 0.0
  {
    if size >= 0.0 then (size / step).Floor as real * step else -((-size / step).Floor as real * step)
  }

  function Register(o: Oms, id: string, order: Order, size: real): Oms {
    if id in o.records then o
    else o.(records := o.records[id := Record(order.asset, Some(order.side), size)])
  }

  function Route(o: Oms, id: string, size: real, mode: Mode): (Oms, Result) {
    match mode
    case ShadowAgainstBook(qty) =>
      if qty > 0.0 then Move(o, id, Fill, Some(qty)) else Move(o, id, Rejected, None)
    case ShadowWithoutBook => Move(o, id, Fill, Some(size))
    case Live(Open, _) => Move(o, id, Acked, None)
    case Live(Closed, _) => Move(o, id, Fill, Some(size))
    case Live(Absent, true) =>
      var (p, r) := Move(o, id, Submitted, None);
      if r.Ok? then (p, r)
      else
        var (q, rejected) := Move(p, id, Rejected, None);
        (q, IllegalTransition)
    case Live(Absent, false) =>
      var (p, r) := Move(o, id, Rejected, None);
      (p, if r.Ok? then VenueError else r)
  }

  function Submit(o: Oms, id: string, order: Order, step: Option<real>, stale: bool, mode: Mode): (Oms, Result)
    requires step.Some? ==> step.value > 0.0
  {
    var size := if step.Some? then Quantize(order.size, step.value) else order.size;
    if step.Some? && size <= 0.0 then Move(o, id, Rejected, None)
    else
      var p := Register(o, id, order, size);
      if stale then Move(p, id, Rejected, None) else Route(p, id, size, mode)
  }

  function ApplyFill(o: Oms, id: string, qty: real): (Oms, Result) {
    if id !in o.records || id !in o.active then (o, UnknownOrderFill)
    else if o.records[id].side.None? then (o, KeyError)
    else
      var asset := o.records[id].asset;
      var (p, r) := Move(o, id, Fill, Some(qty));
      if !r.Ok? then (p, r)
      else (p.(positions := p.positions[asset := Get(p.positions, asset) + Signed(o.records[id].side.value, qty)]), r)
  }

  function CancelOrder(o: Oms, id: string): (Oms, Result) {
    if id !in o.active then (o, KeyError)
    else
      var next := Transition(o.active[id], Cancel, None, None, 0.0);
      if next.None? then (o, IllegalTransition)
      else (o.(active := o.active[id := next.value]), Ok(next.value))
  }

  function Tracked(o: Oms, id: string, asset: string, intended: real): Oms {
    var p := if id in o.records then o else o.(records := o.records[id := Record(asset, None, intended)]);
    if id in p.active then p else p.(active := p.active[id := SUBMITTED])
  }

  function Finalize(o: Oms, id: string, filled: real, intended: real, stop: real, asset: string, entry: real): Oms {
    var p := Tracked(o, id, asset, intended);
    var q := if p.active[id] == CREATED || p.active[id] == SUBMITTED then Move(p, id, Fill, Some(filled)).0 else p;
    var next := Transition(q.active[id], PartialFillFinalized, None, None, 0.0);
    var dist := if entry > 0.0 then Abs(entry - stop) else 1.0;
    q.(active := q.active[id := if next.Some? then next.value else q.active[id]],
       fills := q.fills[id := Max(Get(q.fills, id), filled)],
       deviations := q.deviations + [Deviation(id, asset, intended, filled, Value(intended, dist),
                                               Value(filled, dist))])
  }

  class OrderManagementSystem {
    const instruments: map<string, real>
    const chaser: Chase.OrderChaser?
    var activeOrders: map<string, OrderState>
    var orderRecords: map<string, Record>
    var orderFills: map<string, real>
    var positions: map<string, real>
    var riskDeviations: seq<Deviation>

    ghost function State(): Oms
      reads this
    {
      Oms(activeOrders, orderRecords, orderFills, positions, riskDeviations)
    }

    function StepFor(asset: string): Option<real> { if asset in instruments then Some(instruments[asset]) else None }

    /** Instrument steps are positive. */
    ghost predicate Valid() { forall a :: a in instruments ==> instruments[a] > 0.0 }

    constructor (instruments: map<string, real>, chaser: Chase.OrderChaser?)
      requires forall a :: a in instruments ==> instruments[a] > 0.0
      ensures Valid() && this.instruments == instruments && this.chaser == chaser
      ensures State() == Oms(map[], map[], map[], map[], [])
    {
      this.instruments, this.chaser := instruments, chaser;
      activeOrders, orderRecords, orderFills, positions, riskDeviations := map[], map[], map[], map[], [];
    }

    method DoTransition(id: string, e: EventType, fillQty: Option<real>) returns (r: Result)
      modifies this`activeOrders, this`orderFills
      ensures (State(), r) == Move(old(State()), id, e, fillQty)
    {
      hide Transition, Move;
      MoveCases(State(), id, e, fillQty);
      var current := if id in activeOrders then activeOrders[id] else CREATED;
      var intended := if id in orderRecords then Some(orderRecords[id].intended) else None;
      var next := Transition(current, e, fillQty, intended, Get(orderFills, id));
      if next.None? {
        if current != CREATED { return IllegalTransition; }
        activeOrders := activeOrders[id := SUBMITTED];
        next := Transition(SUBMITTED, e, fillQty, intended, Get(orderFills, id));
        if next.None? { return IllegalTransition; }
      }
      activeOrders := activeOrders[id := next.value];
      if fillQty.Some? { orderFills := orderFills[id := Get(orderFills, id) + fillQty.value]; }
      r := Ok(next.value);
    }

    static lemma MoveCases(o: Oms, id: string, e: EventType, fillQty: Option<real>)
      ensures var current := if id in o.active then o.active[id] else CREATED;
              var next := Transition(current, e, fillQty, Intended(o, id), Get(o.fills, id));
              var retry := Transition(SUBMITTED, e, fillQty, Intended(o, id), Get(o.fills, id));
              var hop := o.(active := o.active[id := SUBMITTED]);
              && (next.Some? ==> Move(o, id, e, fillQty) == (Commit(o, id, next.value, fillQty), Ok(next.value)))
              && (next.None? && current != CREATED ==> Move(o, id, e, fillQty) == (o, IllegalTransition))
              && (next.None? && current == CREATED ==>
                    Move(o, id, e, fillQty) ==
                      if retry.Some? then (Commit(hop, id, retry.value, fillQty), Ok(retry.value))
                      else (hop, IllegalTransition))
    {
      hide Transition, Commit;
    }

    /** The order's size is not below the smallest lot its venue trades. */
    predicate OnGrid(order: Order)
      requires Valid()
    {
      order.asset in instruments ==> Quantize(order.size, instruments[order.asset]) > 0.0
    }

    /** Before an order on the grid goes anywhere, the chaser's orders that oppose it
        are cancelled at the venue; `cancels` are the cancels sent. */
    method SubmitOrder(order: Order, id: string, stale: bool, mode: Mode)
      returns (r: Result, cancels: seq<Chase.Action>)
      requires Valid()
      modifies this, if chaser != null then {chaser} else {}
      ensures (State(), r) == Submit(old(State()), id, order, StepFor(order.asset), stale, mode)
      ensures chaser == null || !OnGrid(order) ==> cancels == []
      ensures chaser != null && !OnGrid(order) ==> chaser.State() == old(chaser.State())
      ensures chaser != null && OnGrid(order) ==>
                && cancels == Chase.WashCancels(old(chaser.workingOrders), order.asset, order.side)
                && chaser.State() == old(chaser.State()).(
                     working := Chase.AfterSubmission(old(chaser.workingOrders), order.asset, order.side))
                && forall w :: w in chaser.workingOrders && w.symbol == order.asset && w.side != order.side ==>
                     w.status == CANCELED
    {
      hide Move, Quantize, Chase.AfterSubmission, Chase.WashCancels, Chase.Opposes;
      cancels := [];
      var size := order.size;
      if order.asset in instruments {
        size := Quantize(order.size, instruments[order.asset]);
        if size <= 0.0 { r := DoTransition(id, Rejected, None); return; }
      }
      if id !in orderRecords { orderRecords := orderRecords[id := Record(order.asset, Some(order.side), size)]; }
      if chaser != null { cancels := chaser.PreventWashTrading(order.asset, order.side); }
      if stale { r := DoTransition(id, Rejected, None); return; }
      match mode
      case ShadowAgainstBook(qty) =>
        if qty > 0.0 { r := DoTransition(id, Fill, Some(qty)); } else { r := DoTransition(id, Rejected, None); }
      case ShadowWithoutBook => r := DoTransition(id, Fill, Some(size));
      case Live(Open, _) => r := DoTransition(id, Acked, None);
      case Live(Closed, _) => r := DoTransition(id, Fill, Some(size));
      case Live(Absent, true) =>
        r := DoTransition(id, Submitted, None);
        if !r.Ok? {
          var _ := DoTransition(id, Rejected, None);
          r := IllegalTransition;
        }
      case Live(Absent, false) =>
        r := DoTransition(id, Rejected, None);
        if r.Ok? { r := VenueError; }
    }

    method ApplyExchangeFill(id: string, qty: real) returns (r: Result)
      modifies this
      ensures (State(), r) == ApplyFill(old(State()), id, qty)
    {
      hide Move;
      if id !in orderRecords || id !in activeOrders { return UnknownOrderFill; }
      var record := orderRecords[id];
      if record.side.None? { return KeyError; }
      ghost var moved := Move(State(), id, Fill, Some(qty)).0;
      r := DoTransition(id, Fill, Some(qty));
      assert State() == moved;
      if !r.Ok? { return; }
      positions := positions[record.asset := Get(positions, record.asset) + Signed(record.side.value, qty)];
    }

    method Cancel(id: string) returns (r: Result)
      modifies this`activeOrders
      ensures (State(), r) == CancelOrder(old(State()), id)
    {
      if id !in activeOrders { return KeyError; }
      var next := Transition(activeOrders[id], EventType.Cancel, None, None, 0.0);
      if next.None? { return IllegalTransition; }
      activeOrders := activeOrders[id := next.value];
      r := Ok(next.value);
    }

    method FinalizePartialFill(id: string, filled: real, intended: real, stop: real, asset: string, entry: real)
      modifies this
      ensures State() == Finalize(old(State()), id, filled, intended, stop, asset, entry)
    {
      hide Move, Value;
      if id !in orderRecords { orderRecords := orderRecords[id := Record(asset, None, intended)]; }
      if id !in activeOrders { activeOrders := activeOrders[id := SUBMITTED]; }
      assert State() == Tracked(old(State()), id, asset, intended);
      ghost var q := State();
      if activeOrders[id] == CREATED || activeOrders[id] == SUBMITTED {
        MoveKeepsOrder(State(), id, Fill, Some(filled));
        q := Move(State(), id, Fill, Some(filled)).0;
        var _ := DoTransition(id, Fill, Some(filled));
      }
      assert State() == q;
      var next := Transition(activeOrders[id], PartialFillFinalized, None, None, 0.0);
      activeOrders := activeOrders[id := if next.Some? then next.value else activeOrders[id]];
      orderFills := orderFills[id := Max(Get(orderFills, id), filled)];
      var dist := if entry > 0.0 then Abs(entry - stop) else 1.0;
      riskDeviations := riskDeviations + [Deviation(id, asset, intended, filled, Value(intended, dist),
                                                    Value(filled, dist))];
    }
  }

  lemma MoveKeepsOrder(o: Oms, id: string, e: EventType, fillQty: Option<real>)
    ensures id in o.active ==> id in Move(o, id, e, fillQty).0.active
    ensures Move(o, id, e, fillQty).0.records == o.records
  {
  }
}

/** Bookkeeping invariants of the live OMS over every run. */
module LiveOmsProofs {
  import opened Common
  import opened OrderStateMachine
  import opened LiveOms

  datatype Op =
    | SubmitOp(id: string, order: Order, step: Option<real>, stale: bool, mode: Mode)
    | FillOp(id: string, qty: real)
    | CancelOp(id: string)
    | FinalizeOp(id: string, filled: real, intended: real, stop: real, asset: string, entry: real)

  const EMPTY := Oms(map[], map[], map[], map[], [])

  /** Quantities are positive; a finalized order may have filled nothing. */
  ghost predicate Positive(op: Op) {
    match op
    case SubmitOp(_, order, step, _, mode) =>
      order.size > 0.0 && (step.Some? ==> step.value > 0.0) && (mode.ShadowAgainstBook? ==> mode.filledQty >= 0.0)
    case FillOp(_, qty) => qty > 0.0
    case CancelOp(_) => true
    case FinalizeOp(_, filled, intended, _, _, _) => filled >= 0.0 && intended > 0.0
  }

  ghost function Do(o: Oms, op: Op): Oms
    requires Positive(op)
  {
    match op
    case SubmitOp(id, order, step, stale, mode) => Submit(o, id, order, step, stale, mode).0
    case FillOp(id, qty) => ApplyFill(o, id, qty).0
    case CancelOp(id) => CancelOrder(o, id).0
    case FinalizeOp(id, filled, intended, stop, asset, entry) => Finalize(o, id, filled, intended, stop, asset, entry)
  }

  ghost function Run(o: Oms, ops: seq<Op>): Oms
    requires forall i :: 0 <= i < |ops| ==> Positive(ops[i])
  {
    if ops == [] then o
    else
      assert Positive(ops[|ops| - 1]);
      Do(Run(o, ops[..|ops| - 1]), ops[|ops| - 1])
  }

  /** What one order's state says about its fills. */
  ghost predicate Agrees(s: OrderState, filled: real, intended: real) {
    && s != CREATED
    && (s == FILLED ==> filled >= intended)
    && (s == PARTIALLY_FILLED ==> filled < intended)
  }

  ghost predicate OrderOk(o: Oms, id: string) {
    && (id in o.records ==> o.records[id].intended > 0.0)
    && (id in o.fills ==> o.fills[id] >= 0.0 && id in o.records)
    && (id in o.active ==>
          if id in o.records then Agrees(o.active[id], Get(o.fills, id), o.records[id].intended)
          else o.active[id] == REJECTED)
  }

  ghost predicate Inv(o: Oms) { forall id :: OrderOk(o, id) }

  /** Orders in a terminal state stay in it. */
  ghost predicate TerminalKept(o: Oms, p: Oms) {
    forall id :: id in o.active && Terminal(o.active[id]) ==> id in p.active && p.active[id] == o.active[id]
  }

  /** A fill of a recorded order, or any event that carries no quantity and is not a fill. */
  ghost predicate Sound(o: Oms, id: string, e: EventType, fillQty: Option<real>) {
    if e == Fill then fillQty.Some? && fillQty.value >= 0.0 && id in o.records
    else fillQty.None? && (e == Rejected || (id in o.records && (e == Acked || e == Submitted)))
  }

  /** A move either commits the table's answer or, for an order already known, changes nothing. */
  lemma MoveShape(o: Oms, id: string, e: EventType, fillQty: Option<real>)
    requires id in o.active ==> o.active[id] != CREATED
    ensures var (p, r) := Move(o, id, e, fillQty);
      && (r.Ok? ==> p == Commit(o, id, r.state, fillQty))
      && (r.Ok? ==> Target(e, fillQty, Intended(o, id), Get(o.fills, id)) == Some(r.state))
      && (r.Ok? && id in o.active ==> !Terminal(o.active[id]))
      && (!r.Ok? && id in o.active ==> p == o)
      && (id !in o.active && e in {Fill, Acked, Submitted, Rejected} ==> r.Ok?)
  {
    var hop := o.(active := o.active[id := SUBMITTED]);
    forall s ensures Commit(hop, id, s, fillQty) == Commit(o, id, s, fillQty) {
      assert hop.active[id := s] == o.active[id := s];
    }
    if id in o.active { LifeMovesForward(o.active[id], e, fillQty, Intended(o, id), Get(o.fills, id)); }
  }

  lemma CommitKeepsInv(o: Oms, id: string, s: OrderState, fillQty: Option<real>)
    requires Inv(o) && OrderOk(Commit(o, id, s, fillQty), id)
    ensures Inv(Commit(o, id, s, fillQty))
  {
    var p := Commit(o, id, s, fillQty);
    forall k ensures OrderOk(p, k) {
      assert OrderOk(o, k);
      assert k != id ==> Get(p.fills, k) == Get(o.fills, k);
    }
  }

  lemma MoveKeepsInv(o: Oms, id: string, e: EventType, fillQty: Option<real>)
    requires Inv(o) && Sound(o, id, e, fillQty)
    ensures Inv(Move(o, id, e, fillQty).0) && TerminalKept(o, Move(o, id, e, fillQty).0)
    ensures Move(o, id, e, fillQty).0.records == o.records
    ensures Move(o, id, e, fillQty).0.positions == o.positions
    ensures id in o.active && !Move(o, id, e, fillQty).1.Ok? ==> Move(o, id, e, fillQty).0 == o
    ensures id !in o.active ==> Move(o, id, e, fillQty).1.Ok?
  {
    hide Move, Terminal, Inv;
    var (p, r) := Move(o, id, e, fillQty);
    assert OrderOk(o, id) by { Pointwise(o, id); }
    MoveShape(o, id, e, fillQty);
    if r.Ok? { CommitKeepsInv(o, id, r.state, fillQty); }
  }

  lemma Pointwise(o: Oms, id: string)
    requires Inv(o)
    ensures OrderOk(o, id)
  {
  }

  lemma GridBounds(size: real, step: real, x: real, lots: real)
    requires step > 0.0 && x * step == size && 0.0 <= lots <= x < lots + 1.0
    ensures 0.0 <= lots * step <= size
    ensures size - lots * step < step
  {
    var part, rest := x - lots, lots + 1.0 - x;
    ProductMonotone(step, 0.0, lots);
    ProductMonotone(step, 0.0, part);
    assert part * step == x * step - lots * step;
    assert rest * step == step - part * step;
    assert rest * step > 0.0;
    assert part * step < step;
    assert size - lots * step == part * step;
    assert 0.0 <= lots * step;
  }

  lemma QuantizedSize(size: real, step: real)
    requires size > 0.0 && step > 0.0
    ensures 0.0 <= Quantize(size, step) <= size && size - Quantize(size, step) < step
  {
    var x := size / step;
    GridBounds(size, step, x, x.Floor as real);
  }

  lemma RouteKeepsInv(o: Oms, id: string, size: real, mode: Mode)
    requires Inv(o) && id in o.records && size > 0.0 && (mode.ShadowAgainstBook? ==> mode.filledQty >= 0.0)
    ensures Inv(Route(o, id, size, mode).0) && TerminalKept(o, Route(o, id, size, mode).0)
    ensures Route(o, id, size, mode).0.records == o.records && Route(o, id, size, mode).0.positions == o.positions
  {
    hide Move, Inv, Terminal;
    match mode
    case ShadowAgainstBook(qty) =>
      if qty > 0.0 { MoveKeepsInv(o, id, Fill, Some(qty)); } else { MoveKeepsInv(o, id, Rejected, None); }
    case ShadowWithoutBook => MoveKeepsInv(o, id, Fill, Some(size));
    case Live(Open, _) => MoveKeepsInv(o, id, Acked, None);
    case Live(Closed, _) => MoveKeepsInv(o, id, Fill, Some(size));
    case Live(Absent, true) =>
      MoveKeepsInv(o, id, Submitted, None);
      MoveKeepsInv(Move(o, id, Submitted, None).0, id, Rejected, None);
    case Live(Absent, false) => MoveKeepsInv(o, id, Rejected, None);
  }

  lemma SubmitKeepsInv(o: Oms, op: Op)
    requires Inv(o) && op.SubmitOp? && Positive(op)
    ensures Inv(Do(o, op)) && TerminalKept(o, Do(o, op)) && Do(o, op).positions == o.positions
  {
    hide Move, Route, Quantize, Terminal;
    var SubmitOp(id, order, step, stale, mode) := op;
    if step.Some? { QuantizedSize(order.size, step.value); }
    var size := if step.Some? then Quantize(order.size, step.value) else order.size;
    if step.Some? && size <= 0.0 {
      MoveKeepsInv(o, id, Rejected, None);
    } else {
      var p := Register(o, id, order, size);
      RegisterKeepsInv(o, id, order, size);
      if stale { MoveKeepsInv(p, id, Rejected, None); } else { RouteKeepsInv(p, id, size, mode); }
    }
  }

  lemma RegisterKeepsInv(o: Oms, id: string, order: Order, size: real)
    requires Inv(o) && size > 0.0
    ensures Inv(Register(o, id, order, size)) && Register(o, id, order, size).active == o.active
  {
    forall k ensures OrderOk(Register(o, id, order, size), k) { assert OrderOk(o, k); }
  }

  lemma TrackedKeepsInv(o: Oms, id: string, asset: string, intended: real)
    requires Inv(o) && intended > 0.0
    ensures Inv(Tracked(o, id, asset, intended)) && TerminalKept(o, Tracked(o, id, asset, intended))
  {
    var p := Tracked(o, id, asset, intended);
    forall k ensures OrderOk(p, k) { assert OrderOk(o, k); }
  }

  /** The last step of a finalization: the final state, and fills raised to the reported quantity. */
  lemma ResolveKeepsInv(q: Oms, id: string, filled: real, d: seq<Deviation>)
    requires Inv(q) && id in q.active && id in q.records && filled >= 0.0 && q.active[id] != SUBMITTED
    ensures var next := Transition(q.active[id], PartialFillFinalized, None, None, 0.0);
            var t := q.(active := q.active[id := if next.Some? then next.value else q.active[id]],
                        fills := q.fills[id := Max(Get(q.fills, id), filled)], deviations := d);
            Inv(t) && TerminalKept(q, t)
  {
    var next := Transition(q.active[id], PartialFillFinalized, None, None, 0.0);
    var t := q.(active := q.active[id := if next.Some? then next.value else q.active[id]],
                fills := q.fills[id := Max(Get(q.fills, id), filled)], deviations := d);
    LifeMovesForward(q.active[id], PartialFillFinalized, None, None, 0.0);
    forall k ensures OrderOk(t, k) {
      assert OrderOk(q, k);
      assert k != id ==> Get(t.fills, k) == Get(q.fills, k);
    }
  }

  lemma FinalizeKeepsInv(o: Oms, op: Op)
    requires Inv(o) && op.FinalizeOp? && Positive(op)
    ensures Inv(Do(o, op)) && TerminalKept(o, Do(o, op)) && Do(o, op).positions == o.positions
  {
    hide Move, Value, Inv, Terminal, Transition, OrderOk;
    var FinalizeOp(id, filled, intended, stop, asset, entry) := op;
    var p := Tracked(o, id, asset, intended);
    TrackedKeepsInv(o, id, asset, intended);
    Recorded(p, id);
    var q := if p.active[id] == SUBMITTED then Move(p, id, Fill, Some(filled)).0 else p;
    if p.active[id] == SUBMITTED {
      MoveKeepsInv(p, id, Fill, Some(filled));
      MoveShape(p, id, Fill, Some(filled));
      SubmittedFills(p, id, filled);
    }
    ResolveKeepsInv(q, id, filled, Do(o, op).deviations);
  }

  lemma Recorded(o: Oms, id: string)
    requires Inv(o)
    ensures id in o.active ==> o.active[id] != CREATED
  {
    Pointwise(o, id);
  }

  lemma SubmittedFills(o: Oms, id: string, qty: real)
    requires id in o.active && o.active[id] == SUBMITTED
    ensures Move(o, id, Fill, Some(qty)).1.Ok?
  {
  }

  lemma FillKeepsInv(o: Oms, id: string, qty: real)
    requires Inv(o) && qty > 0.0
    ensures var (p, r) := ApplyFill(o, id, qty);
            && Inv(p) && TerminalKept(o, p) && (!r.Ok? ==> p == o)
  {
    hide Move, Terminal, Inv;
    if id in o.records && id in o.active && o.records[id].side.Some? {
      MoveKeepsInv(o, id, Fill, Some(qty));
      InvIgnoresPositions(Move(o, id, Fill, Some(qty)).0, ApplyFill(o, id, qty).0.positions);
    }
  }

  lemma InvIgnoresPositions(o: Oms, positions: map<string, real>)
    requires Inv(o)
    ensures Inv(o.(positions := positions))
  {
    forall k ensures OrderOk(o.(positions := positions), k) { assert OrderOk(o, k); }
  }

  lemma CancelKeepsInv(o: Oms, id: string)
    requires Inv(o)
    ensures Inv(CancelOrder(o, id).0) && TerminalKept(o, CancelOrder(o, id).0)
    ensures CancelOrder(o, id).0 == o.(active := CancelOrder(o, id).0.active)
  {
    forall k ensures OrderOk(CancelOrder(o, id).0, k) { assert OrderOk(o, k); }
  }

  /** Bookkeeping over every run with positive quantities: FILLED means the fills
      cover the intended quantity, PARTIALLY_FILLED that they do not. */
  lemma {:induction false} RunKeepsInv(ops: seq<Op>)
    requires forall i :: 0 <= i < |ops| ==> Positive(ops[i])
    ensures Inv(Run(EMPTY, ops))
  {
    hide Submit, ApplyFill, CancelOrder, Finalize;
    if ops != [] {
      var before, op := ops[..|ops| - 1], ops[|ops| - 1];
      RunKeepsInv(before);
      StepKeepsInv(Run(EMPTY, before), op);
    }
  }

  lemma StepKeepsInv(o: Oms, op: Op)
    requires Inv(o) && Positive(op)
    ensures Inv(Do(o, op)) && TerminalKept(o, Do(o, op))
  {
    hide Submit, ApplyFill, CancelOrder, Finalize, Inv, Terminal;
    match op
    case SubmitOp(_, _, _, _, _) => SubmitKeepsInv(o, op);
    case FillOp(id, qty) => FillKeepsInv(o, id, qty);
    case CancelOp(id) => CancelKeepsInv(o, id);
    case FinalizeOp(_, _, _, _, _, _) => FinalizeKeepsInv(o, op);
  }

  /** Once an order of a run is in a terminal state, no continuation moves it. */
  lemma {:induction false} TerminalStatesStay(ops: seq<Op>, n: nat)
    requires n <= |ops| && forall i :: 0 <= i < |ops| ==> Positive(ops[i])
    ensures TerminalKept(Run(EMPTY, ops[..n]), Run(EMPTY, ops))
  {
    hide Do, Terminal;
    if n == |ops| {
      assert ops[..n] == ops;
    } else {
      var before := ops[..|ops| - 1];
      TerminalStatesStay(before, n);
      assert before[..n] == ops[..n];
      RunKeepsInv(before);
      StepKeepsInv(Run(EMPTY, before), ops[|ops| - 1]);
    }
  }

  /** A rejected fill touches nothing at all. */
  lemma RejectedFillChangesNothing(ops: seq<Op>, id: string, qty: real)
    requires (forall i :: 0 <= i < |ops| ==> Positive(ops[i])) && qty > 0.0
    ensures var (p, r) := ApplyFill(Run(EMPTY, ops), id, qty);
            !r.Ok? ==> p == Run(EMPTY, ops)
  {
    hide Do;
    RunKeepsInv(ops);
    FillKeepsInv(Run(EMPTY, ops), id, qty);
  }

  // -------------------------------------------------------------------------
  // Positions
  // -------------------------------------------------------------------------

  /** What one operation should add to the position of an asset: only a
      successful fill does, signed by the order's recorded side. */
  function PositionDelta(o: Oms, op: Op, asset: string): real {
    if op.FillOp? && ApplyFill(o, op.id, op.qty).1.Ok? && o.records[op.id].asset == asset
    then (if o.records[op.id].side == Some(Long) then op.qty else -op.qty) else 0.0
  }

  ghost function TotalDelta(ops: seq<Op>, asset: string): real
    requires forall i :: 0 <= i < |ops| ==> Positive(ops[i])
  {
    if ops == [] then 0.0
    else TotalDelta(ops[..|ops| - 1], asset) + PositionDelta(Run(EMPTY, ops[..|ops| - 1]), ops[|ops| - 1], asset)
  }

  lemma StepMovesPosition(o: Oms, op: Op, asset: string)
    requires Inv(o) && Positive(op)
    ensures Get(Do(o, op).positions, asset) == Get(o.positions, asset) + PositionDelta(o, op, asset)
  {
    hide Move, Inv;
    match op
    case SubmitOp(_, _, _, _, _) => SubmitKeepsInv(o, op);
    case FillOp(id, qty) =>
      if id in o.records && id in o.active && o.records[id].side.Some? { MoveKeepsInv(o, id, Fill, Some(qty)); }
    case CancelOp(id) =>
    case FinalizeOp(_, _, _, _, _, _) => FinalizeKeepsInv(o, op);
  }

  /** An asset's position is the signed sum of the successful fills applied to it;
      submissions, shadow fills, cancels and finalizations never move it. */
  lemma {:induction false} PositionIsSumOfFills(ops: seq<Op>, asset: string)
    requires forall i :: 0 <= i < |ops| ==> Positive(ops[i])
    ensures Get(Run(EMPTY, ops).positions, asset) == TotalDelta(ops, asset)
  {
    hide Do, PositionDelta;
    if ops != [] {
      var before := ops[..|ops| - 1];
      PositionIsSumOfFills(before, asset);
      RunKeepsInv(before);
      StepMovesPosition(Run(EMPTY, before), ops[|ops| - 1], asset);
    }
  }

  /** Live submissions that the venue does not report as already closed, fills and cancels. */
  predicate LiveOnly(op: Op) {
    match op
    case SubmitOp(_, _, _, _, mode) => mode.Live? && mode.existing != Closed
    case FillOp(_, _) => true
    case CancelOp(_) => true
    case FinalizeOp(_, _, _, _, _, _) => false
  }

  /** Each order's cumulative fill, signed by its side, for one asset. */
  function SignedFills(o: Oms, asset: string): map<string, real> {
    map id | id in o.fills && id in o.records && o.records[id].asset == asset && o.records[id].side.Some?
      :: if o.records[id].side == Some(Long) then o.fills[id] else -o.fills[id]
  }

  /** Every record has a side, and nothing is filled without a record. */
  ghost predicate Sided(o: Oms) {
    && (forall id :: id in o.fills ==> id in o.records)
    && (forall id :: id in o.records ==> o.records[id].side.Some?)
  }

  lemma MoveWithoutQtyKeepsFills(o: Oms, id: string, e: EventType)
    ensures var p := Move(o, id, e, None).0; p.fills == o.fills && p.records == o.records && p.positions == o.positions
  {
    hide Transition;
  }

  lemma LiveRouteKeepsFills(o: Oms, id: string, size: real, mode: Mode)
    requires mode.Live? && mode.existing != Closed
    ensures var p := Route(o, id, size, mode).0;
            p.fills == o.fills && p.records == o.records && p.positions == o.positions
  {
    hide Move;
    MoveWithoutQtyKeepsFills(o, id, Rejected);
    MoveWithoutQtyKeepsFills(o, id, Acked);
    MoveWithoutQtyKeepsFills(o, id, Submitted);
    MoveWithoutQtyKeepsFills(Move(o, id, Submitted, None).0, id, Rejected);
  }

  lemma LiveSubmitKeepsFills(o: Oms, op: Op)
    requires Sided(o) && op.SubmitOp? && LiveOnly(op) && Positive(op)
    ensures var p := Do(o, op);
      && p.fills == o.fills && p.positions == o.positions && Sided(p)
      && (forall id :: id in o.records ==> id in p.records && p.records[id] == o.records[id])
  {
    hide Move, Quantize, Route;
    var SubmitOp(id, order, step, stale, mode) := op;
    var size := if step.Some? then Quantize(order.size, step.value) else order.size;
    var q := Register(o, id, order, size);
    MoveWithoutQtyKeepsFills(o, id, Rejected);
    MoveWithoutQtyKeepsFills(q, id, Rejected);
    LiveRouteKeepsFills(q, id, size, mode);
  }

  lemma FillShape(o: Oms, id: string, qty: real)
    requires Inv(o) && ApplyFill(o, id, qty).1.Ok?
    ensures id in o.records && o.records[id].side.Some?
    ensures var p, asset := ApplyFill(o, id, qty).0, o.records[id].asset;
      && p.records == o.records && p.fills == o.fills[id := Get(o.fills, id) + qty]
      && p.positions == o.positions[asset := Get(o.positions, asset) + Signed(o.records[id].side.value, qty)]
  {
    hide Move, Inv;
    Pointwise(o, id);
    MoveShape(o, id, Fill, Some(qty));
  }

  lemma FillsHaveRecords(o: Oms)
    requires Inv(o)
    ensures forall k :: k in o.fills ==> k in o.records
  {
    forall k | k in o.fills ensures k in o.records { Pointwise(o, k); }
  }

  /** A successful fill moves the position and the signed fills by the same amount. */
  lemma FillMovesAlike(o: Oms, id: string, qty: real, asset: string)
    requires Inv(o) && ApplyFill(o, id, qty).1.Ok?
    ensures var p := ApplyFill(o, id, qty).0;
            Get(p.positions, asset) - Get(o.positions, asset)
            == MapSum(SignedFills(p, asset)) - MapSum(SignedFills(o, asset))
  {
    hide ApplyFill, MapSum, Inv;
    var p := ApplyFill(o, id, qty).0;
    FillsHaveRecords(o);
    FillShape(o, id, qty);
    if o.records[id].asset == asset {
      var v := Signed(o.records[id].side.value, Get(o.fills, id) + qty);
      var a := SignedFills(o, asset);
      assert SignedFills(p, asset) == a[id := v];
      MapSumUpdate(a, id, v);
      assert id in a ==> a[id] == Signed(o.records[id].side.value, o.fills[id]);
    } else {
      assert SignedFills(p, asset) == SignedFills(o, asset);
    }
  }

  /** On runs of live submissions, fills and cancels, the position of an asset is
      the signed sum of the cumulative fills of its orders. */
  lemma {:induction false} PositionIsSumOfOrderFills(ops: seq<Op>, asset: string)
    requires forall i :: 0 <= i < |ops| ==> Positive(ops[i]) && LiveOnly(ops[i])
    ensures var o := Run(EMPTY, ops);
            Sided(o) && Get(o.positions, asset) == MapSum(SignedFills(o, asset))
  {
    hide Submit, CancelOrder, ApplyFill, MapSum;
    if ops == [] {
      assert SignedFills(EMPTY, asset) == map[];
      EmptySum();
    } else {
      var before, op := ops[..|ops| - 1], ops[|ops| - 1];
      PositionIsSumOfOrderFills(before, asset);
      RunKeepsInv(before);
      var o := Run(EMPTY, before);
      match op
      case SubmitOp(_, _, _, _, _) =>
        LiveSubmitKeepsFills(o, op);
        assert SignedFills(Do(o, op), asset) == SignedFills(o, asset);
      case CancelOp(id) =>
        CancelKeepsInv(o, id);
        assert SignedFills(Do(o, op), asset) == SignedFills(o, asset);
      case FillOp(id, qty) =>
        FillKeepsInv(o, id, qty);
        if ApplyFill(o, id, qty).1.Ok? {
          FillMovesAlike(o, id, qty, asset);
          FillShape(o, id, qty);
        }
    }
  }

  lemma EmptySum()
    ensures MapSum<string>(map[]) == 0.0
  {
  }

  // -------------------------------------------------------------------------
  // Outcomes
  // -------------------------------------------------------------------------

  ghost predicate Lots(size: real, step: real, lots: int) { size == Value(lots as real, step) }

  /** A quantized size is a whole number of steps, and a short one mirrors the long one. */
  lemma QuantizedIsOnGrid(size: real, step: real)
    requires step > 0.0
    ensures exists lots :: Lots(Quantize(size, step), step, lots)
    ensures Quantize(-size, step) == -Quantize(size, step)
  {
    var lots := if size >= 0.0 then (size / step).Floor else -(-size / step).Floor;
    assert Lots(Quantize(size, step), step, lots);
    if size == 0.0 { assert (0.0 / step).Floor == 0; }
  }

  /** The state and cumulative fill of an order after its first submission. */
  datatype Ends = Ends(state: OrderState, filled: real)

  /** How a first submission of this size ends, by what the data and the venue say. */
  function FirstEnd(size: real, stale: bool, mode: Mode): Ends {
    if stale then Ends(REJECTED, 0.0)
    else
      match mode
      case Live(Open, _) => Ends(ACKED, 0.0)
      case Live(Closed, _) => Ends(FILLED, size)
      case Live(Absent, true) => Ends(SUBMITTED, 0.0)
      case Live(Absent, false) => Ends(REJECTED, 0.0)
      case ShadowWithoutBook => Ends(FILLED, size)
      case ShadowAgainstBook(qty) =>
        if qty <= 0.0 then Ends(REJECTED, 0.0) else Ends(if qty < size then PARTIALLY_FILLED else FILLED, qty)
  }

  ghost predicate Unheard(o: Oms, id: string) { id !in o.active && id !in o.records && id !in o.fills }

  lemma FirstMove(o: Oms, id: string, e: EventType, fillQty: Option<real>, state: OrderState)
    requires id !in o.active
    requires var i, before := Intended(o, id), Get(o.fills, id);
             var direct := Transition(CREATED, e, fillQty, i, before);
             direct == Some(state) || (direct.None? && Transition(SUBMITTED, e, fillQty, i, before) == Some(state))
    ensures Move(o, id, e, fillQty) == (Commit(o, id, state, fillQty), Ok(state))
  {
    hide Transition, Move;
    OrderManagementSystem.MoveCases(o, id, e, fillQty);
    var hop := o.(active := o.active[id := SUBMITTED]);
    assert hop.active[id := state] == o.active[id := state];
  }

  lemma FirstEvent(o: Oms, id: string, e: EventType, state: OrderState)
    requires id !in o.active
    requires (e == Submitted && state == SUBMITTED) || (e == Acked && state == ACKED)
             || (e == Rejected && state == REJECTED)
    ensures Move(o, id, e, None) == (o.(active := o.active[id := state]), Ok(state))
  {
    hide Transition, Move;
    EventsDoWhatTheySay(CREATED, e, None, Intended(o, id), Get(o.fills, id));
    EventsDoWhatTheySay(SUBMITTED, e, None, Intended(o, id), Get(o.fills, id));
    FirstMove(o, id, e, None, state);
  }

  lemma FirstFill(o: Oms, id: string, qty: real)
    requires Unfilled(o, id)
    ensures var state := if qty < o.records[id].intended then PARTIALLY_FILLED else FILLED;
            Move(o, id, Fill, Some(qty))
            == (o.(active := o.active[id := state], fills := o.fills[id := qty]), Ok(state))
  {
    hide Transition, Move;
    EventsDoWhatTheySay(CREATED, Fill, Some(qty), Intended(o, id), 0.0);
    EventsDoWhatTheySay(SUBMITTED, Fill, Some(qty), Intended(o, id), 0.0);
    FirstMove(o, id, Fill, Some(qty), if qty < o.records[id].intended then PARTIALLY_FILLED else FILLED);
  }

  /** Registered, but not yet moved by any event. */
  ghost predicate Unfilled(o: Oms, id: string) {
    id !in o.active && id !in o.fills && id in o.records && o.records[id].intended > 0.0
  }

  lemma FirstRoute(o: Oms, id: string, size: real, mode: Mode)
    requires Unfilled(o, id) && o.records[id].intended == size
    ensures var (p, r) := Route(o, id, size, mode);
            var end := FirstEnd(size, false, mode);
      && p == o.(active := o.active[id := end.state],
                 fills := if end.filled == 0.0 then o.fills else o.fills[id := end.filled])
      && r == if mode == Live(Absent, false) then VenueError else Ok(end.state)
  {
    hide Move;
    match mode
    case ShadowAgainstBook(qty) =>
      if qty > 0.0 { FirstFill(o, id, qty); } else { FirstEvent(o, id, Rejected, REJECTED); }
    case ShadowWithoutBook => FirstFill(o, id, size);
    case Live(Open, _) => FirstEvent(o, id, Acked, ACKED);
    case Live(Closed, _) => FirstFill(o, id, size);
    case Live(Absent, true) => FirstEvent(o, id, Submitted, SUBMITTED);
    case Live(Absent, false) => FirstEvent(o, id, Rejected, REJECTED);
  }

  /** A first submission, from beginning to end: off the grid or on stale data the order is
      rejected and fills nothing; otherwise the venue, or the shadow fill, decides. No
      other order and no position is touched, and the record keeps the quantized size. */
  lemma FirstSubmissionEnds(o: Oms, id: string, order: Order, step: Option<real>, stale: bool, mode: Mode)
    requires Unheard(o, id) && order.size > 0.0 && (step.Some? ==> step.value > 0.0)
    ensures var size := if step.Some? then Quantize(order.size, step.value) else order.size;
            var (p, r) := Submit(o, id, order, step, stale, mode);
            var end := if size <= 0.0 then Ends(REJECTED, 0.0) else FirstEnd(size, stale, mode);
      && p.active == o.active[id := end.state] && p.positions == o.positions && p.deviations == o.deviations
      && p.records == (if size <= 0.0 then o.records else o.records[id := Record(order.asset, Some(order.side), size)])
      && p.fills == (if end.filled == 0.0 then o.fills else o.fills[id := end.filled])
      && r == (if size > 0.0 && !stale && mode == Live(Absent, false) then VenueError else Ok(end.state))
  {
    hide Move, Quantize, Route, FirstEnd;
    var size := if step.Some? then Quantize(order.size, step.value) else order.size;
    if size <= 0.0 {
      FirstEvent(o, id, Rejected, REJECTED);
    } else {
      var p := Register(o, id, order, size);
      if stale { FirstEvent(p, id, Rejected, REJECTED); } else { FirstRoute(p, id, size, mode); }
      StaleEnd(size, mode);
    }
  }

  lemma StaleEnd(size: real, mode: Mode)
    ensures FirstEnd(size, true, mode) == Ends(REJECTED, 0.0)
  {
  }

  /** A cancel succeeds exactly on a working order, which is then CANCELED and nothing else changes. */
  lemma CancelsExactlyWorking(o: Oms, id: string)
    ensures var (p, r) := CancelOrder(o, id);
      && (r.Ok? <==> id in o.active && Working(o.active[id]))
      && p == if r.Ok? then o.(active := o.active[id := CANCELED]) else o
  {
    hide Transition;
    if id in o.active { EventsDoWhatTheySay(o.active[id], Cancel, None, None, 0.0); }
  }

  /** A stale or off-grid resubmission fills nothing: a working order ends REJECTED, a resolved one stays. */
  lemma StaleNeverFills(o: Oms, id: string, order: Order, step: Option<real>, mode: Mode)
    requires step.Some? ==> step.value > 0.0
    ensures var (p, r) := Submit(o, id, order, step, true, mode);
      && p.fills == o.fills && p.positions == o.positions && id in p.active
      && (id !in o.active || Working(o.active[id]) ==> r == Ok(REJECTED) && p.active == o.active[id := REJECTED])
      && (id in o.active && !Working(o.active[id]) ==> r == IllegalTransition && p.active == o.active)
  {
    hide Move, Quantize, Working;
    RejectedMove(o, id);
    var size := if step.Some? then Quantize(order.size, step.value) else order.size;
    RejectedMove(Register(o, id, order, size), id);
  }

  lemma RejectedMove(o: Oms, id: string)
    ensures Move(o, id, Rejected, None) ==
              if id !in o.active || Working(o.active[id]) then (o.(active := o.active[id := REJECTED]), Ok(REJECTED))
              else (o, IllegalTransition)
  {
    hide Transition, Move;
    OrderManagementSystem.MoveCases(o, id, Rejected, None);
    EventsDoWhatTheySay(if id in o.active then o.active[id] else CREATED, Rejected, None, Intended(o, id),
                        Get(o.fills, id));
  }

  /** How a finalization leaves an order that was in state s with this much filled before:
      a partly filled one is finalized, one only submitted is first filled by the
      reported quantity, any other state stays. */
  function FinalState(s: OrderState, before: real, filled: real, intended: real): OrderState {
    if s == PARTIALLY_FILLED then PARTIAL_FILL_FINALIZED
    else if s == SUBMITTED || s == CREATED then
      if intended != 0.0 && before + filled < intended then PARTIAL_FILL_FINALIZED else FILLED
    else s
  }

  /** A finalization, from beginning to end. The reported quantity is a floor for the
      cumulative fill; the deviation holds the reported figures, its risks the distance
      between entry and stop, or the plain quantities without an entry. Positions stay. */
  lemma FinalizationEnds(o: Oms, id: string, filled: real, intended: real, stop: real, asset: string, entry: real)
    requires id in o.active ==> o.active[id] != CREATED
    ensures var p := Finalize(o, id, filled, intended, stop, asset, entry);
            var s := if id in o.active then o.active[id] else SUBMITTED;
            var meant := if id in o.records then o.records[id].intended else intended;
            var dist := if entry <= 0.0 then 1.0 else if entry >= stop then entry - stop else stop - entry;
            var before := if id in o.fills then o.fills[id] else 0.0;
            var replayed := if s == SUBMITTED then before + filled else before;
      && p.active == o.active[id := FinalState(s, before, filled, meant)]
      && p.records == (if id in o.records then o.records else o.records[id := Record(asset, None, intended)])
      && p.fills == o.fills[id := if replayed >= filled then replayed else filled]
      && p.positions == o.positions
      && p.deviations == o.deviations + [Deviation(id, asset, intended, filled, Value(intended, dist),
                                                   Value(filled, dist))]
  {
    hide Move, Value, Tracked, FinalState, Finalize;
    var q := Tracked(o, id, asset, intended);
    TrackedShape(o, id, asset, intended);
    FinalStep(o, id, filled, intended, stop, asset, entry);
    if q.active[id] == SUBMITTED { ReplayedFill(q, id, filled); }
    var r := if q.active[id] == SUBMITTED then Move(q, id, Fill, Some(filled)).0 else q;
    FinalStates(q.active[id], Get(q.fills, id), filled, q.records[id].intended, r.active[id]);
    var p := Finalize(o, id, filled, intended, stop, asset, entry);
    UpdateTwice(q.active, id, r.active[id], p.active[id]);
    UpdateTwice(o.active, id, q.active[id], p.active[id]);
    UpdateTwice(o.fills, id, Get(r.fills, id), p.fills[id]);
  }

  lemma UpdateTwice<V>(m: map<string, V>, k: string, first: V, second: V)
    ensures m[k := first][k := second] == m[k := second]
  {
  }

  /** The steps after the replayed fill. */
  lemma FinalStep(o: Oms, id: string, filled: real, intended: real, stop: real, asset: string, entry: real)
    requires id in o.active ==> o.active[id] != CREATED
    ensures var q := Tracked(o, id, asset, intended);
            var r := if q.active[id] == SUBMITTED then Move(q, id, Fill, Some(filled)).0 else q;
            var p := Finalize(o, id, filled, intended, stop, asset, entry);
            var dist := if entry <= 0.0 then 1.0 else if entry >= stop then entry - stop else stop - entry;
      && id in r.active && p.records == r.records && p.positions == r.positions
      && p.active == r.active[id := if r.active[id] == PARTIALLY_FILLED then PARTIAL_FILL_FINALIZED else r.active[id]]
      && p.fills == r.fills[id := if Get(r.fills, id) >= filled then Get(r.fills, id) else filled]
      && p.deviations == r.deviations + [Deviation(id, asset, intended, filled, Value(intended, dist),
                                                   Value(filled, dist))]
  {
    hide Move, Value, Tracked, Transition;
    var q := Tracked(o, id, asset, intended);
    TrackedShape(o, id, asset, intended);
    MoveKeepsOrder(q, id, Fill, Some(filled));
    var r := if q.active[id] == SUBMITTED then Move(q, id, Fill, Some(filled)).0 else q;
    FinalizedFrom(r.active[id]);
  }

  lemma TrackedShape(o: Oms, id: string, asset: string, intended: real)
    ensures var q := Tracked(o, id, asset, intended);
      && id in q.active && id in q.records && q.fills == o.fills && q.positions == o.positions
      && q.deviations == o.deviations
      && q.active == o.active[id := if id in o.active then o.active[id] else SUBMITTED]
      && q.records == if id in o.records then o.records else o.records[id := Record(asset, None, intended)]
  {
    if id in o.active { assert o.active[id := o.active[id]] == o.active; }
  }

  lemma FinalStates(s: OrderState, before: real, filled: real, intended: real, replayed: OrderState)
    requires s != CREATED
    requires replayed == if s != SUBMITTED then s
                         else if intended != 0.0 && before + filled < intended then PARTIALLY_FILLED else FILLED
    ensures FinalState(s, before, filled, intended)
         == if replayed == PARTIALLY_FILLED then PARTIAL_FILL_FINALIZED else replayed
  {
  }

  lemma FinalizedFrom(s: OrderState)
    ensures Transition(s, PartialFillFinalized, None, None, 0.0)
         == if s == PARTIALLY_FILLED then Some(PARTIAL_FILL_FINALIZED) else None
  {
    hide Transition;
    EventsDoWhatTheySay(s, PartialFillFinalized, None, None, 0.0);
  }

  lemma ReplayedFill(o: Oms, id: string, qty: real)
    requires id in o.active && o.active[id] == SUBMITTED && id in o.records
    ensures var meant := o.records[id].intended;
            var state := if meant != 0.0 && Get(o.fills, id) + qty < meant then PARTIALLY_FILLED else FILLED;
            Move(o, id, Fill, Some(qty)).0
            == o.(active := o.active[id := state], fills := o.fills[id := Get(o.fills, id) + qty])
  {
    hide Transition, Move;
    OrderManagementSystem.MoveCases(o, id, Fill, Some(qty));
    EventsDoWhatTheySay(SUBMITTED, Fill, Some(qty), Intended(o, id), Get(o.fills, id));
  }

  /** An event that even a submitted order could not take leaves an unheard-of order
      SUBMITTED behind, and is refused all the same. */
  lemma RefusedEventSubmits(o: Oms, id: string)
    requires id !in o.active
    ensures Move(o, id, PartialFillFinalized, None) == (o.(active := o.active[id := SUBMITTED]), IllegalTransition)
  {
    hide Transition, Move;
    OrderManagementSystem.MoveCases(o, id, PartialFillFinalized, None);
    FinalizedFromAny(Intended(o, id), Get(o.fills, id));
  }

  lemma FinalizedFromAny(intended: Option<real>, before: real)
    ensures Transition(CREATED, PartialFillFinalized, None, intended, before).None?
    ensures Transition(SUBMITTED, PartialFillFinalized, None, intended, before).None?
  {
    hide Transition;
    EventsDoWhatTheySay(CREATED, PartialFillFinalized, None, intended, before);
    EventsDoWhatTheySay(SUBMITTED, PartialFillFinalized, None, intended, before);
  }
}
