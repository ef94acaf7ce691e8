/** Positions against cumulative order fills, on every run of the live OMS. */
module LiveOmsAccounts {
  import opened Common
  import opened OrderStateMachine
  import opened LiveOms
  import opened LiveOmsProofs

  /** From o to p only this order's fills and, if it had none, its record have changed. */
  ghost predicate OnlyTouches(o: Oms, p: Oms, id: string) {
    && (forall k :: k in o.records ==> k in p.records && p.records[k] == o.records[k])
    && (forall k :: k in p.records && k != id ==> k in o.records)
    && (forall k :: k in o.fills ==> k in p.fills)
    && (forall k :: k in p.fills && k != id ==> k in o.fills && p.fills[k] == o.fills[k])
    && p.positions == o.positions
  }

  lemma TouchesCompose(o: Oms, p: Oms, q: Oms, id: string)
    requires OnlyTouches(o, p, id) && OnlyTouches(p, q, id)
    ensures OnlyTouches(o, q, id)
  {
  }

  lemma MoveTouches(o: Oms, id: string, e: EventType, fillQty: Option<real>)
    ensures OnlyTouches(o, Move(o, id, e, fillQty).0, id)
  {
    hide Transition;
  }

  lemma RouteTouches(o: Oms, id: string, size: real, mode: Mode)
    ensures OnlyTouches(o, Route(o, id, size, mode).0, id)
  {
    hide Move, OnlyTouches;
    match mode
    case ShadowAgainstBook(qty) =>
      MoveTouches(o, id, Fill, Some(qty));
      MoveTouches(o, id, Rejected, None);
    case ShadowWithoutBook => MoveTouches(o, id, Fill, Some(size));
    case Live(Open, _) => MoveTouches(o, id, Acked, None);
    case Live(Closed, _) => MoveTouches(o, id, Fill, Some(size));
    case Live(Absent, true) =>
      var p := Move(o, id, Submitted, None).0;
      MoveTouches(o, id, Submitted, None);
      MoveTouches(p, id, Rejected, None);
      TouchesCompose(o, p, Move(p, id, Rejected, None).0, id);
    case Live(Absent, false) => MoveTouches(o, id, Rejected, None);
  }

  lemma RegisterTouches(o: Oms, id: string, order: Order, size: real)
    ensures OnlyTouches(o, Register(o, id, order, size), id)
  {
  }

  lemma SubmitTouches(o: Oms, id: string, order: Order, step: Option<real>, stale: bool, mode: Mode)
    requires step.Some? ==> step.value > 0.0
    ensures OnlyTouches(o, Submit(o, id, order, step, stale, mode).0, id)
  {
    hide Move, Route, Register, Quantize, OnlyTouches;
    var size := if step.Some? then Quantize(order.size, step.value) else order.size;
    var p := Register(o, id, order, size);
    RegisterTouches(o, id, order, size);
    MoveTouches(o, id, Rejected, None);
    MoveTouches(p, id, Rejected, None);
    RouteTouches(p, id, size, mode);
    TouchesCompose(o, p, Move(p, id, Rejected, None).0, id);
    TouchesCompose(o, p, Route(p, id, size, mode).0, id);
  }

  lemma FinalizeTouches(o: Oms, id: string, filled: real, intended: real, stop: real, asset: string, entry: real)
    ensures OnlyTouches(o, Finalize(o, id, filled, intended, stop, asset, entry), id)
  {
    hide Move, Value, OnlyTouches, Transition;
    var p := Tracked(o, id, asset, intended);
    var moved := Move(p, id, Fill, Some(filled)).0;
    TrackedTouches(o, id, asset, intended);
    MoveTouches(p, id, Fill, Some(filled));
    TouchesCompose(o, p, moved, id);
    var q := if p.active[id] == CREATED || p.active[id] == SUBMITTED then moved else p;
    var r := Finalize(o, id, filled, intended, stop, asset, entry);
    RaisedTouches(q, r, id);
    TouchesCompose(o, q, r, id);
  }

  lemma TrackedTouches(o: Oms, id: string, asset: string, intended: real)
    ensures OnlyTouches(o, Tracked(o, id, asset, intended), id)
  {
  }

  lemma RaisedTouches(q: Oms, r: Oms, id: string)
    requires r.records == q.records && r.positions == q.positions
    requires id in r.fills && r.fills == q.fills[id := r.fills[id]]
    ensures OnlyTouches(q, r, id)
  {
  }

  /** What a submission or finalization books as filled for an asset, signed by the
      side of its order; fills of orders without a side have no sign and count zero. */
  function Booked(o: Oms, p: Oms, id: string, asset: string): real {
    if id in p.records && p.records[id].asset == asset && p.records[id].side.Some?
    then
      var booked := Get(p.fills, id) - Get(o.fills, id);
      if p.records[id].side == Some(Long) then booked else -booked
    else 0.0
  }

  lemma BookingMovesFills(o: Oms, p: Oms, id: string, asset: string)
    requires OnlyTouches(o, p, id) && (forall k :: k in o.fills ==> k in o.records)
    ensures MapSum(SignedFills(p, asset)) == MapSum(SignedFills(o, asset)) + Booked(o, p, id, asset)
  {
    hide MapSum;
    var a, b := SignedFills(o, asset), SignedFills(p, asset);
    if id in b {
      assert b == a[id := b[id]];
      MapSumUpdate(a, id, b[id]);
    } else {
      assert b == a;
    }
  }

  ghost function BookedBy(o: Oms, op: Op, asset: string): real
    requires Positive(op)
  {
    if op.SubmitOp? || op.FinalizeOp? then Booked(o, Do(o, op), op.id, asset) else 0.0
  }

  ghost function TotalBooked(ops: seq<Op>, asset: string): real
    requires forall i :: 0 <= i < |ops| ==> Positive(ops[i])
  {
    if ops == [] then 0.0
    else
      assert Positive(ops[|ops| - 1]);
      TotalBooked(ops[..|ops| - 1], asset) + BookedBy(Run(EMPTY, ops[..|ops| - 1]), ops[|ops| - 1], asset)
  }

  lemma StepAccounts(o: Oms, op: Op, asset: string)
    requires Inv(o) && Positive(op)
    ensures Get(Do(o, op).positions, asset) - Get(o.positions, asset)
         == MapSum(SignedFills(Do(o, op), asset)) - MapSum(SignedFills(o, asset)) - BookedBy(o, op, asset)
  {
    hide Submit, Finalize, ApplyFill, CancelOrder, MapSum, Inv, OnlyTouches, Booked, SignedFills;
    FillsHaveRecords(o);
    match op
    case SubmitOp(id, order, step, stale, mode) =>
      SubmitTouches(o, id, order, step, stale, mode);
      BookingMovesFills(o, Do(o, op), id, asset);
      SamePositions(o, Do(o, op), id);
    case FinalizeOp(id, filled, intended, stop, a, entry) =>
      FinalizeTouches(o, id, filled, intended, stop, a, entry);
      BookingMovesFills(o, Do(o, op), id, asset);
      SamePositions(o, Do(o, op), id);
    case CancelOp(id) =>
      CancelKeepsInv(o, id);
      SameFills(o, Do(o, op), asset);
    case FillOp(id, qty) =>
      FillKeepsInv(o, id, qty);
      if ApplyFill(o, id, qty).1.Ok? { FillMovesAlike(o, id, qty, asset); }
  }

  lemma SamePositions(o: Oms, p: Oms, id: string)
    requires OnlyTouches(o, p, id)
    ensures p.positions == o.positions
  {
  }

  lemma SameFills(o: Oms, p: Oms, asset: string)
    requires p.fills == o.fills && p.records == o.records
    ensures SignedFills(p, asset) == SignedFills(o, asset)
  {
  }

  /** On every run, the position of an asset is the signed sum of its orders'
      cumulative fills, less what submissions and finalizations booked. */
  lemma {:induction false} PositionIsFillsLessBooked(ops: seq<Op>, asset: string)
    requires forall i :: 0 <= i < |ops| ==> Positive(ops[i])
    ensures var o := Run(EMPTY, ops);
            Get(o.positions, asset) == MapSum(SignedFills(o, asset)) - TotalBooked(ops, asset)
  {
    hide Do, MapSum, Inv, SignedFills, BookedBy;
    if ops == [] {
      EmptySum();
      NoSignedFills(asset);
    } else {
      var before := ops[..|ops| - 1];
      PositionIsFillsLessBooked(before, asset);
      RunKeepsInv(before);
      StepAccounts(Run(EMPTY, before), ops[|ops| - 1], asset);
    }
  }

  lemma NoSignedFills(asset: string)
    ensures SignedFills(EMPTY, asset) == map[]
  {
  }

  /** Live submissions that the venue does not report as closed book nothing. */
  lemma LiveSubmissionsBookNothing(o: Oms, op: Op, asset: string)
    requires Sided(o) && op.SubmitOp? && LiveOnly(op) && Positive(op)
    ensures BookedBy(o, op, asset) == 0.0
  {
    hide Do;
    LiveSubmitKeepsFills(o, op);
  }
}
