/** The order state machine of the live execution path: an explicit table of
    legal moves and the function that applies an event under it. */
module OrderStateMachine {
  import opened Common

  datatype OrderState =
    CREATED | SUBMITTED | ACKED | FILLED | PARTIALLY_FILLED | PARTIAL_FILL_FINALIZED
    | CANCELED | REJECTED | EXPIRED | QUARANTINED | UNKNOWN

  datatype EventType =
    Created | Submitted | Acked | Fill | Cancel | Expiry | PartialFillFinalized | Canceled | Rejected | Quarantined

  function LegalTransitions(s: OrderState): set<OrderState> {
    match s
    case CREATED => {SUBMITTED, REJECTED, CANCELED, EXPIRED, QUARANTINED}
    case SUBMITTED => {ACKED, PARTIALLY_FILLED, FILLED, CANCELED, REJECTED, EXPIRED, QUARANTINED}
    case ACKED => {PARTIALLY_FILLED, FILLED, CANCELED, REJECTED, EXPIRED, QUARANTINED}
    case PARTIALLY_FILLED =>
      {PARTIALLY_FILLED, FILLED, PARTIAL_FILL_FINALIZED, CANCELED, REJECTED, EXPIRED, QUARANTINED}
    case UNKNOWN => {QUARANTINED}
    case _ => {}
  }

  predicate Terminal(s: OrderState) { LegalTransitions(s) == {} }

  /** Fill target: partial only if both quantities are known and the intended one is non-zero. */
  function FillTarget(fillQty: Option<real>, intended: Option<real>, filledBefore: real): OrderState {
    if fillQty.Some? && intended.Some? && intended.value != 0.0 && fillQty.value + filledBefore < intended.value
    then PARTIALLY_FILLED else FILLED
  }

  function Target(e: EventType, fillQty: Option<real>, intended: Option<real>, filledBefore: real): Option<OrderState> {
    match e
    case Created => None
    case Submitted => Some(SUBMITTED)
    case Acked => Some(ACKED)
    case Fill => Some(FillTarget(fillQty, intended, filledBefore))
    case Cancel => Some(CANCELED)
    case Canceled => Some(CANCELED)
    case Expiry => Some(EXPIRED)
    case Rejected => Some(REJECTED)
    case Quarantined => Some(QUARANTINED)
    case PartialFillFinalized => Some(PARTIAL_FILL_FINALIZED)
  }

  /** The next state, or None where the source raises IllegalTransitionError. */
  function Transition(s: OrderState, e: EventType, fillQty: Option<real>, intended: Option<real>,
                      filledBefore: real): Option<OrderState> {
    var t := Target(e, fillQty, intended, filledBefore);
    if t.Some? && t.value in LegalTransitions(s) then t else None
  }

  /** How far along its life an order is. */
  function Rank(s: OrderState): nat {
    match s
    case CREATED => 0
    case UNKNOWN => 0
    case SUBMITTED => 1
    case ACKED => 2
    case PARTIALLY_FILLED => 3
    case _ => 4
  }

  /** An order's life only moves forward, except for repeated partial fills; a
      state is terminal exactly when no event moves it, and those are the six
      resolved states. */
  lemma LifeMovesForward(s: OrderState, e: EventType, fillQty: Option<real>, intended: Option<real>, before: real)
    ensures var t := Transition(s, e, fillQty, intended, before);
      t.Some? ==> Rank(s) < Rank(t.value) || (s == PARTIALLY_FILLED && t.value == s && e == Fill)
    ensures Terminal(s) ==> Transition(s, e, fillQty, intended, before).None?
    ensures Terminal(s) <==> Rank(s) == 4
    ensures !Terminal(s) ==> Transition(s, Quarantined, None, None, 0.0) == Some(QUARANTINED)
  {
    assert QUARANTINED in LegalTransitions(CREATED);
  }

  predicate Follow(s: OrderState, moves: seq<OrderState>)
    decreases moves
  {
    moves == [] || (moves[0] in LegalTransitions(s) && Follow(moves[0], moves[1..]))
  }

  function Changes(s: OrderState, moves: seq<OrderState>): nat
    decreases moves
  {
    if moves == [] then 0 else (if moves[0] == s then 0 else 1) + Changes(moves[0], moves[1..])
  }

  /** No legal life of an order changes state more than four times. */
  lemma {:induction false} AtMostFourChanges(s: OrderState, moves: seq<OrderState>)
    requires Follow(s, moves)
    ensures Changes(s, moves) <= 4 - Rank(s)
    decreases moves
  {
    if moves != [] {
      assert moves[0] in LegalTransitions(s);
      AtMostFourChanges(moves[0], moves[1..]);
    }
  }

  /** An order that can still be worked: known to us and not yet resolved. */
  predicate Working(s: OrderState) { s in {CREATED, SUBMITTED, ACKED, PARTIALLY_FILLED} }

  /** The table read by where it leads: a working order can be cancelled, rejected and
      expire at any time, and be filled once submitted; a submission and its
      acknowledgement come once and in that order, a partial fill is finalized, and
      everything unresolved can be quarantined. Nothing else is legal. */
  lemma LegalByTarget(s: OrderState, t: OrderState)
    ensures t in LegalTransitions(s) <==>
      match t
      case CANCELED => Working(s)
      case REJECTED => Working(s)
      case EXPIRED => Working(s)
      case QUARANTINED => Working(s) || s == UNKNOWN
      case FILLED => Working(s) && s != CREATED
      case PARTIALLY_FILLED => Working(s) && s != CREATED
      case SUBMITTED => s == CREATED
      case ACKED => s == SUBMITTED
      case PARTIAL_FILL_FINALIZED => s == PARTIALLY_FILLED
      case CREATED => false
      case UNKNOWN => false
  {
  }

  /** What each event does to an order: a fill short of the intended quantity is partial and
      any other fill completes it; all other events lead where they say or nowhere. */
  lemma EventsDoWhatTheySay(s: OrderState, e: EventType, fillQty: Option<real>, intended: Option<real>, before: real)
    ensures var t := Transition(s, e, fillQty, intended, before);
      && (e == Cancel || e == Canceled ==> t == if Working(s) then Some(CANCELED) else None)
      && (e == Rejected ==> t == if Working(s) then Some(REJECTED) else None)
      && (e == Expiry ==> t == if Working(s) then Some(EXPIRED) else None)
      && (e == Quarantined ==> t == if Working(s) || s == UNKNOWN then Some(QUARANTINED) else None)
      && (e == Submitted ==> t == if s == CREATED then Some(SUBMITTED) else None)
      && (e == Acked ==> t == if s == SUBMITTED then Some(ACKED) else None)
      && (e == PartialFillFinalized ==> t == if s == PARTIALLY_FILLED then Some(PARTIAL_FILL_FINALIZED) else None)
      && (e == Created ==> t == None)
      && (e == Fill && (!Working(s) || s == CREATED) ==> t == None)
      && (e == Fill && Working(s) && s != CREATED ==>
            (t == Some(PARTIALLY_FILLED) <==>
               fillQty.Some? && intended.Some? && intended.value != 0.0 && before + fillQty.value < intended.value)
            && (t == Some(PARTIALLY_FILLED) || t == Some(FILLED)))
  {
    hide LegalTransitions;
    var t := Target(e, fillQty, intended, before);
    if t.Some? { LegalByTarget(s, t.value); }
  }
}
