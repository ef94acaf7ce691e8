/** The per-symbol actor engine: what one exchange message, one event step and
    one reconciliation make of its state, and the class that runs them. */
module ActorOms {
  import opened Common

  datatype Status = NEW | ACTIVE | PENDING_CANCEL | FILLED | PARTIALLY_FILLED | CANCELLED | REJECTED

  datatype Order = Order(side: string, price: real, qty: real, filledQty: real, status: Status)

  /** ORDER_ACK and unknown message types are all ignored: `Other`. */
  datatype MsgType = FILL | CANCEL_CONFIRMED | CANCEL_REJECTED | REJECT | Other

  datatype Message = Message(seqNum: int, orderId: string, msgType: MsgType, qty: real)

  /** What exchange messages act upon. */
  datatype Core = Core(orders: map<string, Order>, position: real)

  datatype Payload = Payload(orderId: Option<string>, side: Option<string>, price: Option<real>, qty: Option<real>)

  datatype Event = Event(tier: nat, sequence: nat, eventType: string, payload: Payload)

  /** A reconciliation snapshot; it may lack the exchange position. */
  datatype Snapshot = Snapshot(exchangePosition: Option<real>)

  datatype Actor = Actor(
    core: Core, buffer: map<int, Message>, next: int,
    queue: seq<Event>, counter: nat, mailbox: Option<Snapshot>, processed: seq<string>,
    tripped: bool, halted: bool, maxDiscrepancy: real)

  function Fresh(maxDiscrepancy: real): Actor {
    Actor(Core(map[], 0.0), map[], 1, [], 0, None, [], false, false, maxDiscrepancy)
  }

  // -------------------------------------------------------------------------
  // Exchange messages
  // -------------------------------------------------------------------------

  /** A fill of an order the actor does not know counts as a sale. */
  function Direction(orders: map<string, Order>, id: string): real {
    if id in orders && orders[id].side == "BUY" then 1.0 else -1.0
  }

  function AfterFill(o: Order, qty: real): Order {
    var filled := o.filledQty + qty;
    o.(filledQty := filled,
       status := if o.status == PENDING_CANCEL || filled >= o.qty then FILLED else PARTIALLY_FILLED)
  }

  function Apply(c: Core, m: Message): Core {
    var known := m.orderId in c.orders;
    match m.msgType
    case FILL =>
      Core(if known then c.orders[m.orderId := AfterFill(c.orders[m.orderId], m.qty)] else c.orders,
           c.position + Direction(c.orders, m.orderId) * m.qty)
    case CANCEL_CONFIRMED =>
      if known && c.orders[m.orderId].status != FILLED
      then c.(orders := c.orders[m.orderId := c.orders[m.orderId].(status := CANCELLED)])
      else c
    case CANCEL_REJECTED => c
    case REJECT =>
      if known then c.(orders := c.orders[m.orderId := c.orders[m.orderId].(status := REJECTED)]) else c
    case Other => c
  }

  /** Takes the expected message out of the buffer and applies it. */
  function ApplyNext(a: Actor): Actor
    requires a.next in a.buffer
  {
    a.(core := Apply(a.core, a.buffer[a.next]), buffer := a.buffer - {a.next}, next := a.next + 1)
  }

  /** Applies buffered messages for as long as the expected number is there. */
  function Drain(a: Actor): Actor
    decreases |a.buffer|
  {
    if a.next !in a.buffer then a else Drain(ApplyNext(a))
  }

  function Receive(a: Actor, m: Message): Actor {
    Drain(a.(buffer := a.buffer[m.seqNum := m]))
  }

  // -------------------------------------------------------------------------
  // Orders and events
  // -------------------------------------------------------------------------

  function SubmitOrder(c: Core, id: string, side: string, price: real, qty: real): Core {
    c.(orders := c.orders[id := Order(side, price, qty, 0.0, ACTIVE)])
  }

  predicate Resting(o: Order) { o.status == ACTIVE || o.status == NEW }

  function RequestCancel(c: Core, id: string): Core {
    if id in c.orders && Resting(c.orders[id])
    then c.(orders := c.orders[id := c.orders[id].(status := PENDING_CANCEL)])
    else c
  }

  predicate IsSafetyEvent(eventType: string) {
    eventType in {"STALE_QUOTE_DETECTED", "EMERGENCY_CANCEL", "KILL_SWITCH", "TOXIC_FLOW"}
  }

  /** An entry event whose payload names no order raises a KeyError. */
  predicate Raises(a: Actor, e: Event) {
    e.eventType == "SNIPER_ENTRY" && !a.halted && e.payload.orderId.None?
  }

  function Or<T>(o: Option<T>, default: T): T { if o.Some? then o.value else default }

  function Process(a: Actor, e: Event): Actor {
    if IsSafetyEvent(e.eventType) then
      if e.payload.orderId.Some? && e.payload.orderId.value != ""
      then a.(core := RequestCancel(a.core, e.payload.orderId.value))
      else a
    else if e.eventType == "SNIPER_ENTRY" && !a.halted && e.payload.orderId.Some? then
      a.(core := SubmitOrder(a.core, e.payload.orderId.value, Or(e.payload.side, "BUY"),
                             Or(e.payload.price, 50000.0), Or(e.payload.qty, 1.0)))
    else a
  }

  /** Adopts a slightly different exchange position; halts on a large difference. */
  function Reconcile(a: Actor): Actor {
    if a.mailbox.None? then a
    else
      var local := a.core.position;
      var exchange := Or(a.mailbox.value.exchangePosition, local);
      var delta := Abs(exchange - local);
      var base := Max(Max(Abs(exchange), Abs(local)), 1.0);
      var b := a.(mailbox := None);
      if delta / base > a.maxDiscrepancy then b.(tripped := true, halted := true)
      else if delta > 0.000001 then b.(core := b.core.(position := exchange), processed := b.processed + ["DELTA_SYNC"])
      else b
  }

  predicate Earlier(e: Event, f: Event) { e.tier < f.tier || (e.tier == f.tier && e.sequence < f.sequence) }

  /** The first does not come after the second: a smaller tier, or the same and no larger number. */
  predicate NotAfter(e: Event, f: Event) { e.tier < f.tier || (e.tier == f.tier && e.sequence <= f.sequence) }

  /** Position of the first event no other one comes before. */
  function FirstUp(queue: seq<Event>): (i: nat)
    requires queue != []
    ensures i < |queue|
    ensures forall j :: 0 <= j < |queue| ==> NotAfter(queue[i], queue[j])
  {
    if |queue| == 1 then 0
    else
      var i := FirstUp(queue[1..]);
      assert forall j :: 1 <= j < |queue| ==> queue[j] == queue[1..][j - 1];
      if Earlier(queue[1..][i], queue[0]) then i + 1 else 0
  }

  function Enqueue(a: Actor, tier: nat, eventType: string, payload: Payload): Actor {
    a.(queue := a.queue + [Event(tier, a.counter, eventType, payload)], counter := a.counter + 1)
  }

  function Popped(a: Actor): Actor
    requires a.queue != []
  {
    a.(queue := a.queue[..FirstUp(a.queue)] + a.queue[FirstUp(a.queue) + 1..])
  }

  function NoteProcessed(a: Actor, raised: bool, eventType: string): Actor {
    if raised then a else a.(processed := a.processed + [eventType])
  }

  function RunEventStep(a: Actor): Actor {
    if a.queue == [] then Reconcile(a)
    else
      var e := a.queue[FirstUp(a.queue)];
      Reconcile(NoteProcessed(Process(Popped(a), e), Raises(a, e), e.eventType))
  }

  class OMSActorEngine {
    const maxDiscrepancyPct: real
    var orders: map<string, Order>
    var localPosition: real
    var seqBuffer: map<int, Message>
    var nextExpectedSeqNum: int
    var eventPq: seq<Event>
    var counter: nat
    var mailbox: Option<Snapshot>
    var processedEvents: seq<string>
    var circuitBreakerTripped: bool
    var isHalted: bool

    ghost function State(): Actor
      reads this
    {
      Actor(Core(orders, localPosition), seqBuffer, nextExpectedSeqNum, eventPq, counter, mailbox, processedEvents,
            circuitBreakerTripped, isHalted, maxDiscrepancyPct)
    }

    constructor (maxDiscrepancyPct: real)
      ensures State() == Fresh(maxDiscrepancyPct)
    {
      this.maxDiscrepancyPct := maxDiscrepancyPct;
      orders, localPosition, seqBuffer, nextExpectedSeqNum := map[], 0.0, map[], 1;
      eventPq, counter, mailbox, processedEvents := [], 0, None, [];
      circuitBreakerTripped, isHalted := false, false;
    }

    method SubmitNewOrder(id: string, side: string, price: real, qty: real)
      modifies this
      ensures State() == old(State()).(core := SubmitOrder(old(State()).core, id, side, price, qty))
    {
      orders := orders[id := Order(side, price, qty, 0.0, ACTIVE)];
    }

    method CancelRequest(id: string) returns (ok: bool)
      modifies this
      ensures State() == old(State()).(core := RequestCancel(old(State()).core, id))
      ensures ok <==> id in old(orders) && Resting(old(orders)[id])
    {
      ok := false;
      if id in orders {
        if orders[id].status == ACTIVE || orders[id].status == NEW {
          orders := orders[id := orders[id].(status := PENDING_CANCEL)];
          ok := true;
        }
      }
    }

    method EnqueueEvent(tier: nat, eventType: string, payload: Payload) returns (seqNo: nat)
      modifies this
      ensures State() == Enqueue(old(State()), tier, eventType, payload) && seqNo == old(counter)
      ensures counter == old(counter) + 1 && eventPq == old(eventPq) + [Event(tier, seqNo, eventType, payload)]
    {
      seqNo := counter;
      eventPq := eventPq + [Event(tier, counter, eventType, payload)];
      counter := counter + 1;
    }

    method PutStateSync(snapshot: Snapshot)
      modifies this
      ensures State() == old(State()).(mailbox := Some(snapshot))
    {
      mailbox := Some(snapshot);
    }

    method ApplyExchangeMessage(m: Message)
      modifies this`orders, this`localPosition
      ensures Core(orders, localPosition) == Apply(old(Core(orders, localPosition)), m)
    {
      var known := m.orderId in orders;
      match m.msgType
      case FILL =>
        var direction := if known && orders[m.orderId].side == "BUY" then 1.0 else -1.0;
        if known { orders := orders[m.orderId := AfterFill(orders[m.orderId], m.qty)]; }
        localPosition := localPosition + direction * m.qty;
      case CANCEL_CONFIRMED =>
        if known && orders[m.orderId].status != FILLED {
          orders := orders[m.orderId := orders[m.orderId].(status := CANCELLED)];
        }
      case CANCEL_REJECTED =>
      case REJECT =>
        if known { orders := orders[m.orderId := orders[m.orderId].(status := REJECTED)]; }
      case Other =>
    }

    method OnExchangeMessage(m: Message)
      modifies this
      ensures State() == Receive(old(State()), m)
    {
      hide Apply, Drain;
      seqBuffer := seqBuffer[m.seqNum := m];
      while nextExpectedSeqNum in seqBuffer
        invariant Drain(State()) == Receive(old(State()), m)
        decreases |seqBuffer|
      {
        DrainStep(State());
        var curr := seqBuffer[nextExpectedSeqNum];
        seqBuffer := seqBuffer - {nextExpectedSeqNum};
        ApplyExchangeMessage(curr);
        nextExpectedSeqNum := nextExpectedSeqNum + 1;
      }
      DrainStep(State());
    }

    method ProcessSingleEvent(e: Event) returns (raised: bool)
      modifies this
      ensures State() == Process(old(State()), e) && raised == Raises(old(State()), e)
    {
      raised := false;
      if IsSafetyEvent(e.eventType) {
        if e.payload.orderId.Some? && e.payload.orderId.value != "" {
          var _ := CancelRequest(e.payload.orderId.value);
        }
      } else if e.eventType == "SNIPER_ENTRY" {
        if isHalted { return; }
        if e.payload.orderId.None? { return true; }
        SubmitNewOrder(e.payload.orderId.value, Or(e.payload.side, "BUY"), Or(e.payload.price, 50000.0),
                       Or(e.payload.qty, 1.0));
      }
    }

    method DrainSafeBoundaryReconciler()
      modifies this
      ensures State() == Reconcile(old(State()))
    {
      var snapshot := mailbox;
      mailbox := None;
      if snapshot.None? { return; }
      var exchange := Or(snapshot.value.exchangePosition, localPosition);
      var delta := Abs(exchange - localPosition);
      var base := Max(Max(Abs(exchange), Abs(localPosition)), 1.0);
      if delta / base > maxDiscrepancyPct {
        circuitBreakerTripped, isHalted := true, true;
      } else if delta > 0.000001 {
        localPosition := exchange;
        processedEvents := processedEvents + ["DELTA_SYNC"];
      }
    }

    method PopFirst() returns (e: Event)
      requires eventPq != []
      modifies this`eventPq
      ensures e == old(eventPq)[FirstUp(old(eventPq))]
      ensures State() == Popped(old(State()))
    {
      var i := FirstUp(eventPq);
      e := eventPq[i];
      eventPq := eventPq[..i] + eventPq[i + 1..];
    }

    /** The mailbox is drained after the event, also when the event raises. */
    method RunStep() returns (popped: Option<Event>, raised: bool)
      modifies this
      ensures State() == RunEventStep(old(State()))
      ensures popped == if old(eventPq) == [] then None else Some(old(eventPq)[FirstUp(old(eventPq))])
      ensures raised <==> old(eventPq) != [] && Raises(old(State()), old(eventPq)[FirstUp(old(eventPq))])
    {
      hide Process, Reconcile, Raises, FirstUp, Popped;
      if eventPq == [] {
        DrainSafeBoundaryReconciler();
        return None, false;
      }
      ghost var start := State();
      var e := PopFirst();
      RaisesIgnoresQueue(start, e);
      raised := ProcessSingleEvent(e);
      if !raised { processedEvents := processedEvents + [e.eventType]; }
      assert State() == NoteProcessed(Process(Popped(start), e), raised, e.eventType);
      DrainSafeBoundaryReconciler();
      popped := Some(e);
    }

    /** Works off the queue in (tier, number) order, but an event that raises ends it early. */
    method Shutdown() returns (flushed: nat, raised: bool)
      modifies this
      ensures !raised ==> eventPq == [] && flushed == |old(eventPq)|
      ensures var n := flushed + if raised then 1 else 0;
        && n <= |old(eventPq)|
        && State() == Steps(old(State()), n)
        && InTurn(WorkedOff(old(State()), n))
        && multiset(WorkedOff(old(State()), n)) + multiset(eventPq) == multiset(old(eventPq))
        && forall done, left :: done in WorkedOff(old(State()), n) && left in eventPq ==> NotAfter(done, left)
    {
      hide RunEventStep, WorkedOff, InTurn, NotAfter;
      NothingWorkedOff(State());
      flushed, raised := 0, false;
      while eventPq != []
        invariant !raised && flushed + |eventPq| == |old(eventPq)|
        invariant State() == Steps(old(State()), flushed)
        decreases |eventPq|
      {
        StepShrinks(State());
        WorkedOffInOrder(old(State()), flushed + 1);
        var popped;
        popped, raised := RunStep();
        if raised { return; }
        flushed := flushed + 1;
      }
      WorkedOffInOrder(old(State()), flushed);
    }
  }

  lemma DrainStep(a: Actor)
    ensures Drain(a) == if a.next in a.buffer then Drain(ApplyNext(a)) else a
  {
    hide Apply;
  }

  lemma RaisesIgnoresQueue(a: Actor, e: Event)
    requires a.queue != []
    ensures Raises(Popped(a), e) == Raises(a, e)
  {
  }

  function Steps(a: Actor, n: nat): Actor { if n == 0 then a else RunEventStep(Steps(a, n - 1)) }

  lemma StepPops(a: Actor)
    ensures RunEventStep(a).queue == if a.queue == [] then [] else Popped(a).queue
  {
    hide Process, Reconcile, Raises, Popped, FirstUp;
    if a.queue == [] {
      ReconcileKeepsQueue(a);
    } else {
      var e := a.queue[FirstUp(a.queue)];
      ProcessKeepsQueue(Popped(a), e);
      ReconcileKeepsQueue(NoteProcessed(Process(Popped(a), e), Raises(a, e), e.eventType));
    }
  }

  lemma ProcessKeepsQueue(a: Actor, e: Event)
    ensures Process(a, e).queue == a.queue
  {
    hide RequestCancel, SubmitOrder;
  }

  lemma ReconcileKeepsQueue(a: Actor)
    ensures Reconcile(a).queue == a.queue
  {
  }

  lemma StepShrinks(a: Actor)
    ensures a.queue != [] ==> |RunEventStep(a).queue| == |a.queue| - 1
  {
    hide RunEventStep;
    StepPops(a);
  }

  lemma {:induction false} StepsShrink(a: Actor, n: nat)
    requires n <= |a.queue|
    ensures |Steps(a, n).queue| == |a.queue| - n
  {
    hide RunEventStep;
    if n > 0 {
      StepsShrink(a, n - 1);
      StepShrinks(Steps(a, n - 1));
    }
  }

  /** By tier, and within a tier by number. */
  ghost predicate InTurn(events: seq<Event>) {
    forall i, j :: 0 <= i < j < |events| ==> NotAfter(events[i], events[j])
  }

  /** The events that n steps take from the queue, in the order they are taken. */
  function WorkedOff(a: Actor, n: nat): seq<Event>
    requires n <= |a.queue|
  {
    if n == 0 then []
    else
      hide RunEventStep, Steps, FirstUp;
      StepsShrink(a, n - 1);
      var q := Steps(a, n - 1).queue;
      WorkedOff(a, n - 1) + [q[FirstUp(q)]]
  }

  lemma NothingWorkedOff(a: Actor)
    ensures WorkedOff(a, 0) == [] && Steps(a, 0) == a
  {
  }

  lemma PoppedKeepsRest(a: Actor)
    requires a.queue != []
    ensures multiset(Popped(a).queue) + multiset{a.queue[FirstUp(a.queue)]} == multiset(a.queue)
    ensures forall e :: e in Popped(a).queue ==> e in a.queue && NotAfter(a.queue[FirstUp(a.queue)], e)
  {
    hide NotAfter, FirstUp;
    var i := FirstUp(a.queue);
    assert a.queue == a.queue[..i] + [a.queue[i]] + a.queue[i + 1..];
  }

  /** Steps take the queue's events in (tier, number) order, each once; whatever is
      left comes after all that were taken. */
  lemma {:induction false} WorkedOffInOrder(a: Actor, n: nat)
    requires n <= |a.queue|
    ensures InTurn(WorkedOff(a, n))
    ensures multiset(WorkedOff(a, n)) + multiset(Steps(a, n).queue) == multiset(a.queue)
    ensures forall done, left :: done in WorkedOff(a, n) && left in Steps(a, n).queue ==> NotAfter(done, left)
  {
    hide RunEventStep, NotAfter, FirstUp, Popped, InTurn;
    if n == 0 {
      NothingInTurn();
    } else {
      WorkedOffInOrder(a, n - 1);
      StepsShrink(a, n - 1);
      var b := Steps(a, n - 1);
      StepPops(b);
      PoppedKeepsRest(b);
      TakeNext(WorkedOff(a, n - 1), b.queue, b.queue[FirstUp(b.queue)], Popped(b).queue, multiset(a.queue));
    }
  }

  lemma NothingInTurn()
    ensures InTurn([])
  {
  }

  /** Taking the first event of what is left keeps what was taken in order and complete. */
  lemma TakeNext(done: seq<Event>, left: seq<Event>, e: Event, rest: seq<Event>, all: multiset<Event>)
    requires InTurn(done) && multiset(done) + multiset(left) == all
    requires forall d, l :: d in done && l in left ==> NotAfter(d, l)
    requires multiset(rest) + multiset{e} == multiset(left)
    requires e in left && forall r :: r in rest ==> r in left && NotAfter(e, r)
    ensures InTurn(done + [e]) && multiset(done + [e]) + multiset(rest) == all
    ensures forall d, r :: d in done + [e] && r in rest ==> NotAfter(d, r)
  {
    hide NotAfter;
  }
}

/** Delivery guarantees of the re-sequencing buffer. */
module DeliveryProofs {
  import opened Common
  import opened ActorOms

  /** The state after messages 1..n of the log, in order and once each. */
  function ApplyUpTo(c: Core, log: int -> Message, n: nat): Core {
    if n == 0 then c else Apply(ApplyUpTo(c, log, n - 1), log(n))
  }

  function ReceiveAll(a: Actor, arrivals: seq<Message>): Actor {
    if arrivals == [] then a else Receive(ReceiveAll(a, arrivals[..|arrivals| - 1]), arrivals[|arrivals| - 1])
  }

  /** Every arrival is a copy of the log's message of that number. */
  ghost predicate CopiesOf(arrivals: seq<Message>, log: int -> Message) {
    forall i :: 0 <= i < |arrivals| ==> arrivals[i] == log(arrivals[i].seqNum)
  }

  /** The message numbers that have arrived. */
  function Numbers(arrivals: seq<Message>): set<int> {
    if arrivals == [] then {} else Numbers(arrivals[..|arrivals| - 1]) + {arrivals[|arrivals| - 1].seqNum}
  }

  /** Bookkeeping of an actor that started as `start` and has been handed copies
      of the messages numbered `got`. */
  ghost predicate Tracks(a: Actor, start: Actor, got: set<int>, log: int -> Message) {
    && a.next >= 1
    && a.core == ApplyUpTo(start.core, log, a.next - 1)
    && a == start.(core := a.core, buffer := a.buffer, next := a.next)
    && (forall k :: 1 <= k < a.next ==> k in got)
    && (forall k :: k in a.buffer ==> k in got && a.buffer[k] == log(k))
    && (forall k :: k in got && k >= a.next ==> k in a.buffer)
  }

  lemma ApplyOneMore(c: Core, log: int -> Message, n: nat)
    requires n > 0
    ensures ApplyUpTo(c, log, n) == Apply(ApplyUpTo(c, log, n - 1), log(n))
  {
    hide Apply;
  }

  lemma {:induction false} DrainTracks(a: Actor, start: Actor, got: set<int>, log: int -> Message)
    requires Tracks(a, start, got, log)
    ensures Tracks(Drain(a), start, got, log) && Drain(a).next !in Drain(a).buffer
    decreases |a.buffer|
  {
    hide Apply, ApplyUpTo;
    if a.next in a.buffer {
      ApplyOneMore(start.core, log, a.next);
      DrainTracks(ApplyNext(a), start, got, log);
    }
  }

  /** Whatever the order and repetition of arrivals: what has been applied is
      exactly messages 1..next-1, once each and in order, and the expected
      number never sits in the buffer, because it has not arrived. */
  lemma {:induction false} DeliveredInOrder(start: Actor, arrivals: seq<Message>, log: int -> Message)
    requires start.next == 1 && start.buffer == map[] && CopiesOf(arrivals, log)
    ensures var a := ReceiveAll(start, arrivals);
            && Tracks(a, start, Numbers(arrivals), log)
            && a.next !in a.buffer && a.next !in Numbers(arrivals)
    decreases arrivals
  {
    hide Drain, Apply;
    if arrivals != [] {
      var n := |arrivals| - 1;
      DeliveredInOrder(start, arrivals[..n], log);
      var a, m := ReceiveAll(start, arrivals[..n]), arrivals[n];
      DrainTracks(a.(buffer := a.buffer[m.seqNum := m]), start, Numbers(arrivals), log);
    }
  }

  /** Exactly-once delivery: once 1..n have all arrived, and n+1 has not, in any
      order and with any repetitions, orders and position are those of applying
      1..n in order. */
  lemma ExactlyOnce(start: Actor, arrivals: seq<Message>, log: int -> Message, n: nat)
    requires start.next == 1 && start.buffer == map[] && CopiesOf(arrivals, log)
    requires (forall k :: 1 <= k <= n ==> k in Numbers(arrivals)) && n + 1 !in Numbers(arrivals)
    ensures var a := ReceiveAll(start, arrivals);
            a.next == n + 1 && a.core == ApplyUpTo(start.core, log, n)
  {
    DeliveredInOrder(start, arrivals, log);
  }

  /** Two arrival histories of the same numbers end alike, however interleaved. */
  lemma ArrivalOrderIsIrrelevant(start: Actor, one: seq<Message>, other: seq<Message>, log: int -> Message)
    requires start.next == 1 && start.buffer == map[] && CopiesOf(one, log) && CopiesOf(other, log)
    requires Numbers(one) == Numbers(other)
    ensures var a, b := ReceiveAll(start, one), ReceiveAll(start, other);
            a.next == b.next && a.core == b.core
  {
    hide ApplyUpTo;
    DeliveredInOrder(start, one, log);
    DeliveredInOrder(start, other, log);
    var a, b := ReceiveAll(start, one), ReceiveAll(start, other);
    assert a.next < b.next ==> a.next in Numbers(other);
    assert b.next < a.next ==> b.next in Numbers(one);
  }

  /** A number already applied only re-enters the buffer, and stays there unapplied. */
  lemma StaleIsNotApplied(a: Actor, m: Message)
    requires m.seqNum < a.next && a.next !in a.buffer
    ensures Receive(a, m) == a.(buffer := a.buffer[m.seqNum := m])
  {
  }

  // -------------------------------------------------------------------------
  // What messages do to orders and position
  // -------------------------------------------------------------------------

  function SignedFill(orders: map<string, Order>, m: Message): real {
    if m.msgType != FILL then 0.0
    else if m.orderId in orders && orders[m.orderId].side == "BUY" then m.qty
    else -m.qty
  }

  function SignedFills(orders: map<string, Order>, log: int -> Message, n: nat): real {
    if n == 0 then 0.0
    else SignedFills(orders, log, n - 1) + SignedFill(orders, log(n))
  }

  /** Messages never change an order's side, so the position moves by every fill,
      signed by the side its order was submitted with; unknown orders sell. */
  lemma {:induction false} PositionIsSignedFills(c: Core, log: int -> Message, n: nat)
    ensures ApplyUpTo(c, log, n).position == c.position + SignedFills(c.orders, log, n)
    ensures ApplyUpTo(c, log, n).orders.Keys == c.orders.Keys
    ensures forall id :: id in c.orders ==> ApplyUpTo(c, log, n).orders[id].side == c.orders[id].side
  {
    if n > 0 {
      PositionIsSignedFills(c, log, n - 1);
      var b := ApplyUpTo(c, log, n - 1);
      assert Direction(b.orders, log(n).orderId) == Direction(c.orders, log(n).orderId);
      assert Apply(b, log(n)).position == b.position + SignedFill(c.orders, log(n));
    }
  }

  /** FILLED is left exactly by a rejection, or by a fill that still does not
      complete the order (one that a late fill had marked FILLED early). */
  lemma FilledIsLeftExactlyWhen(c: Core, m: Message, id: string)
    requires id in c.orders && c.orders[id].status == FILLED
    ensures Apply(c, m).orders[id].status != FILLED <==>
            m.orderId == id && (m.msgType == REJECT
                                || (m.msgType == FILL && c.orders[id].filledQty + m.qty < c.orders[id].qty))
  {
  }

  /** What one message does, from the message and the state before it: a fill adds its
      quantity and completes the order if that covers it or a cancel was pending; a
      confirmed cancel or a rejection names the order's status, but no cancel undoes a
      fill; everything else, and every other order, stays. */
  lemma MessageOutcome(c: Core, m: Message, id: string)
    requires id in c.orders
    ensures var was, now := c.orders[id], Apply(c, m).orders[id];
      && Apply(c, m).orders.Keys == c.orders.Keys
      && now.side == was.side && now.price == was.price && now.qty == was.qty
      && now.filledQty == (if m.orderId == id && m.msgType == FILL then was.filledQty + m.qty else was.filledQty)
      && (m.orderId != id || m.msgType == CANCEL_REJECTED || m.msgType == Other ==> now == was)
      && (m.orderId == id && m.msgType == REJECT ==> now.status == REJECTED)
      && (m.orderId == id && m.msgType == CANCEL_CONFIRMED ==>
            now.status == if was.status == FILLED then FILLED else CANCELLED)
      && (m.orderId == id && m.msgType == FILL ==>
            now.status == if was.status == PENDING_CANCEL || was.filledQty + m.qty >= was.qty
                          then FILLED else PARTIALLY_FILLED)
    ensures m.msgType != FILL ==> Apply(c, m).position == c.position
  {
  }

  // -------------------------------------------------------------------------
  // What events and reconciliation do
  // -------------------------------------------------------------------------

  predicate Alarm(eventType: string) {
    || eventType == "STALE_QUOTE_DETECTED" || eventType == "EMERGENCY_CANCEL"
    || eventType == "KILL_SWITCH" || eventType == "TOXIC_FLOW"
  }

  /** An alarm puts the order it names into cancel limbo if it is ACTIVE or NEW; an entry
      submits an order unless the actor is halted; nothing else touches an order, and
      no event moves the position, the mailbox or the halt flags. */
  lemma EventOutcome(a: Actor, e: Event)
    ensures var b, named := Process(a, e), e.payload.orderId;
      && b == a.(core := a.core.(orders := b.core.orders))
      && (Alarm(e.eventType) && named.Some? && named.value != "" && named.value in a.core.orders
          && a.core.orders[named.value].status in {ACTIVE, NEW} ==>
            b.core.orders == a.core.orders[named.value := a.core.orders[named.value].(status := PENDING_CANCEL)])
      && (e.eventType == "SNIPER_ENTRY" && !a.halted && named.Some? ==>
            b.core.orders == a.core.orders[named.value := Order(
              if e.payload.side.Some? then e.payload.side.value else "BUY",
              if e.payload.price.Some? then e.payload.price.value else 50000.0,
              if e.payload.qty.Some? then e.payload.qty.value else 1.0, 0.0, ACTIVE)])
      && (b.core.orders != a.core.orders ==>
            || (e.eventType == "SNIPER_ENTRY" && !a.halted && named.Some?)
            || (Alarm(e.eventType) && named.Some? && named.value in a.core.orders
                && a.core.orders[named.value].status in {ACTIVE, NEW}))
  {
    assert Alarm(e.eventType) <==> IsSafetyEvent(e.eventType);
  }

  /** A reconciliation trips the breaker and halts exactly when the two positions differ by
      more than the allowed share of the larger of them and one; short of that a
      difference of more than a millionth is settled in the exchange's favour. A
      snapshot without a position agrees with ours. */
  lemma ReconcilesExactly(a: Actor)
    requires a.mailbox.Some?
    ensures var mine, seen, b := a.core.position, a.mailbox.value.exchangePosition, Reconcile(a);
            var theirs := if seen.Some? then seen.value else mine;
            var apart := Abs(theirs - mine);
            var trips := apart > Value(a.maxDiscrepancy, Max(Max(Abs(theirs), Abs(mine)), 1.0));
      && b.halted == (a.halted || trips) && b.tripped == (a.tripped || trips)
      && b.core == Core(a.core.orders, if !trips && apart > 0.000001 then theirs else mine)
      && b.processed == a.processed + (if !trips && apart > 0.000001 then ["DELTA_SYNC"] else [])
      && b == a.(mailbox := None, halted := b.halted, tripped := b.tripped, core := b.core, processed := b.processed)
  {
    hide Abs, Max, Value;
    var mine, theirs := a.core.position, Or(a.mailbox.value.exchangePosition, a.core.position);
    AtLeastOne(Max(Abs(theirs), Abs(mine)));
    QuotientCompares(Abs(theirs - mine), Max(Max(Abs(theirs), Abs(mine)), 1.0), a.maxDiscrepancy);
  }

  lemma AtLeastOne(x: real)
    ensures Max(x, 1.0) >= 1.0
  {
  }

  /** One step, from beginning to end: the event that nothing else comes before is taken and
      noted, unless it raises; and whatever it did, the mailbox has been emptied after it. */
  lemma StepOutcome(a: Actor)
    ensures RunEventStep(a).mailbox.None? && RunEventStep(a).counter == a.counter
    ensures RunEventStep(a).buffer == a.buffer && RunEventStep(a).next == a.next
    ensures a.queue != [] ==>
      var e := a.queue[FirstUp(a.queue)];
      && (forall f :: f in a.queue ==> NotAfter(e, f))
      && var raises := e.eventType == "SNIPER_ENTRY" && !a.halted && e.payload.orderId.None?;
         var note := if raises then a.processed else a.processed + [e.eventType];
         note <= RunEventStep(a).processed && |RunEventStep(a).processed| <= |note| + 1
         && (a.mailbox.None? ==>
               RunEventStep(a) == Process(Popped(a), e).(processed := note))
    ensures a.queue == [] && a.mailbox.None? ==> RunEventStep(a) == a
  {
    hide Popped, FirstUp, Abs, Max, RequestCancel, SubmitOrder, NotAfter;
    if a.queue != [] {
      var e := a.queue[FirstUp(a.queue)];
      KeepsTheRest(Popped(a), e);
      PoppedIs(a);
    }
  }

  lemma PoppedIs(a: Actor)
    requires a.queue != []
    ensures Popped(a) == a.(queue := Popped(a).queue)
  {
  }

  lemma KeepsTheRest(a: Actor, e: Event)
    ensures Process(a, e) == a.(core := Process(a, e).core)
  {
    hide RequestCancel, SubmitOrder;
  }
}
