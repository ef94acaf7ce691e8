/** Delivery among everything else an actor does: exchange messages interleaved
    with event steps, enqueues, snapshots, submissions and cancels. */
module InterleavedDelivery {
  import opened Common
  import opened ActorOms
  import opened DeliveryProofs

  datatype Local =
    | RunEvent
    | EnqueueEvent(tier: nat, eventType: string, payload: Payload)
    | PutSnapshot(snapshot: Snapshot)
    | Submit(id: string, side: string, price: real, qty: real)
    | Cancel(id: string)

  datatype Step = Deliver(msg: Message) | Do(op: Local)

  /** What took effect, in order: an exchange message, or an operation of the actor's own. */
  datatype Act = Applied(msg: Message) | Did(op: Local)

  function DoLocal(a: Actor, op: Local): Actor {
    match op
    case RunEvent => RunEventStep(a)
    case EnqueueEvent(tier, t, p) => Enqueue(a, tier, t, p)
    case PutSnapshot(s) => a.(mailbox := Some(s))
    case Submit(id, side, price, qty) => a.(core := SubmitOrder(a.core, id, side, price, qty))
    case Cancel(id) => a.(core := RequestCancel(a.core, id))
  }

  function Run(a: Actor, steps: seq<Step>): Actor {
    if steps == [] then a
    else
      var b, step := Run(a, steps[..|steps| - 1]), steps[|steps| - 1];
      if step.Deliver? then Receive(b, step.msg) else DoLocal(b, step.op)
  }

  /** The buffered messages a drain applies. */
  function DrainActs(a: Actor): seq<Act>
    decreases |a.buffer|
  {
    if a.next !in a.buffer then [] else [Applied(a.buffer[a.next])] + DrainActs(ApplyNext(a))
  }

  function History(a: Actor, steps: seq<Step>): seq<Act> {
    if steps == [] then []
    else
      var before := steps[..|steps| - 1];
      var b, step := Run(a, before), steps[|steps| - 1];
      History(a, before)
        + if step.Deliver? then DrainActs(b.(buffer := b.buffer[step.msg.seqNum := step.msg])) else [Did(step.op)]
  }

  function Effect(a: Actor, act: Act): Actor {
    if act.Applied? then a.(core := Apply(a.core, act.msg)) else DoLocal(a, act.op)
  }

  /** An actor without a buffer: every message takes effect when it appears. */
  function Replay(a: Actor, acts: seq<Act>): Actor {
    if acts == [] then a
    else Effect(Replay(a, acts[..|acts| - 1]), acts[|acts| - 1])
  }

  function MessagesIn(acts: seq<Act>): seq<Message> {
    if acts == [] then []
    else
      var act := acts[|acts| - 1];
      MessagesIn(acts[..|acts| - 1]) + if act.Applied? then [act.msg] else []
  }

  function OpsIn(acts: seq<Act>): seq<Local> {
    if acts == [] then []
    else
      var act := acts[|acts| - 1];
      OpsIn(acts[..|acts| - 1]) + if act.Did? then [act.op] else []
  }

  function Arrivals(steps: seq<Step>): seq<Message> {
    if steps == [] then []
    else
      var step := steps[|steps| - 1];
      Arrivals(steps[..|steps| - 1]) + if step.Deliver? then [step.msg] else []
  }

  function OpsOf(steps: seq<Step>): seq<Local> {
    if steps == [] then []
    else
      var step := steps[|steps| - 1];
      OpsOf(steps[..|steps| - 1]) + if step.Do? then [step.op] else []
  }

  /** Messages 1..n of the log. */
  function FirstOf(log: int -> Message, n: nat): seq<Message> { seq(n, i requires 0 <= i < n => log(i + 1)) }

  // -------------------------------------------------------------------------
  // An actor's own operations do not touch the buffer, nor look at it
  // -------------------------------------------------------------------------

  lemma ProcessIgnoresBuffer(a: Actor, e: Event, buffer: map<int, Message>, next: int)
    ensures Process(a.(buffer := buffer, next := next), e) == Process(a, e).(buffer := buffer, next := next)
    ensures Raises(a.(buffer := buffer, next := next), e) == Raises(a, e)
  {
    hide RequestCancel, SubmitOrder, Or;
  }

  lemma ReconcileIgnoresBuffer(a: Actor, buffer: map<int, Message>, next: int)
    ensures Reconcile(a.(buffer := buffer, next := next)) == Reconcile(a).(buffer := buffer, next := next)
  {
    hide Or;
  }

  lemma LocalIgnoresBuffer(a: Actor, op: Local, buffer: map<int, Message>, next: int)
    ensures DoLocal(a.(buffer := buffer, next := next), op) == DoLocal(a, op).(buffer := buffer, next := next)
  {
    hide Process, Reconcile, Raises, RequestCancel, FirstUp;
    if op.RunEvent? {
      var b := a.(buffer := buffer, next := next);
      if a.queue == [] {
        ReconcileIgnoresBuffer(a, buffer, next);
      } else {
        var e := a.queue[FirstUp(a.queue)];
        ProcessIgnoresBuffer(Popped(a), e, buffer, next);
        ProcessIgnoresBuffer(a, e, buffer, next);
        assert Popped(b) == Popped(a).(buffer := buffer, next := next);
        ReconcileIgnoresBuffer(NoteProcessed(Process(Popped(a), e), Raises(a, e), e.eventType), buffer, next);
      }
    }
  }

  // -------------------------------------------------------------------------
  // Exactly once, in order, among everything else
  // -------------------------------------------------------------------------

  ghost predicate Follows(a: Actor, start: Actor, acts: seq<Act>, got: set<int>, log: int -> Message) {
    && a.next >= 1
    && a == Replay(start, acts).(buffer := a.buffer, next := a.next)
    && MessagesIn(acts) == FirstOf(log, a.next - 1)
    && (forall k :: 1 <= k < a.next ==> k in got)
    && (forall k :: k in a.buffer ==> k in got && a.buffer[k] == log(k))
    && (forall k :: k in got && k >= a.next ==> k in a.buffer)
  }

  lemma OneMoreAct(start: Actor, acts: seq<Act>, act: Act)
    ensures Replay(start, acts + [act]) == Effect(Replay(start, acts), act)
    ensures MessagesIn(acts + [act]) == MessagesIn(acts) + if act.Applied? then [act.msg] else []
    ensures OpsIn(acts + [act]) == OpsIn(acts) + if act.Did? then [act.op] else []
  {
    hide Effect;
    assert (acts + [act])[..|acts|] == acts;
  }

  lemma ApplyFollows(a: Actor, start: Actor, acts: seq<Act>, got: set<int>, log: int -> Message)
    requires Follows(a, start, acts, got, log) && a.next in a.buffer
    ensures Follows(ApplyNext(a), start, acts + [Applied(a.buffer[a.next])], got, log)
  {
    hide Apply, Replay, MessagesIn;
    OneMoreAct(start, acts, Applied(a.buffer[a.next]));
    assert FirstOf(log, a.next) == FirstOf(log, a.next - 1) + [log(a.next)];
  }

  lemma Regroup(acts: seq<Act>, act: Act, later: seq<Act>)
    ensures acts + ([act] + later) == acts + [act] + later
  {
  }

  lemma DrainActsStep(a: Actor)
    ensures a.next !in a.buffer ==> Drain(a) == a && DrainActs(a) == []
    ensures a.next in a.buffer ==>
      var m, b := a.buffer[a.next], ApplyNext(a);
      Drain(a) == Drain(b) && DrainActs(a) == [Applied(m)] + DrainActs(b) && |b.buffer| < |a.buffer|
  {
    hide Apply;
  }

  lemma {:induction false} DrainFollows(a: Actor, start: Actor, acts: seq<Act>, got: set<int>, log: int -> Message)
    requires Follows(a, start, acts, got, log)
    ensures Follows(Drain(a), start, acts + DrainActs(a), got, log) && Drain(a).next !in Drain(a).buffer
    ensures OpsIn(acts + DrainActs(a)) == OpsIn(acts)
    decreases |a.buffer|
  {
    hide ApplyNext, Follows, OpsIn, Drain, DrainActs;
    DrainActsStep(a);
    if a.next !in a.buffer {
      assert acts + [] == acts;
    } else {
      var m, b := a.buffer[a.next], ApplyNext(a);
      ApplyFollows(a, start, acts, got, log);
      OneMoreAct(start, acts, Applied(m));
      DrainFollows(b, start, acts + [Applied(m)], got, log);
      Regroup(acts, Applied(m), DrainActs(b));
    }
  }

  lemma ArrivalFollows(a: Actor, start: Actor, acts: seq<Act>, got: set<int>, log: int -> Message, m: Message)
    requires Follows(a, start, acts, got, log) && m == log(m.seqNum)
    ensures Follows(a.(buffer := a.buffer[m.seqNum := m]), start, acts, got + {m.seqNum}, log)
  {
    hide Replay, MessagesIn, FirstOf;
  }

  lemma LocalFollows(a: Actor, start: Actor, acts: seq<Act>, got: set<int>, log: int -> Message, op: Local)
    requires Follows(a, start, acts, got, log)
    ensures Follows(DoLocal(a, op), start, acts + [Did(op)], got, log)
    ensures DoLocal(a, op).next == a.next && DoLocal(a, op).buffer == a.buffer
  {
    hide DoLocal, Replay, MessagesIn, FirstOf;
    OneMoreAct(start, acts, Did(op));
    LocalIgnoresBuffer(Replay(start, acts), op, a.buffer, a.next);
  }

  /** Whatever an actor does between and around the arrivals of exchange messages,
      the outcome is that of a plain history in which its own operations come in
      the order they were called and the messages are exactly 1..next-1, each
      once and in order; the expected number is never left in the buffer. */
  lemma {:induction false} DeliveredAmongOperations(start: Actor, steps: seq<Step>, log: int -> Message)
    requires start.next == 1 && start.buffer == map[] && CopiesOf(Arrivals(steps), log)
    ensures var a, h := Run(start, steps), History(start, steps);
      && Follows(a, start, h, Numbers(Arrivals(steps)), log)
      && OpsIn(h) == OpsOf(steps)
      && a.next !in a.buffer && a.next !in Numbers(Arrivals(steps))
    decreases steps
  {
    hide Drain, DoLocal, Replay, DrainActs, MessagesIn, FirstOf, OpsIn;
    if steps == [] {
      NothingDone(start, log);
    } else {
      var before, step := steps[..|steps| - 1], steps[|steps| - 1];
      assert forall i :: 0 <= i < |Arrivals(before)| ==> Arrivals(before)[i] == Arrivals(steps)[i];
      DeliveredAmongOperations(start, before, log);
      var a, h, got := Run(start, before), History(start, before), Numbers(Arrivals(before));
      match step {
        case Deliver(m) =>
          assert Arrivals(steps) == Arrivals(before) + [m];
          assert Arrivals(steps)[|Arrivals(before)|] == m;
          NumbersSnoc(Arrivals(before), m);
          ArrivalFollows(a, start, h, got, log, m);
          DrainFollows(a.(buffer := a.buffer[m.seqNum := m]), start, h, got + {m.seqNum}, log);
        case Do(op) =>
          assert Arrivals(steps) == Arrivals(before);
          LocalFollows(a, start, h, got, log, op);
          OneMoreAct(start, h, Did(op));
      }
    }
  }

  lemma NothingDone(start: Actor, log: int -> Message)
    ensures Replay(start, []) == start && MessagesIn([]) == FirstOf(log, 0) && OpsIn([]) == []
  {
  }

  lemma NumbersSnoc(arrivals: seq<Message>, m: Message)
    ensures Numbers(arrivals + [m]) == Numbers(arrivals) + {m.seqNum}
  {
    assert (arrivals + [m])[..|arrivals|] == arrivals;
  }

  /** Once 1..n have arrived, and n+1 has not, exactly those n have taken effect. */
  lemma ExactlyOnceAmongOperations(start: Actor, steps: seq<Step>, log: int -> Message, n: nat)
    requires start.next == 1 && start.buffer == map[] && CopiesOf(Arrivals(steps), log)
    requires (forall k :: 1 <= k <= n ==> k in Numbers(Arrivals(steps))) && n + 1 !in Numbers(Arrivals(steps))
    ensures Run(start, steps).next == n + 1 && MessagesIn(History(start, steps)) == FirstOf(log, n)
  {
    hide FirstOf, Numbers, Run, History, MessagesIn, Replay;
    DeliveredAmongOperations(start, steps, log);
  }
}
