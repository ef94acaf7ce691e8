/** The portfolio governor over its registered actors, and the interleaved
    system of governor and actors in which a global halt has to hold. */
module Governor {
  import opened Common
  import opened ActorOms

  /** What a halt and a successful reset do to one actor. */
  function HaltOrders(orders: map<string, Order>): map<string, Order> {
    map id | id in orders :: if Resting(orders[id]) then orders[id].(status := PENDING_CANCEL) else orders[id]
  }

  function HaltActor(a: Actor): Actor {
    a.(halted := true, core := a.core.(orders := HaltOrders(a.core.orders)))
  }

  function ResumeActor(a: Actor): Actor { a.(halted := false, tripped := false) }

  function CanResume(halted: bool, haltTs: Option<real>, cooldown: real, now: real): bool {
    !halted || haltTs.None? || now - haltTs.value >= cooldown
  }

  ghost predicate NoneResting(a: Actor) {
    forall id :: id in a.core.orders ==> a.core.orders[id].status != ACTIVE && a.core.orders[id].status != NEW
  }

  /** Sets the state of some symbols and leaves the rest. */
  function Marked(states: map<string, string>, symbols: set<string>, state: string): map<string, string> {
    states + map s | s in symbols :: state
  }

  lemma MarkNone(states: map<string, string>, state: string)
    ensures Marked(states, {}, state) == states
  {
  }

  lemma AllMarked(states: map<string, string>, symbols: set<string>, state: string)
    ensures var marked := Marked(states, symbols, state);
            forall s :: s in symbols ==> s in marked && marked[s] == state
  {
  }

  lemma Parked(a: Actor)
    ensures HaltActor(a).halted && NoneResting(HaltActor(a))
  {
  }

  lemma MarkOne(states: map<string, string>, all: set<string>, todo: set<string>, s: string, state: string)
    requires todo <= all && s in todo
    ensures Marked(states, all - todo, state)[s := state] == Marked(states, all - (todo - {s}), state)
  {
    assert all - (todo - {s}) == all - todo + {s};
  }

  class PortfolioGovernor {
    const maxPortfolioRiskPct: real
    const haltCooldownSec: real
    var actors: map<string, OMSActorEngine>
    var actorStates: map<string, string>
    var symbolRiskPct: map<string, real>
    var isGloballyHalted: bool
    var haltTriggeredTs: Option<real>

    /** A halt always carries the time it was triggered. */
    ghost predicate Valid()
      reads this
    {
      isGloballyHalted ==> haltTriggeredTs.Some?
    }

    constructor (maxPortfolioRiskPct: real, haltCooldownSec: real)
      ensures Valid() && actors == map[] && !isGloballyHalted && symbolRiskPct == map[]
      ensures this.maxPortfolioRiskPct == maxPortfolioRiskPct && this.haltCooldownSec == haltCooldownSec
    {
      this.maxPortfolioRiskPct, this.haltCooldownSec := maxPortfolioRiskPct, haltCooldownSec;
      actors, actorStates, symbolRiskPct := map[], map[], map[];
      isGloballyHalted, haltTriggeredTs := false, None;
    }

    method RegisterActor(symbol: string, actor: OMSActorEngine)
      requires Valid()
      modifies this
      ensures Valid()
      ensures actors == old(actors)[symbol := actor] && actorStates == old(actorStates)[symbol := "ACTIVE"]
      ensures symbolRiskPct == old(symbolRiskPct)[symbol := 0.0]
      ensures isGloballyHalted == old(isGloballyHalted) && haltTriggeredTs == old(haltTriggeredTs)
    {
      actors, actorStates := actors[symbol := actor], actorStates[symbol := "ACTIVE"];
      symbolRiskPct := symbolRiskPct[symbol := 0.0];
    }

    /** Total of the per-symbol risk contributions. */
    method PortfolioRiskExposurePct() returns (total: real)
      ensures total == MapSum(symbolRiskPct)
    {
      total := 0.0;
      var left := symbolRiskPct;
      while left != map[]
        invariant total + MapSum(left) == MapSum(symbolRiskPct)
        decreases |left|
      {
        var s :| s in left;
        MapSumTakeOut(left, s);
        total := total + left[s];
        left := left - {s};
      }
    }

    /** Moves every resting order of one actor into cancel limbo. */
    static method CancelResting(actor: OMSActorEngine)
      modifies actor
      ensures actor.State() ==
              old(actor.State()).(core := Core(HaltOrders(old(actor.orders)), old(actor.localPosition)))
    {
      var todo := actor.orders.Keys;
      while todo != {}
        invariant todo <= actor.orders.Keys == old(actor.orders).Keys
        invariant forall id :: id in actor.orders && id !in todo ==>
                  actor.orders[id] == HaltOrders(old(actor.orders))[id]
        invariant forall id :: id in todo ==> actor.orders[id] == old(actor.orders)[id]
        invariant actor.State() == old(actor.State()).(core := Core(actor.orders, old(actor.localPosition)))
        decreases todo
      {
        var id :| id in todo;
        if actor.orders[id].status == ACTIVE || actor.orders[id].status == NEW {
          var _ := actor.CancelRequest(id);
        }
        todo := todo - {id};
      }
      assert actor.orders == HaltOrders(old(actor.orders));
    }

    static method HaltOne(actor: OMSActorEngine)
      modifies actor
      ensures actor.State() == HaltActor(old(actor.State()))
    {
      actor.isHalted := true;
      CancelResting(actor);
    }

    lemma HaltTwice(a: Actor)
      ensures HaltActor(HaltActor(a)) == HaltActor(a)
    {
      assert HaltOrders(HaltOrders(a.core.orders)) == HaltOrders(a.core.orders);
    }

    /** Every registered actor ends halted with no resting order, also when it is registered under several symbols. */
    method TriggerGlobalHalt(now: real)
      requires Valid()
      modifies this, actors.Values
      ensures Valid() && isGloballyHalted && haltTriggeredTs == Some(now)
      ensures actors == old(actors) && symbolRiskPct == old(symbolRiskPct)
      ensures forall a :: a in actors.Values ==> a.State() == HaltActor(old(a.State()))
      ensures forall a :: a in actors.Values ==> a.isHalted && NoneResting(a.State())
      ensures forall s :: s in actors ==> s in actorStates && actorStates[s] == "DEFENSIVE"
      ensures actorStates == Marked(old(actorStates), actors.Keys, "DEFENSIVE")
    {
      hide HaltActor, HaltOrders, OMSActorEngine.State, Marked;
      isGloballyHalted, haltTriggeredTs := true, Some(now);
      var todo := actors.Keys;
      ghost var done: set<OMSActorEngine> := {};
      assert actors.Keys - todo == {};
      MarkNone(actorStates, "DEFENSIVE");
      while todo != {}
        invariant todo <= actors.Keys && actors == old(actors) && symbolRiskPct == old(symbolRiskPct)
        invariant isGloballyHalted && haltTriggeredTs == Some(now)
        invariant forall s :: s in actors && s !in todo ==> actors[s] in done
        invariant actorStates == Marked(old(actorStates), actors.Keys - todo, "DEFENSIVE")
        invariant done <= actors.Values
        invariant forall a :: a in actors.Values ==>
                    a.State() == if a in done then HaltActor(old(a.State())) else old(a.State())
        decreases todo
      {
        var s :| s in todo;
        var actor := actors[s];
        HaltTwice(old(actor.State()));
        MarkOne(old(actorStates), actors.Keys, todo, s, "DEFENSIVE");
        actorStates := actorStates[s := "DEFENSIVE"];
        HaltOne(actor);
        done := done + {actor};
        todo := todo - {s};
      }
      assert actors.Keys - {} == actors.Keys;
      forall a | a in actors.Values ensures a in done {
        var s :| s in actors && actors[s] == a;
      }
      AllMarked(old(actorStates), actors.Keys, "DEFENSIVE");
      forall a | a in actors.Values ensures a.isHalted && NoneResting(a.State()) {
        Parked(old(a.State()));
        assert a.State().halted == a.isHalted by { FlagIs(a); }
      }
    }

    static lemma FlagIs(a: OMSActorEngine)
      ensures a.State().halted == a.isHalted && a.State().tripped == a.circuitBreakerTripped
      ensures a.State().core == Core(a.orders, a.localPosition)
    {
    }

    /** Reports a breach, and halts, exactly when the new total reaches the limit. */
    method UpdatePortfolioRisk(symbol: string, riskPct: real, now: real) returns (breached: bool)
      requires Valid()
      modifies this, actors.Values
      ensures Valid() && actors == old(actors) && symbolRiskPct == old(symbolRiskPct)[symbol := riskPct]
      ensures breached <==> MapSum(old(symbolRiskPct)[symbol := riskPct]) >= maxPortfolioRiskPct
      ensures forall a :: a in actors.Values ==>
                a.State() == if breached then HaltActor(old(a.State())) else old(a.State())
      ensures if breached then isGloballyHalted && haltTriggeredTs == Some(now)
              else isGloballyHalted == old(isGloballyHalted) && haltTriggeredTs == old(haltTriggeredTs)
      ensures actorStates == if breached then Marked(old(actorStates), actors.Keys, "DEFENSIVE") else old(actorStates)
    {
      symbolRiskPct := symbolRiskPct[symbol := riskPct];
      var total := PortfolioRiskExposurePct();
      breached := total >= maxPortfolioRiskPct;
      if breached { TriggerGlobalHalt(now); }
    }

    lemma ResumeRule(halted: bool, haltTs: Option<real>, cooldown: real, now: real)
      requires halted ==> haltTs.Some?
      ensures CanResume(halted, haltTs, cooldown, now) <==> !halted || now - haltTs.value >= cooldown
    {
    }

    static method Clear(actor: OMSActorEngine)
      modifies actor
      ensures actor.State() == ResumeActor(old(actor.State()))
    {
      actor.isHalted, actor.circuitBreakerTripped := false, false;
    }

    lemma ResumeTwice(a: Actor)
      ensures ResumeActor(ResumeActor(a)) == ResumeActor(a)
    {
    }

    /** Resumes every registered actor, or does nothing at all while still cooling down. */
    method Reset(now: real) returns (ok: bool)
      requires Valid()
      modifies this, actors.Values
      ensures Valid() && actors == old(actors)
      ensures ok <==> CanResume(old(isGloballyHalted), old(haltTriggeredTs), haltCooldownSec, now)
      ensures !ok ==> unchanged(this) && forall a :: a in actors.Values ==> a.State() == old(a.State())
      ensures ok ==> !isGloballyHalted && haltTriggeredTs == None && symbolRiskPct == map s | s in actors :: 0.0
      ensures ok ==> forall a :: a in actors.Values ==> a.State() == ResumeActor(old(a.State()))
      ensures ok ==> forall a :: a in actors.Values ==>
                && !a.isHalted && !a.circuitBreakerTripped
                && a.orders == old(a.orders) && a.localPosition == old(a.localPosition)
      ensures ok ==> actorStates == Marked(old(actorStates), actors.Keys, "ACTIVE")
      ensures ok ==> forall s :: s in actors ==> s in actorStates && actorStates[s] == "ACTIVE"
    {
      hide ResumeActor, CanResume, OMSActorEngine.State, Marked;
      assert CanResume(isGloballyHalted, haltTriggeredTs, haltCooldownSec, now)
         <==> !isGloballyHalted || now - haltTriggeredTs.value >= haltCooldownSec by {
        ResumeRule(isGloballyHalted, haltTriggeredTs, haltCooldownSec, now);
      }
      ok := !isGloballyHalted || now - haltTriggeredTs.value >= haltCooldownSec;
      if !ok { return; }
      isGloballyHalted, haltTriggeredTs := false, None;
      symbolRiskPct := map s | s in actors :: 0.0;
      ResumeActors();
      AllMarked(old(actorStates), actors.Keys, "ACTIVE");
    }

    method ResumeActors()
      modifies this`actorStates, actors.Values
      ensures forall a :: a in actors.Values ==> a.State() == ResumeActor(old(a.State()))
      ensures forall a :: a in actors.Values ==>
                && !a.isHalted && !a.circuitBreakerTripped
                && a.orders == old(a.orders) && a.localPosition == old(a.localPosition)
      ensures actorStates == Marked(old(actorStates), actors.Keys, "ACTIVE")
    {
      hide ResumeActor, OMSActorEngine.State, Marked;
      var todo := actors.Keys;
      ghost var done: set<OMSActorEngine> := {};
      assert actors.Keys - todo == {};
      MarkNone(actorStates, "ACTIVE");
      while todo != {}
        invariant todo <= actors.Keys && done <= actors.Values
        invariant forall s :: s in actors && s !in todo ==> actors[s] in done
        invariant actorStates == Marked(old(actorStates), actors.Keys - todo, "ACTIVE")
        invariant forall a :: a in actors.Values ==>
                    a.State() == if a in done then ResumeActor(old(a.State())) else old(a.State())
        decreases todo
      {
        var s :| s in todo;
        ResumeTwice(old(actors[s].State()));
        Clear(actors[s]);
        MarkOne(old(actorStates), actors.Keys, todo, s, "ACTIVE");
        actorStates := actorStates[s := "ACTIVE"];
        done := done + {actors[s]};
        todo := todo - {s};
      }
      assert actors.Keys - {} == actors.Keys;
      forall a | a in actors.Values ensures a in done {
        var s :| s in actors && actors[s] == a;
      }
      forall a | a in actors.Values
        ensures !a.isHalted && !a.circuitBreakerTripped
        ensures a.orders == old(a.orders) && a.localPosition == old(a.localPosition)
      {
        ResumedState(a);
      }
    }

    /** A resumed actor is the one it was, without its halt flags. */
    static twostate lemma ResumedState(a: OMSActorEngine)
      requires a.State() == ResumeActor(old(a.State()))
      ensures !a.isHalted && !a.circuitBreakerTripped
      ensures a.orders == old(a.orders) && a.localPosition == old(a.localPosition)
    {
    }
  }
}

/** Safety of the global halt under every interleaving. */
module HaltProofs {
  import opened Common
  import opened ActorOms
  import opened Governor

  /** All actor objects there are, which of them are registered, and the governor's own fields. */
  datatype System = System(
    actors: map<nat, Actor>, registry: map<string, nat>, risk: map<string, real>,
    halted: bool, haltTs: Option<real>, cooldown: real, maxRisk: real)

  datatype Step =
    | RunEvent(actor: nat)
    | Deliver(actor: nat, msg: Message)
    | EnqueueTo(actor: nat, tier: nat, eventType: string, payload: Payload)
    | PutSnapshot(actor: nat, snapshot: Snapshot)
    | CancelOn(actor: nat, orderId: string)
    | Register(symbol: string, actor: nat)
    | UpdateRisk(symbol: string, riskPct: real, now: real)
    | Trigger(now: real)
    | TryReset(now: real)

  function Registered(s: System): set<nat> { s.registry.Values }

  function OnRegistered(s: System, f: Actor -> Actor): map<nat, Actor> {
    map id | id in s.actors :: if id in Registered(s) then f(s.actors[id]) else s.actors[id]
  }

  function Halt(s: System, now: real): System {
    s.(actors := OnRegistered(s, HaltActor), halted := true, haltTs := Some(now))
  }

  predicate Resumes(s: System, step: Step) { step.TryReset? && CanResume(s.halted, s.haltTs, s.cooldown, step.now) }

  ghost predicate Halts(s: System, step: Step) {
    step.Trigger? || (step.UpdateRisk? && MapSum(s.risk[step.symbol := step.riskPct]) >= s.maxRisk)
  }

  function OnActor(s: System, id: nat, f: Actor -> Actor): System {
    if id in s.actors then s.(actors := s.actors[id := f(s.actors[id])]) else s
  }

  ghost function Do(s: System, step: Step): System {
    match step
    case RunEvent(id) => OnActor(s, id, RunEventStep)
    case Deliver(id, m) => OnActor(s, id, a => Receive(a, m))
    case EnqueueTo(id, tier, t, p) => OnActor(s, id, a => Enqueue(a, tier, t, p))
    case PutSnapshot(id, snap) => OnActor(s, id, (a: Actor) => a.(mailbox := Some(snap)))
    case CancelOn(id, order) => OnActor(s, id, (a: Actor) => a.(core := RequestCancel(a.core, order)))
    case Register(symbol, id) =>
      if id in s.actors then s.(registry := s.registry[symbol := id], risk := s.risk[symbol := 0.0]) else s
    case UpdateRisk(symbol, pct, now) =>
      var t := s.(risk := s.risk[symbol := pct]);
      if MapSum(t.risk) >= s.maxRisk then Halt(t, now) else t
    case Trigger(now) => Halt(s, now)
    case TryReset(now) =>
      if !CanResume(s.halted, s.haltTs, s.cooldown, now) then s
      else s.(actors := OnRegistered(s, ResumeActor), halted := false, haltTs := None,
              risk := map symbol | symbol in s.registry :: 0.0)
  }

  ghost function Run(s: System, steps: seq<Step>): System {
    if steps == [] then s else Do(Run(s, steps[..|steps| - 1]), steps[|steps| - 1])
  }

  /** No reset of the run succeeds. */
  ghost predicate NeverResumes(s: System, steps: seq<Step>) {
    steps == [] || (NeverResumes(s, steps[..|steps| - 1]) && !Resumes(Run(s, steps[..|steps| - 1]), steps[|steps| - 1]))
  }

  /** Time of the latest halt in a run, given the one before it. */
  ghost function LatestHalt(s: System, steps: seq<Step>, first: real): real {
    if steps == [] then first
    else
      var before, step := steps[..|steps| - 1], steps[|steps| - 1];
      if Halts(Run(s, before), step) then step.now else LatestHalt(s, before, first)
  }

  /** A halted actor with nothing resting. */
  ghost predicate Quiet(a: Actor) { a.halted && NoneResting(a) }

  lemma {:induction false} DrainStaysQuiet(a: Actor)
    requires Quiet(a)
    ensures Quiet(Drain(a))
    decreases |a.buffer|
  {
    if a.next in a.buffer {
      DrainStaysQuiet(a.(core := Apply(a.core, a.buffer[a.next]), buffer := a.buffer - {a.next}, next := a.next + 1));
    }
  }

  lemma EventStaysQuiet(a: Actor)
    requires Quiet(a)
    ensures Quiet(RunEventStep(a))
  {
    if a.queue != [] {
      assert Quiet(Process(Popped(a), a.queue[FirstUp(a.queue)]));
    }
  }

  lemma HaltQuiets(a: Actor)
    ensures Quiet(HaltActor(a))
  {
  }

  lemma StepStaysQuiet(s: System, step: Step, id: nat)
    requires id in s.actors && Quiet(s.actors[id]) && !Resumes(s, step)
    ensures id in Do(s, step).actors && Quiet(Do(s, step).actors[id])
  {
    hide RunEventStep, Receive, HaltActor, Quiet, Enqueue, MapSum;
    match step
    case RunEvent(i) => EventStaysQuiet(s.actors[id]);
    case Deliver(i, m) => ReceiveStaysQuiet(s.actors[id], m);
    case UpdateRisk(_, _, _) => HaltQuiets(s.actors[id]);
    case Trigger(_) => HaltQuiets(s.actors[id]);
    case EnqueueTo(_, _, _, _) => SmallStepsStayQuiet(s.actors[id], step);
    case PutSnapshot(_, _) => SmallStepsStayQuiet(s.actors[id], step);
    case CancelOn(_, _) => SmallStepsStayQuiet(s.actors[id], step);
    case Register(_, _) =>
    case TryReset(_) =>
  }

  lemma ReceiveStaysQuiet(a: Actor, m: Message)
    requires Quiet(a)
    ensures Quiet(Receive(a, m))
  {
    DrainStaysQuiet(a.(buffer := a.buffer[m.seqNum := m]));
  }

  lemma SmallStepsStayQuiet(a: Actor, step: Step)
    requires Quiet(a)
    ensures step.EnqueueTo? ==> Quiet(Enqueue(a, step.tier, step.eventType, step.payload))
    ensures step.PutSnapshot? ==> Quiet(a.(mailbox := Some(step.snapshot)))
    ensures step.CancelOn? ==> Quiet(a.(core := RequestCancel(a.core, step.orderId)))
  {
  }

  /** Global halt safety: after a halt, on every run of events, messages, enqueues,
      snapshots, cancels, registrations, risk updates, further halts and failed
      resets, no actor registered at the halt has an ACTIVE or NEW order. */
  lemma {:induction false} HaltIsSafe(s: System, now: real, steps: seq<Step>, id: nat)
    requires id in s.actors && id in Registered(s)
    requires NeverResumes(Halt(s, now), steps)
    ensures var t := Run(Halt(s, now), steps);
            id in t.actors && t.actors[id].halted && NoneResting(t.actors[id])
    decreases steps
  {
    hide Do, HaltActor;
    if steps == [] {
      HaltQuiets(s.actors[id]);
    } else {
      var before := steps[..|steps| - 1];
      HaltIsSafe(s, now, before, id);
      StepStaysQuiet(Run(Halt(s, now), before), steps[|steps| - 1], id);
    }
  }

  lemma StepRemembersHalt(s: System, step: Step)
    requires s.halted && s.haltTs.Some? && !Resumes(s, step)
    ensures var t := Do(s, step);
            t.halted && t.haltTs == (if Halts(s, step) then Some(step.now) else s.haltTs) && t.cooldown == s.cooldown
  {
    hide MapSum, OnRegistered, RunEventStep, Receive, Enqueue, RequestCancel;
  }

  /** Along such a run the governor stays halted and remembers its latest halt,
      so a reset succeeds exactly when the cooldown since then has elapsed. */
  lemma {:induction false} ResetWaitsForCooldown(s: System, now: real, steps: seq<Step>, resetAt: real)
    requires NeverResumes(Halt(s, now), steps)
    ensures var t := Run(Halt(s, now), steps);
      && t.halted && t.haltTs == Some(LatestHalt(Halt(s, now), steps, now)) && t.cooldown == s.cooldown
      && (Resumes(t, TryReset(resetAt)) <==> resetAt - LatestHalt(Halt(s, now), steps, now) >= s.cooldown)
    decreases steps
  {
    hide Do, Halts, OnRegistered;
    if steps != [] {
      var n := |steps| - 1;
      ResetWaitsForCooldown(s, now, steps[..n], resetAt);
      StepRemembersHalt(Run(Halt(s, now), steps[..n]), steps[n]);
    }
  }

  /** A halt loses nothing: an order that was resting awaits its cancel, keeps its figures,
      and ends as the exchange decides: a fill that crossed the cancel completes it in
      the books, a confirmation cancels it, a rejection rejects it. Other orders and the
      position are as they were. */
  lemma HaltedOrdersResolve(a: Actor, m: Message, id: string)
    requires id in a.core.orders && m.orderId == id
    ensures var was, parked := a.core.orders[id], HaltActor(a).core.orders[id];
            var now := Apply(HaltActor(a).core, m).orders[id];
            var resting := was.status == ACTIVE || was.status == NEW;
      && HaltActor(a) == a.(halted := true, core := HaltActor(a).core)
      && HaltActor(a).core.orders.Keys == a.core.orders.Keys && HaltActor(a).core.position == a.core.position
      && parked == (if resting then was.(status := PENDING_CANCEL) else was)
      && (resting && m.msgType == FILL ==> now.status == FILLED && now.filledQty == was.filledQty + m.qty)
      && (resting && m.msgType == CANCEL_CONFIRMED ==> now.status == CANCELLED)
      && (resting && m.msgType == REJECT ==> now.status == REJECTED)
  {
  }

  /** After a successful reset an entry event submits its order again. */
  lemma TradingResumes(s: System, now: real, id: nat, e: Event)
    requires Resumes(s, TryReset(now)) && id in s.actors && id in Registered(s)
    requires e.eventType == "SNIPER_ENTRY" && e.payload.orderId.Some?
    ensures var t := Do(s, TryReset(now));
            && id in t.actors && !t.actors[id].halted && !t.actors[id].tripped
            && t.actors[id].core == s.actors[id].core
            && var b := Process(t.actors[id], e);
               e.payload.orderId.value in b.core.orders && b.core.orders[e.payload.orderId.value].status == ACTIVE
  {
    hide MapSum;
  }
}
