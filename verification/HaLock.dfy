/** The Redis lock protocol: every Redis command is one atomic step on the
    shared store, and the nodes' programs are interleaved between commands in
    any order. Time passes between any two steps. */
module HaLock {
  import opened Common

  type NodeId = nat
  type Token = nat

  /** The lock key with its owner's token and expiry time. */
  datatype Key = Key(token: Token, expires: real)

  /** Where a node stands inside acquire, heartbeat or release. */
  datatype Pc =
    | Idle | AcquireGet | AcquireExpire | HeartbeatExpire
    | CasWatch | CasGet(watched: nat) | CasExec(watched: nat)

  /** `result` is what the node's last completed call returned. */
  datatype Node = Node(token: Option<Token>, isActive: bool, pc: Pc, result: Option<bool>)

  datatype Issued = Issued(node: NodeId, value: nat)

  /** `version` counts writes to the key, as WATCH sees them; `used` holds every
      token ever drawn; `ttl` is the lease time, which is at least a millisecond. */
  datatype System = System(
    key: Option<Key>, version: nat, now: real, ttl: real, fence: nat, issued: seq<Issued>,
    used: set<Token>, nodes: map<NodeId, Node>)

  /** Whether a command reaches the server, and whether its reply comes back. */
  datatype Wire = Delivered | NotSent | ReplyLost

  datatype Step =
    | Tick(dt: real)
    | SetNx(node: NodeId, token: Token, wire: Wire)
    | GetForAcquire(node: NodeId, wire: Wire)
    | GetForHeartbeat(node: NodeId, wire: Wire)
    | PExpire(node: NodeId, wire: Wire)
    | EvalRelease(node: NodeId, wire: Wire)
    | Watch(node: NodeId, wire: Wire)
    | GetInTransaction(node: NodeId, wire: Wire)
    | Exec(node: NodeId, wire: Wire)
    | Incr(node: NodeId)

  function Start(ttl: real, ids: set<NodeId>): System {
    System(None, 0, 0.0, ttl, 0, [], {}, map n | n in ids :: Node(None, false, Idle, None))
  }

  predicate Live(s: System) { s.key.Some? && s.now < s.key.value.expires }

  function StoredToken(s: System): Option<Token> { if Live(s) then Some(s.key.value.token) else None }

  predicate HeldByUs(n: Node) { n.isActive && n.token.Some? }

  function Put(s: System, id: NodeId, n: Node): System { s.(nodes := s.nodes[id := n]) }

  function Return(n: Node, r: bool): Node { n.(pc := Idle, result := Some(r)) }

  function Delete(s: System): System { s.(key := None, version := s.version + 1) }

  /** A release gives up token and flag whatever became of the key. */
  function Released(n: Node): Node { n.(token := None, isActive := false, pc := Idle, result := None) }

  predicate Reaches(w: Wire) { w != NotSent }

  function DoSetNx(s: System, id: NodeId, n: Node, token: Token, wire: Wire): System {
    var drawn := s.(used := s.used + {token});
    var won := Reaches(wire) && !Live(s);
    var t := if won then drawn.(key := Some(Key(token, s.now + s.ttl)), version := s.version + 1) else drawn;
    if wire != Delivered then Put(t, id, Return(n, false))
    else if won then Put(t, id, Return(n.(token := Some(token), isActive := true), true))
    else Put(t, id, n.(pc := AcquireGet))
  }

  /** A failed read counts as an absent key. */
  function DoGetForAcquire(s: System, id: NodeId, n: Node, wire: Wire): System {
    var current := if wire == Delivered then StoredToken(s) else None;
    if n.token.Some? && current == n.token then Put(s, id, n.(pc := AcquireExpire))
    else Put(s, id, Return(n.(isActive := false), false))
  }

  function DoGetForHeartbeat(s: System, id: NodeId, n: Node, wire: Wire): System {
    if wire != Delivered then Put(s, id, Return(n, false))
    else if StoredToken(s) != n.token then Put(s, id, Return(n.(isActive := false, token := None), false))
    else Put(s, id, n.(pc := HeartbeatExpire))
  }

  /** Refreshes whatever key is live by now, whoever owns it; a failure raises out of the call. */
  function DoPExpire(s: System, id: NodeId, n: Node, wire: Wire): System {
    var t := if Reaches(wire) && Live(s)
             then s.(key := Some(s.key.value.(expires := s.now + s.ttl)), version := s.version + 1) else s;
    if wire != Delivered then Put(t, id, n.(pc := Idle, result := None))
    else Put(t, id, Return(if n.pc == AcquireExpire then n.(isActive := true) else n, true))
  }

  function DoEvalRelease(s: System, id: NodeId, n: Node, wire: Wire): System {
    var t := if Reaches(wire) && StoredToken(s) == n.token then Delete(s) else s;
    Put(t, id, if wire == Delivered then Released(n) else n.(pc := CasWatch))
  }

  /** EXEC applies the DEL only if nothing wrote the key since WATCH; expiry is not a write. */
  function DoExec(s: System, id: NodeId, n: Node, wire: Wire): System
    requires n.pc.CasExec?
  {
    var t := if Reaches(wire) && s.version == n.pc.watched && Live(s) then Delete(s) else s;
    Put(t, id, Released(n))
  }

  predicate Enabled(s: System, step: Step) {
    match step
    case Tick(dt) => dt >= 0.0
    case SetNx(id, token, _) => id in s.nodes && s.nodes[id].pc == Idle && token !in s.used
    case GetForAcquire(id, _) => id in s.nodes && s.nodes[id].pc == AcquireGet
    case GetForHeartbeat(id, _) => id in s.nodes && s.nodes[id].pc == Idle && HeldByUs(s.nodes[id])
    case PExpire(id, _) => id in s.nodes && (s.nodes[id].pc == AcquireExpire || s.nodes[id].pc == HeartbeatExpire)
    case EvalRelease(id, _) => id in s.nodes && s.nodes[id].pc == Idle && HeldByUs(s.nodes[id])
    case Watch(id, _) => id in s.nodes && s.nodes[id].pc == CasWatch
    case GetInTransaction(id, _) => id in s.nodes && s.nodes[id].pc.CasGet?
    case Exec(id, _) => id in s.nodes && s.nodes[id].pc.CasExec?
    case Incr(id) => id in s.nodes
  }

  function Do(s: System, step: Step): System
    requires Enabled(s, step)
  {
    match step
    case Tick(dt) => s.(now := s.now + dt)
    case SetNx(id, token, w) => DoSetNx(s, id, s.nodes[id], token, w)
    case GetForAcquire(id, w) => DoGetForAcquire(s, id, s.nodes[id], w)
    case GetForHeartbeat(id, w) => DoGetForHeartbeat(s, id, s.nodes[id], w)
    case PExpire(id, w) => DoPExpire(s, id, s.nodes[id], w)
    case EvalRelease(id, w) => DoEvalRelease(s, id, s.nodes[id], w)
    case Watch(id, w) =>
      Put(s, id, if w == Delivered then s.nodes[id].(pc := CasGet(s.version)) else Released(s.nodes[id]))
    case GetInTransaction(id, w) =>
      var n := s.nodes[id];
      Put(s, id, if w == Delivered && n.token.Some? && StoredToken(s) == n.token
                 then n.(pc := CasExec(n.pc.watched)) else Released(n))
    case Exec(id, w) => DoExec(s, id, s.nodes[id], w)
    case Incr(id) => s.(fence := s.fence + 1, issued := s.issued + [Issued(id, s.fence + 1)])
  }

  /** Every step of the run is enabled where it is taken. */
  ghost predicate Runs(s: System, steps: seq<Step>)
    decreases steps
  {
    steps == [] || (Enabled(s, steps[0]) && Runs(Do(s, steps[0]), steps[1..]))
  }

  function Run(s: System, steps: seq<Step>): System
    requires Runs(s, steps)
    decreases steps
  {
    if steps == [] then s else Run(Do(s, steps[0]), steps[1..])
  }
}

/** What holds over all interleavings of the lock protocol. */
module HaLockProofs {
  import opened Common
  import opened HaLock

  /** Tokens come from the drawn ones, and no two nodes hold the same. */
  ghost predicate TokensOk(s: System) {
    && (forall i :: i in s.nodes && s.nodes[i].token.Some? ==> s.nodes[i].token.value in s.used)
    && (forall i, j ::
          i in s.nodes && j in s.nodes && s.nodes[i].token.Some? && s.nodes[i].token == s.nodes[j].token ==> i == j)
    && (s.key.Some? ==> s.key.value.token in s.used)
  }

  /** A pending EXEC that would go through can only hit the node's own key. */
  ghost predicate WatchOk(s: System, n: Node) {
    && (n.pc.CasGet? ==> n.pc.watched <= s.version)
    && (n.pc.CasExec? ==> n.pc.watched <= s.version && n.token.Some?
                          && (n.pc.watched == s.version && s.key.Some? ==> s.key.value.token == n.token.value))
  }

  ghost predicate FencesOk(s: System) {
    && (forall i, j :: 0 <= i < j < |s.issued| ==> s.issued[i].value < s.issued[j].value)
    && (forall i :: 0 <= i < |s.issued| ==> s.issued[i].value <= s.fence)
  }

  ghost predicate Inv(s: System) {
    s.ttl > 0.0 && TokensOk(s) && FencesOk(s) && forall i :: i in s.nodes ==> WatchOk(s, s.nodes[i])
  }

  /** One node moves: its token stays, goes, or is newly drawn; a key that changes hands counts as a write. */
  ghost predicate NodeMoves(s: System, t: System, id: NodeId, m: Node) {
    && id in s.nodes && t.nodes == s.nodes[id := m] && t.issued == s.issued && t.fence == s.fence && t.ttl == s.ttl
    && s.used <= t.used && (t.key.Some? ==> t.key.value.token in t.used)
    && (m.token.None? || m.token == s.nodes[id].token || (m.token.value in t.used && m.token.value !in s.used))
    && s.version <= t.version
    && (s.version == t.version && t.key.Some? ==> s.key.Some? && s.key.value.token == t.key.value.token)
    && WatchOk(t, m)
  }

  lemma NodeMoveKeepsInv(s: System, t: System, id: NodeId, m: Node)
    requires Inv(s) && NodeMoves(s, t, id, m)
    ensures Inv(t)
  {
    forall i | i in t.nodes ensures WatchOk(t, t.nodes[i]) {
      if i != id { assert WatchOk(s, s.nodes[i]); }
    }
  }

  lemma StepIsNodeMove(s: System, step: Step)
    requires Inv(s) && Enabled(s, step) && !step.Tick? && !step.Incr?
    ensures step.node in Do(s, step).nodes && NodeMoves(s, Do(s, step), step.node, Do(s, step).nodes[step.node])
  {
    hide Inv;
    assert TokensOk(s) && WatchOk(s, s.nodes[step.node]) by { Parts(s, step.node); }
    match step
    case SetNx(_, _, _) =>
    case GetForAcquire(_, _) =>
    case GetForHeartbeat(_, _) =>
    case PExpire(_, _) =>
    case EvalRelease(_, _) =>
    case Watch(_, _) =>
    case GetInTransaction(_, _) =>
    case Exec(_, _) =>
  }

  lemma Parts(s: System, id: NodeId)
    requires Inv(s)
    ensures TokensOk(s) && FencesOk(s) && (id in s.nodes ==> WatchOk(s, s.nodes[id]))
  {
  }

  lemma StepKeepsInv(s: System, step: Step)
    requires Inv(s) && Enabled(s, step)
    ensures Inv(Do(s, step))
  {
    hide NodeMoves;
    if step.Tick? || step.Incr? {
      var t := Do(s, step);
      forall i | i in t.nodes ensures WatchOk(t, t.nodes[i]) { assert WatchOk(s, s.nodes[i]); }
    } else {
      StepIsNodeMove(s, step);
      NodeMoveKeepsInv(s, Do(s, step), step.node, Do(s, step).nodes[step.node]);
    }
  }

  lemma {:induction false} RunKeepsInv(s: System, steps: seq<Step>)
    requires Inv(s) && Runs(s, steps)
    ensures Inv(Run(s, steps))
    decreases steps
  {
    hide Do, Inv, Enabled;
    if steps != [] {
      StepKeepsInv(s, steps[0]);
      RunKeepsInv(Do(s, steps[0]), steps[1..]);
    }
  }

  lemma StartHolds(ttl: real, ids: set<NodeId>)
    requires ttl > 0.0
    ensures Inv(Start(ttl, ids))
  {
  }

  /** The node owns the stored key: the key is live and carries the node's token. */
  ghost predicate Owns(s: System, id: NodeId) {
    id in s.nodes && s.nodes[id].token.Some? && StoredToken(s) == s.nodes[id].token
  }

  /** At most one node owns the key, in every state of every run. */
  lemma AtMostOneOwner(ttl: real, ids: set<NodeId>, steps: seq<Step>, i: NodeId, j: NodeId)
    requires ttl > 0.0 && Runs(Start(ttl, ids), steps)
    requires var s := Run(Start(ttl, ids), steps); Owns(s, i) && Owns(s, j)
    ensures i == j
  {
    StartHolds(ttl, ids);
    RunKeepsInv(Start(ttl, ids), steps);
  }

  /** A step that removes or replaces a live key is the passing of its expiry
      time, or a release (by script or by transaction) of the node that owns it. */
  lemma OnlyExpiryOrOwnerEndsALease(ttl: real, ids: set<NodeId>, steps: seq<Step>, step: Step)
    requires ttl > 0.0 && Runs(Start(ttl, ids), steps)
    requires var s := Run(Start(ttl, ids), steps);
             Enabled(s, step) && Live(s) && StoredToken(Do(s, step)) != StoredToken(s)
    ensures var s := Run(Start(ttl, ids), steps);
      || (step.Tick? && s.key.value.expires <= s.now + step.dt)
      || ((step.EvalRelease? || step.Exec?) && Owns(s, step.node))
  {
    hide Run, Runs;
    StartHolds(ttl, ids);
    RunKeepsInv(Start(ttl, ids), steps);
    var s := Run(Start(ttl, ids), steps);
    if step.Exec? { assert WatchOk(s, s.nodes[step.node]); }
  }

  /** The token is not the one stored: its lease is over. */
  ghost predicate Lost(s: System, token: Token) { token in s.used && StoredToken(s) != Some(token) }

  lemma {:induction false} LostStaysLost(s: System, steps: seq<Step>, token: Token)
    requires Runs(s, steps) && Lost(s, token)
    ensures Lost(Run(s, steps), token)
    decreases steps
  {
    if steps != [] { LostStaysLost(Do(s, steps[0]), steps[1..], token); }
  }

  /** A node whose key is gone never sees it come back under its token: its next
      heartbeat that gets to read the key returns False and deactivates it. */
  lemma LoserIsDeactivated(s: System, steps: seq<Step>, id: NodeId, token: Token)
    requires Runs(s, steps) && Lost(s, token)
    requires var t := Run(s, steps);
             id in t.nodes && t.nodes[id].token == Some(token) && Enabled(t, GetForHeartbeat(id, Delivered))
    ensures var n := Do(Run(s, steps), GetForHeartbeat(id, Delivered)).nodes[id];
            !n.isActive && n.token.None? && n.result == Some(false) && n.pc == Idle
  {
    hide Run;
    LostStaysLost(s, steps, token);
  }

  /** Fencing tokens strictly increase in the order they are handed out, across all nodes. */
  lemma FencingTokensIncrease(ttl: real, ids: set<NodeId>, steps: seq<Step>, i: nat, j: nat)
    requires ttl > 0.0 && Runs(Start(ttl, ids), steps) && i < j < |Run(Start(ttl, ids), steps).issued|
    ensures Run(Start(ttl, ids), steps).issued[i].value < Run(Start(ttl, ids), steps).issued[j].value
  {
    StartHolds(ttl, ids);
    RunKeepsInv(Start(ttl, ids), steps);
  }

  lemma {:induction false} RunJoins(s: System, a: seq<Step>, b: seq<Step>)
    requires Runs(s, a) && Runs(Run(s, a), b)
    ensures Runs(s, a + b) && Run(s, a + b) == Run(Run(s, a), b)
    decreases a
  {
    hide Do, Enabled;
    if a == [] {
      assert a + b == b;
    } else {
      assert (a + b)[1..] == a[1..] + b;
      RunJoins(Do(s, a[0]), a[1..], b);
    }
  }

  // -------------------------------------------------------------------------
  // The flags alone do not exclude
  // -------------------------------------------------------------------------

  /** Node i takes the lock, reads it back in a heartbeat, and pauses for exactly the lease time. */
  function Leased(ttl: real, i: NodeId): seq<Step> {
    [SetNx(i, 7, Delivered), GetForHeartbeat(i, Delivered), Tick(ttl)]
  }

  /** Node j takes over, and half a lease later i goes on with its heartbeat. */
  function TakenOver(ttl: real, i: NodeId, j: NodeId): seq<Step> {
    [SetNx(j, 8, Delivered), Tick(ttl / 2.0), PExpire(i, Delivered)]
  }

  lemma RunThree(s: System, a: Step, b: Step, c: Step)
    requires Enabled(s, a) && Enabled(Do(s, a), b) && Enabled(Do(Do(s, a), b), c)
    ensures Runs(s, [a, b, c]) && Run(s, [a, b, c]) == Do(Do(Do(s, a), b), c)
  {
    hide Runs, Run, Do, Enabled;
    var t := Do(Do(s, a), b);
    assert [c] + [] == [c] && [b] + [c] == [b, c] && [a] + [b, c] == [a, b, c];
    Last(Do(t, c));
    Cons(t, c, []);
    Cons(Do(s, a), b, [c]);
    Cons(s, a, [b, c]);
  }

  function Expired(ttl: real, ids: set<NodeId>, i: NodeId): System {
    var s := Start(ttl, ids);
    System(Some(Key(7, ttl)), 1, ttl, ttl, 0, [], {7}, s.nodes[i := Node(Some(7), true, HeartbeatExpire, Some(true))])
  }

  lemma FirstLeaseRunsOut(ttl: real, ids: set<NodeId>, i: NodeId)
    requires ttl > 0.0 && i in ids
    ensures Runs(Start(ttl, ids), Leased(ttl, i)) && Run(Start(ttl, ids), Leased(ttl, i)) == Expired(ttl, ids, i)
  {
    hide Runs, Run;
    var s := Start(ttl, ids);
    RunThree(s, SetNx(i, 7, Delivered), GetForHeartbeat(i, Delivered), Tick(ttl));
    assert Do(s, SetNx(i, 7, Delivered)).nodes[i] == Node(Some(7), true, Idle, Some(true));
    assert {} + {7} == {7};
  }

  lemma SecondTakesOver(ttl: real, ids: set<NodeId>, i: NodeId, j: NodeId)
    requires ttl > 0.0 && i in ids && j in ids && i != j
    ensures Runs(Expired(ttl, ids, i), TakenOver(ttl, i, j))
    ensures var t := Run(Expired(ttl, ids, i), TakenOver(ttl, i, j));
            && t.key == Some(Key(8, ttl + ttl / 2.0 + ttl)) && t.now == ttl + ttl / 2.0
            && i in t.nodes && t.nodes[i] == Node(Some(7), true, Idle, Some(true))
            && j in t.nodes && t.nodes[j] == Node(Some(8), true, Idle, Some(true))
  {
    hide Runs, Run;
    RunThree(Expired(ttl, ids, i), SetNx(j, 8, Delivered), Tick(ttl / 2.0), PExpire(i, Delivered));
  }

  /** Both nodes believe they are active, but only the second owns the key; and the
      first has just been told that its heartbeat, which extended the second's
      lease, succeeded. */
  ghost predicate BothActive(s: System, i: NodeId, j: NodeId) {
    && i in s.nodes && j in s.nodes && s.nodes[i].isActive && s.nodes[j].isActive
    && s.nodes[i].result == Some(true) && Owns(s, j) && !Owns(s, i) && s.key.value.expires == s.now + s.ttl
  }

  /** The flags alone do not exclude: for every lease time and every two nodes, once
      the first one's lease has run out, the second becomes active while the first
      still believes it is, and a heartbeat that read the key before it expired
      refreshes a lease that is no longer its own. */
  lemma FlagsDoNotExclude(ttl: real, ids: set<NodeId>, i: NodeId, j: NodeId)
    requires ttl > 0.0 && i in ids && j in ids && i != j
    ensures Runs(Start(ttl, ids), Leased(ttl, i) + TakenOver(ttl, i, j))
    ensures BothActive(Run(Start(ttl, ids), Leased(ttl, i) + TakenOver(ttl, i, j)), i, j)
  {
    hide Runs, Run, Leased, TakenOver, Start;
    FirstLeaseRunsOut(ttl, ids, i);
    SecondTakesOver(ttl, ids, i, j);
    RunJoins(Start(ttl, ids), Leased(ttl, i), TakenOver(ttl, i, j));
    RunKeepsTtl(Expired(ttl, ids, i), TakenOver(ttl, i, j));
  }

  lemma {:induction false} RunKeepsTtl(s: System, steps: seq<Step>)
    requires Runs(s, steps)
    ensures Run(s, steps).ttl == s.ttl
    decreases steps
  {
    if steps != [] { RunKeepsTtl(Do(s, steps[0]), steps[1..]); }
  }

  lemma Last(s: System)
    ensures Runs(s, []) && Run(s, []) == s
  {
  }

  lemma Cons(s: System, step: Step, rest: seq<Step>)
    requires Enabled(s, step) && Runs(Do(s, step), rest)
    ensures Runs(s, [step] + rest) && Run(s, [step] + rest) == Run(Do(s, step), rest)
  {
    assert ([step] + rest)[1..] == rest;
  }
}
