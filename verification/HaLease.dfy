/** When the lock does exclude. A node knows the time of its last refresh that
    was sent while its lease still ran, and from it when its lease runs out;
    until then the key is its own, whatever the other nodes do. */
module HaLeaseProofs {
  import opened Common
  import opened HaLock
  import opened HaLockProofs

  /** For each node, the time its lease runs out by its own reckoning. */
  type Leases = map<NodeId, real>

  /** A won SET starts a lease; a confirmed PEXPIRE extends one that has not run out.
      A node can tell when the reply comes in: if its lease is still running then,
      it was when the command took effect. */
  function Renewed(s: System, lease: Leases, step: Step): Leases {
    match step
    case SetNx(id, _, w) => if w == Delivered && !Live(s) then lease[id := s.now + s.ttl] else lease
    case PExpire(id, w) =>
      if w == Delivered && id in lease && s.now < lease[id] then lease[id := s.now + s.ttl] else lease
    case _ => lease
  }

  function LeasesAfter(s: System, lease: Leases, steps: seq<Step>): Leases
    requires Runs(s, steps)
    decreases steps
  {
    if steps == [] then lease else LeasesAfter(Do(s, steps[0]), Renewed(s, lease, steps[0]), steps[1..])
  }

  /** Inside the watched-transaction fallback of a release. */
  predicate Releasing(n: Node) { n.pc.CasWatch? || n.pc.CasGet? || n.pc.CasExec? }

  /** Between the read that confirmed the token and the PEXPIRE that follows it. */
  predicate Refreshing(n: Node) { n.pc.AcquireExpire? || n.pc.HeartbeatExpire? }

  /** The node holds a token, is not releasing it, and its lease has not run out. */
  ghost predicate InLease(s: System, lease: Leases, id: NodeId) {
    && id in s.nodes && s.nodes[id].token.Some? && !Releasing(s.nodes[id])
    && id in lease && s.now < lease[id]
  }

  ghost predicate LeaseOk(s: System, lease: Leases, id: NodeId) {
    InLease(s, lease, id) ==> Owns(s, id) && lease[id] <= s.key.value.expires
  }

  /** An active flag, or a refresh about to set it, comes with a token; a token comes with a lease, past or running. */
  ghost predicate FlagOk(s: System, lease: Leases, id: NodeId) {
    id in s.nodes ==>
      && (s.nodes[id].isActive || Refreshing(s.nodes[id]) ==> s.nodes[id].token.Some?)
      && (s.nodes[id].token.Some? ==> id in lease)
  }

  ghost predicate LeaseInv(s: System, lease: Leases) {
    && (s.key.Some? ==> s.key.value.expires <= s.now + s.ttl)
    && forall id :: LeaseOk(s, lease, id) && FlagOk(s, lease, id)
  }

  lemma StepKeepsFlag(s: System, lease: Leases, step: Step, id: NodeId)
    requires Enabled(s, step) && FlagOk(s, lease, id)
    ensures FlagOk(Do(s, step), Renewed(s, lease, step), id)
  {
  }

  /** Nobody but the owner can remove its key or lose it to another token. */
  lemma OthersCannotDelete(s: System, id: NodeId, step: Step)
    requires Inv(s) && Owns(s, id) && Enabled(s, step) && !step.Tick? && !step.Incr?
    requires step.node != id || !(step.EvalRelease? || step.Exec?)
    ensures Do(s, step).key.Some? && Do(s, step).key.value.token == s.key.value.token
    ensures Do(s, step).key.value.expires == s.key.value.expires || Do(s, step).key.value.expires == s.now + s.ttl
  {
    if step.Exec? { assert WatchOk(s, s.nodes[step.node]); }
  }

  lemma LeaseParts(s: System, lease: Leases, id: NodeId)
    requires LeaseInv(s, lease)
    ensures LeaseOk(s, lease, id) && (s.key.Some? ==> s.key.value.expires <= s.now + s.ttl)
  {
  }

  lemma StepKeepsLease(s: System, lease: Leases, step: Step, id: NodeId)
    requires Inv(s) && LeaseInv(s, lease) && Enabled(s, step)
    ensures LeaseOk(Do(s, step), Renewed(s, lease, step), id)
  {
    hide Inv, LeaseInv;
    var t, after := Do(s, step), Renewed(s, lease, step);
    LeaseParts(s, lease, id);
    if InLease(t, after, id) && !step.Tick? && !step.Incr? {
      if step.SetNx? && step.node == id && step.wire == Delivered && !Live(s) {
        assert Owns(t, id);
      } else {
        assert InLease(s, lease, id);
        OthersCannotDelete(s, id, step);
      }
    }
  }

  lemma StepKeepsLeaseInv(s: System, lease: Leases, step: Step)
    requires Inv(s) && LeaseInv(s, lease) && Enabled(s, step)
    ensures LeaseInv(Do(s, step), Renewed(s, lease, step))
  {
    var t, after := Do(s, step), Renewed(s, lease, step);
    forall id ensures LeaseOk(t, after, id) && FlagOk(t, after, id) {
      StepKeepsLease(s, lease, step, id);
      assert FlagOk(s, lease, id);
      StepKeepsFlag(s, lease, step, id);
    }
  }

  lemma {:induction false} RunKeepsLeaseInv(s: System, lease: Leases, steps: seq<Step>)
    requires Inv(s) && LeaseInv(s, lease) && Runs(s, steps)
    ensures LeaseInv(Run(s, steps), LeasesAfter(s, lease, steps))
    decreases steps
  {
    hide Do, Inv, LeaseInv, Enabled, Renewed;
    if steps != [] {
      StepKeepsInv(s, steps[0]);
      StepKeepsLeaseInv(s, lease, steps[0]);
      RunKeepsLeaseInv(Do(s, steps[0]), Renewed(s, lease, steps[0]), steps[1..]);
    }
  }

  // -------------------------------------------------------------------------
  // Over every interleaving
  // -------------------------------------------------------------------------

  ghost predicate Reached(ttl: real, ids: set<NodeId>, steps: seq<Step>, s: System, lease: Leases) {
    ttl > 0.0 && Runs(Start(ttl, ids), steps) && s == Run(Start(ttl, ids), steps)
    && lease == LeasesAfter(Start(ttl, ids), map[], steps)
  }

  lemma ReachedIsGood(ttl: real, ids: set<NodeId>, steps: seq<Step>, s: System, lease: Leases)
    requires Reached(ttl, ids, steps, s, lease)
    ensures Inv(s) && LeaseInv(s, lease)
  {
    hide Run, Runs, LeasesAfter;
    StartHolds(ttl, ids);
    RunKeepsInv(Start(ttl, ids), steps);
    RunKeepsLeaseInv(Start(ttl, ids), map[], steps);
  }

  /** A node whose lease has not run out owns the key, and the key outlives the lease. */
  lemma LeaseIsOwnership(ttl: real, ids: set<NodeId>, steps: seq<Step>, s: System, lease: Leases, id: NodeId)
    requires Reached(ttl, ids, steps, s, lease) && InLease(s, lease, id)
    ensures Owns(s, id) && lease[id] <= s.key.value.expires
  {
    ReachedIsGood(ttl, ids, steps, s, lease);
    assert LeaseOk(s, lease, id);
  }

  /** At most one node is within its lease. */
  lemma LeasesExclude(ttl: real, ids: set<NodeId>, steps: seq<Step>, s: System, lease: Leases, i: NodeId, j: NodeId)
    requires Reached(ttl, ids, steps, s, lease) && InLease(s, lease, i) && InLease(s, lease, j)
    ensures i == j
  {
    ReachedIsGood(ttl, ids, steps, s, lease);
    assert LeaseOk(s, lease, i) && LeaseOk(s, lease, j);
  }

  /** So two active flags outside a release mean that at least one node's lease has run out. */
  lemma TwoActiveMeansOneExpired(
    ttl: real, ids: set<NodeId>, steps: seq<Step>, s: System, lease: Leases, i: NodeId, j: NodeId)
    requires Reached(ttl, ids, steps, s, lease) && i != j && i in s.nodes && j in s.nodes
    requires s.nodes[i].isActive && !Releasing(s.nodes[i]) && s.nodes[j].isActive && !Releasing(s.nodes[j])
    ensures i in lease && j in lease && (lease[i] <= s.now || lease[j] <= s.now)
  {
    ReachedIsGood(ttl, ids, steps, s, lease);
    assert FlagOk(s, lease, i) && FlagOk(s, lease, j);
    if InLease(s, lease, i) && InLease(s, lease, j) { LeasesExclude(ttl, ids, steps, s, lease, i, j); }
  }

  /** A PEXPIRE that reaches the server before the sender's lease has run out
      refreshes the sender's own key; one that refreshes another's key was sent too late. */
  lemma RefreshInTimeIsOwn(
    ttl: real, ids: set<NodeId>, steps: seq<Step>, s: System, lease: Leases, id: NodeId, wire: Wire)
    requires Reached(ttl, ids, steps, s, lease) && Enabled(s, PExpire(id, wire)) && Reaches(wire)
    ensures s.nodes[id].token.Some? && id in lease
    ensures s.now < lease[id] ==>
      var t := Do(s, PExpire(id, wire));
      t.key == Some(Key(s.nodes[id].token.value, s.now + s.ttl)) && Owns(t, id)
    ensures Live(s) && s.key.value.token != s.nodes[id].token.value ==> lease[id] <= s.now
  {
    ReachedIsGood(ttl, ids, steps, s, lease);
    assert LeaseOk(s, lease, id) && FlagOk(s, lease, id);
  }

  /** The lease time is sharp: at the very moment a lease runs out, for every lease
      time and every two nodes, another node can take the key from its holder. */
  lemma LeaseTimeIsSharp(ttl: real, ids: set<NodeId>, i: NodeId, j: NodeId)
    requires ttl > 0.0 && i in ids && j in ids && i != j
    ensures Runs(Start(ttl, ids), Leased(ttl, i))
    ensures var s, lease := Run(Start(ttl, ids), Leased(ttl, i)), LeasesAfter(Start(ttl, ids), map[], Leased(ttl, i));
            && i in s.nodes && s.nodes[i].isActive && i in lease && lease[i] == s.now
            && Enabled(s, SetNx(j, 8, Delivered)) && Owns(Do(s, SetNx(j, 8, Delivered)), j)
  {
    FirstLeaseRunsOut(ttl, ids, i);
    LeaseOfFirst(ttl, ids, i);
  }

  lemma LeasesAfterThree(s: System, lease: Leases, a: Step, b: Step, c: Step)
    requires Enabled(s, a) && Enabled(Do(s, a), b) && Enabled(Do(Do(s, a), b), c) && Runs(s, [a, b, c])
    ensures LeasesAfter(s, lease, [a, b, c])
         == Renewed(Do(Do(s, a), b), Renewed(Do(s, a), Renewed(s, lease, a), b), c)
  {
    hide Do, Enabled, Renewed;
    assert [a, b, c][1..] == [b, c] && [b, c][1..] == [c] && [c][1..] == [];
    var t, first := Do(s, a), Renewed(s, lease, a);
    var u, second := Do(t, b), Renewed(t, first, b);
    assert LeasesAfter(s, lease, [a, b, c]) == LeasesAfter(t, first, [b, c]);
    assert LeasesAfter(t, first, [b, c]) == LeasesAfter(u, second, [c]);
    assert LeasesAfter(u, second, [c]) == LeasesAfter(Do(u, c), Renewed(u, second, c), []);
  }

  lemma LeaseOfFirst(ttl: real, ids: set<NodeId>, i: NodeId)
    requires ttl > 0.0 && i in ids && Runs(Start(ttl, ids), Leased(ttl, i))
    ensures LeasesAfter(Start(ttl, ids), map[], Leased(ttl, i)) == map[i := ttl]
  {
    hide Runs, LeasesAfter;
    LeasesAfterThree(Start(ttl, ids), map[], SetNx(i, 7, Delivered), GetForHeartbeat(i, Delivered), Tick(ttl));
  }
}
