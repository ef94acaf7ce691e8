/** What acquiring and releasing get done: exactly when a release frees the key,
    and that a free key goes to the next node that asks. Stated on the stored key,
    its expiry and the nodes' records. */
module HaReleaseProofs {
  import opened Common
  import opened HaLock
  import opened HaLockProofs

  /** Nobody's token is stored: there is no key, or its time is over. */
  predicate Free(s: System) { s.key.None? || s.key.value.expires <= s.now }

  /** The stored key is the node's own. */
  predicate Holds(s: System, id: NodeId) {
    !Free(s) && id in s.nodes && s.nodes[id].token == Some(s.key.value.token)
  }

  /** The step is a release command that gets to delete: the script on its own key,
      or EXEC with no write to the key since WATCH. */
  predicate Deletes(s: System, step: Step) {
    || (step.EvalRelease? && step.wire != NotSent && Holds(s, step.node))
    || (step.Exec? && step.wire != NotSent && !Free(s) && step.node in s.nodes && s.nodes[step.node].pc.CasExec?
        && s.nodes[step.node].pc.watched == s.version)
  }

  /** A key in place is freed by a release command of its owner that reaches the server, or by
      running out of time, and by nothing else. */
  lemma FreedExactly(s: System, step: Step)
    requires Inv(s) && Enabled(s, step) && !Free(s)
    ensures Free(Do(s, step)) <==> Deletes(s, step) || (step.Tick? && s.key.value.expires <= s.now + step.dt)
    ensures Deletes(s, step) ==> Holds(s, step.node) && Do(s, step).key.None?
  {
    hide Inv, WatchOk, TokensOk;
    HasTtl(s, step);
    if step.Exec? { OwnKeyWatched(s, step.node); }
  }

  lemma OwnKeyWatched(s: System, id: NodeId)
    requires Inv(s) && id in s.nodes && s.nodes[id].pc.CasExec?
    ensures s.nodes[id].pc.watched == s.version && !Free(s) ==> Holds(s, id)
  {
    assert WatchOk(s, s.nodes[id]);
  }

  /** A release leaves the key in place exactly when the node does not hold it, or no
      command that would delete it reaches the server, or EXEC comes after another
      write to the key; it gives up token and flag in any case once it is through. */
  lemma ReleaseLeavesKeyExactly(s: System, step: Step)
    requires Inv(s) && Enabled(s, step) && (step.EvalRelease? || step.Exec?)
    ensures var t, n := Do(s, step), s.nodes[step.node];
      && (t.key == s.key <==>
            || s.key.None?
            || step.wire == NotSent
            || !Holds(s, step.node)
            || (step.Exec? && s.version != n.pc.watched))
      && (t.key != s.key ==> t.key.None?)
      && (step.Exec? || step.wire == Delivered ==>
            t.nodes[step.node].token.None? && !t.nodes[step.node].isActive && t.nodes[step.node].pc == Idle)
  {
    hide Inv, WatchOk, TokensOk;
    if step.Exec? { OwnKeyWatched(s, step.node); }
  }

  /** On the way to EXEC: the transaction goes on exactly while the node still holds the key it watches. */
  lemma TransactionGoesOnExactly(s: System, id: NodeId, wire: Wire)
    requires Enabled(s, GetInTransaction(id, wire))
    ensures var n := Do(s, GetInTransaction(id, wire)).nodes[id];
      && (n.pc.CasExec? <==> wire == Delivered && Holds(s, id))
      && (n.pc.CasExec? ==> n == s.nodes[id].(pc := CasExec(s.nodes[id].pc.watched)))
      && (!n.pc.CasExec? ==> n.token.None? && !n.isActive)
  {
  }

  /** The command takes the key if it is free. */
  predicate Takes(step: Step) { step.SetNx? && step.wire != NotSent }

  lemma {:induction false} StaysFree(s: System, steps: seq<Step>)
    requires Runs(s, steps) && Free(s) && forall i :: 0 <= i < |steps| ==> !Takes(steps[i])
    ensures Free(Run(s, steps))
    decreases steps
  {
    hide Do, Enabled;
    if steps != [] {
      NothingTaken(s, steps[0]);
      StaysFree(Do(s, steps[0]), steps[1..]);
    }
  }

  lemma NothingTaken(s: System, step: Step)
    requires Enabled(s, step) && Free(s) && !Takes(step)
    ensures Free(Do(s, step))
  {
  }

  /** A free key goes to whoever asks: the call returns true and the node holds the
      key for a whole lease time. A key in place goes to nobody else. */
  lemma AskerWinsExactly(s: System, j: NodeId, token: Token)
    requires Enabled(s, SetNx(j, token, Delivered)) && s.ttl > 0.0
    ensures var t := Do(s, SetNx(j, token, Delivered));
      && (Free(s) ==>
            && Holds(t, j) && t.key == Some(Key(token, s.now + s.ttl))
            && t.nodes[j] == Node(Some(token), true, Idle, Some(true)))
      && (!Free(s) ==> t.key == s.key && t.nodes[j] == s.nodes[j].(pc := AcquireGet))
  {
  }

  /** Handing over: after a release that got to delete, on either path, and whatever
      other steps come in between, the next delivered request of any node wins. */
  lemma ReleaseHandsOver(s: System, release: Step, steps: seq<Step>, j: NodeId, token: Token)
    requires Inv(s) && Enabled(s, release) && Deletes(s, release)
    requires Runs(Do(s, release), steps) && forall i :: 0 <= i < |steps| ==> !Takes(steps[i])
    requires Enabled(Run(Do(s, release), steps), SetNx(j, token, Delivered))
    ensures var t := Do(Run(Do(s, release), steps), SetNx(j, token, Delivered));
            && Holds(t, j) && t.nodes[j].isActive && t.nodes[j].result == Some(true)
            && t.key.value.expires == t.now + t.ttl
  {
    hide Run, Runs, Do, Enabled, Inv;
    FreedExactly(s, release);
    StaysFree(Do(s, release), steps);
    RunKeepsTtl(Do(s, release), steps);
    var u := Run(Do(s, release), steps);
    HasTtl(s, release);
    AskerWinsExactly(u, j, token);
    SetNxKeepsClock(u, j, token);
  }

  lemma HasTtl(s: System, step: Step)
    requires Inv(s) && Enabled(s, step)
    ensures Do(s, step).ttl == s.ttl > 0.0
  {
  }

  lemma SetNxKeepsClock(s: System, j: NodeId, token: Token)
    requires Enabled(s, SetNx(j, token, Delivered))
    ensures var t := Do(s, SetNx(j, token, Delivered)); t.now == s.now && t.ttl == s.ttl
  {
  }
}
