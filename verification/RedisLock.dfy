/** The lock backend as it is written, method by method, over a shared Redis
    store. Each call is proved to be a run of the step machine in HaLock.dfy,
    whose theorems interleave those steps with the other nodes' in any order. */
module RedisLock {
  import opened Common
  import opened HaLock
  import opened HaLockProofs

  /** The server side: one lock key, its write counter and the fencing counter. */
  class RedisStore {
    const ttl: real
    var key: Option<Key>
    var version: nat
    var now: real
    var fence: nat
    var issued: seq<Issued>
    ghost var used: set<Token>

    constructor (ttl: real)
      ensures this.ttl == ttl && Shared(map[]) == HaLock.Start(ttl, {})
    {
      this.ttl := ttl;
      key, version, now, fence, issued, used := None, 0, 0.0, 0, [], {};
    }

    /** The store with these nodes around it. */
    ghost function Shared(nodes: map<NodeId, Node>): System
      reads this
    {
      System(key, version, now, ttl, fence, issued, used, nodes)
    }

    function Stored(): Option<Token>
      reads this
    {
      if key.Some? && now < key.value.expires then Some(key.value.token) else None
    }

    /** SET key token NX PX ttl; a reply of None is a transport failure. */
    method SetNx(token: Token, wire: Wire) returns (reply: Option<bool>)
      modifies this
      ensures var s := old(Shared(map[]));
              var t := s.(used := s.used + {token});
              var won := Reaches(wire) && !Live(s);
              && Shared(map[]) == (if won then t.(key := Some(Key(token, s.now + s.ttl)), version := s.version + 1)
                                   else t)
              && reply == if wire == Delivered then Some(won) else None
    {
      used := used + {token};
      var won := Reaches(wire) && Stored().None?;
      if won { key, version := Some(Key(token, now + ttl)), version + 1; }
      reply := if wire == Delivered then Some(won) else None;
    }

    method PExpire(wire: Wire) returns (ok: bool)
      modifies this
      ensures var s := old(Shared(map[]));
              && Shared(map[]) == (if Reaches(wire) && Live(s)
                                   then s.(key := Some(s.key.value.(expires := s.now + s.ttl)),
                                           version := s.version + 1)
                                   else s)
              && ok == (wire == Delivered)
    {
      if Reaches(wire) && Stored().Some? { key, version := Some(Key(key.value.token, now + ttl)), version + 1; }
      ok := wire == Delivered;
    }

    /** The release script: deletes the key if it holds this token. */
    method EvalRelease(token: Token, wire: Wire) returns (ok: bool)
      modifies this
      ensures var s := old(Shared(map[]));
              && Shared(map[]) == (if Reaches(wire) && StoredToken(s) == Some(token) then Delete(s) else s)
              && ok == (wire == Delivered)
    {
      if Reaches(wire) && Stored() == Some(token) { key, version := None, version + 1; }
      ok := wire == Delivered;
    }

    /** MULTI, DEL, EXEC under a WATCH taken at version `watched`. */
    method ExecDelete(watched: nat, wire: Wire)
      modifies this
      ensures var s := old(Shared(map[]));
              Shared(map[]) == if Reaches(wire) && s.version == watched && Live(s) then Delete(s) else s
    {
      if Reaches(wire) && version == watched && Stored().Some? { key, version := None, version + 1; }
    }
  }

  class RedisLockBackend {
    const id: NodeId
    const store: RedisStore
    var token: Option<Token>
    var isActive: bool
    ghost var result: Option<bool>

    constructor (id: NodeId, store: RedisStore)
      ensures this.id == id && this.store == store && View() == Node(None, false, Idle, None)
    {
      this.id, this.store := id, store;
      token, isActive, result := None, false, None;
    }

    /** This node as the step machine sees it between two calls. */
    ghost function View(): Node
      reads this
    {
      Node(token, isActive, Idle, result)
    }

    ghost function Local(): System
      reads this, store
    {
      store.Shared(map[id := View()])
    }

    /** Takes a free key for a whole lease time, or refreshes it if it is still ours from
        an earlier call; nothing else returns true. None means that refreshing the
        lease failed and the failure left the call. */
    method Acquire(drawn: Token, onSet: Wire, onGet: Wire, onExpire: Wire)
      returns (ok: Option<bool>, ghost steps: seq<Step>)
      requires drawn !in store.used
      modifies this, store
      ensures Runs(old(Local()), steps) && Local() == Run(old(Local()), steps)
      ensures ok == result
      ensures onSet == Delivered && old(store.Stored()).None? ==>
                && ok == Some(true) && token == Some(drawn) && isActive
                && store.key == Some(Key(drawn, store.now + store.ttl))
      ensures onSet == Delivered && old(store.Stored()).Some? ==>
                var ours := onGet == Delivered && old(store.Stored()) == old(token);
                && token == old(token)
                && ok == (if !ours then Some(false) else if onExpire == Delivered then Some(true) else None)
                && isActive == (if !ours then false else if onExpire == Delivered then true else old(isActive))
                && store.key == if ours && onExpire != NotSent
                                then Some(Key(old(store.key).value.token, store.now + store.ttl)) else old(store.key)
      ensures onSet != Delivered ==>
                && ok == Some(false) && token == old(token) && isActive == old(isActive)
                && store.key == if onSet == ReplyLost && old(store.Stored()).None?
                                then Some(Key(drawn, store.now + store.ttl)) else old(store.key)
    {
      hide Runs, Run;
      ghost var start := Local();
      Last(start);
      var acquired := store.SetNx(drawn, onSet);
      steps := [] + [SetNx(id, drawn, onSet)];
      OneStep(start, [], SetNx(id, drawn, onSet));
      if acquired.None? {
        result := Some(false);
        return Some(false), steps;
      }
      if acquired.value {
        token, isActive, result := Some(drawn), true, Some(true);
        return Some(true), steps;
      }
      ok, steps := RefreshOwn(start, steps, onGet, onExpire);
    }

    /** A taken key is still ours if it holds our token from an earlier call. */
    method RefreshOwn(ghost start: System, ghost before: seq<Step>, onGet: Wire, onExpire: Wire)
      returns (ok: Option<bool>, ghost steps: seq<Step>)
      requires Runs(start, before)
      requires Run(start, before) == store.Shared(map[id := View().(pc := AcquireGet)])
      modifies this, store
      ensures Runs(start, steps) && Local() == Run(start, steps)
      ensures ok == result && token == old(token)
      ensures var ours := onGet == Delivered && token.Some? && old(store.Stored()) == token;
        && ok == (if !ours then Some(false) else if onExpire == Delivered then Some(true) else None)
        && isActive == (if !ours then false else if onExpire == Delivered then true else old(isActive))
        && store.key == (if ours && onExpire != NotSent
                         then Some(Key(old(store.key).value.token, store.now + store.ttl)) else old(store.key))
        && store.now == old(store.now)
    {
      hide Runs, Run;
      steps := before;
      OneStep(start, steps, GetForAcquire(id, onGet));
      var current := if onGet == Delivered then store.Stored() else None;
      steps := steps + [GetForAcquire(id, onGet)];
      if current == token && token.Some? {
        OneStep(start, steps, PExpire(id, onExpire));
        var refreshed := store.PExpire(onExpire);
        steps := steps + [PExpire(id, onExpire)];
        if !refreshed {
          result := None;
          return None, steps;
        }
        isActive, result := true, Some(true);
        return Some(true), steps;
      }
      isActive, result := false, Some(false);
      return Some(false), steps;
    }

    /** True exactly when the key was still ours and the refresh came back; the lease then
        runs for a whole lease time from now. */
    method Heartbeat(onGet: Wire, onExpire: Wire) returns (ok: Option<bool>, ghost steps: seq<Step>)
      modifies this, store
      ensures Runs(old(Local()), steps) && Local() == Run(old(Local()), steps)
      ensures ok == if steps == [] then Some(false) else result
      ensures steps == [] <==> !HeldByUs(old(View()))
      ensures var ours := old(isActive) && old(token).Some? && onGet == Delivered && old(store.Stored()) == old(token);
        && (ok == Some(true) <==> ours && onExpire == Delivered)
        && store.key == (if ours && onExpire != NotSent
                         then Some(Key(old(store.key).value.token, store.now + store.ttl)) else old(store.key))
        && (if old(isActive) && old(token).Some? && onGet == Delivered && !ours
            then token.None? && !isActive else token == old(token) && isActive == old(isActive))
    {
      hide Runs, Run;
      ghost var start := Local();
      Last(start);
      steps := [];
      if !(isActive && token.Some?) { return Some(false), steps; }
      OneStep(start, steps, GetForHeartbeat(id, onGet));
      steps := steps + [GetForHeartbeat(id, onGet)];
      if onGet != Delivered {
        result := Some(false);
        return Some(false), steps;
      }
      var current := store.Stored();
      if current != token {
        isActive, token, result := false, None, Some(false);
        return Some(false), steps;
      }
      OneStep(start, steps, PExpire(id, onExpire));
      var refreshed := store.PExpire(onExpire);
      steps := steps + [PExpire(id, onExpire)];
      if !refreshed {
        result := None;
        return None, steps;
      }
      result := Some(true);
      return Some(true), steps;
    }

    /** By script, or by a watched transaction when the script call fails. A key that is
        ours is gone afterwards exactly when the script, or all of WATCH, GET and EXEC,
        got through; any other key stays. */
    method Release(onEval: Wire, onWatch: Wire, onGet: Wire, onExec: Wire) returns (ghost steps: seq<Step>)
      modifies this, store
      ensures Runs(old(Local()), steps) && Local() == Run(old(Local()), steps)
      ensures HeldByUs(old(View())) ==> token.None? && !isActive
      ensures var ours := old(isActive) && old(token).Some? && old(store.Stored()) == old(token);
              store.key == if ours && (onEval != NotSent
                                       || (onWatch == Delivered && onGet == Delivered && onExec != NotSent))
                           then None else old(store.key)
    {
      hide Runs, Run;
      ghost var start := Local();
      Last(start);
      steps := [];
      if !(isActive && token.Some?) { return; }
      OneStep(start, steps, EvalRelease(id, onEval));
      steps := steps + [EvalRelease(id, onEval)];
      var done := store.EvalRelease(token.value, onEval);
      if !done { steps := ReleaseWatchCas(start, steps, onWatch, onGet, onExec); }
      token, isActive, result := None, false, None;
    }

    method ReleaseWatchCas(ghost start: System, ghost before: seq<Step>, onWatch: Wire, onGet: Wire, onExec: Wire)
      returns (ghost steps: seq<Step>)
      requires token.Some? && Runs(start, before)
      requires Run(start, before) == store.Shared(map[id := View().(pc := CasWatch)])
      modifies store
      ensures Runs(start, steps)
      ensures Run(start, steps) == store.Shared(map[id := Released(View())])
      ensures store.key == if onWatch == Delivered && onGet == Delivered && onExec != NotSent
                              && old(store.Stored()) == token
                           then None else old(store.key)
    {
      hide Runs, Run;
      OneStep(start, before, Watch(id, onWatch));
      steps := before + [Watch(id, onWatch)];
      if onWatch != Delivered { return; }
      var watched := store.version;
      OneStep(start, steps, GetInTransaction(id, onGet));
      steps := steps + [GetInTransaction(id, onGet)];
      if onGet == Delivered && store.Stored() == token {
        OneStep(start, steps, Exec(id, onExec));
        steps := steps + [Exec(id, onExec)];
        store.ExecDelete(watched, onExec);
      }
    }

    method NextFencingToken() returns (value: nat)
      modifies store
      ensures Local() == Do(old(Local()), Incr(id))
      ensures store.issued == old(store.issued) + [Issued(id, value)]
    {
      store.fence := store.fence + 1;
      value := store.fence;
      store.issued := store.issued + [Issued(id, value)];
    }

    static lemma OneStep(s: System, steps: seq<Step>, step: Step)
      requires Runs(s, steps) && Enabled(Run(s, steps), step)
      ensures Runs(s, steps + [step]) && Run(s, steps + [step]) == Do(Run(s, steps), step)
    {
      hide Runs, Run;
      var t := Run(s, steps);
      Last(Do(t, step));
      Cons(t, step, []);
      assert [step] + [] == [step];
      RunJoins(s, steps, [step]);
    }
  }

  /** A node's step reads and writes only its own record and the shared store, so
      what a call does alone is what its steps do among other nodes. */
  lemma StepsAreLocal(s: System, step: Step)
    requires !step.Tick? && step.node in s.nodes
    ensures var alone := s.(nodes := map[step.node := s.nodes[step.node]]);
            && (Enabled(alone, step) <==> Enabled(s, step))
            && (Enabled(s, step) ==>
                  var t := Do(alone, step);
                  step.node in t.nodes && Do(s, step) == t.(nodes := s.nodes[step.node := t.nodes[step.node]]))
  {
    var id := step.node;
    var alone := s.(nodes := map[id := s.nodes[id]]);
    if Enabled(s, step) {
      assert s.nodes[id := s.nodes[id]] == s.nodes;
      assert Do(s, step).nodes == s.nodes[id := Do(alone, step).nodes[id]];
    }
  }
}
