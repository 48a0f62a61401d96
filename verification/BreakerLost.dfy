/** A run that loses the breaker: for every configuration, two requests of one sender whose `eval` calls overlap leave
    the second one without the breaker that it has switched on. */
module BreakerLost {
  import opened Wrappers
  import opened TxnError
  import opened TxnReqResp
  import opened Protocol
  import opened Conservation
  import opened History
  import opened Runs
  import opened Breaker
  import opened Reaching

  /** A request with one of the processor's own answers gets to the lock in `eval`, if the status asks for it. */
  lemma AnswerReaches(c: Config, u: State, r: Id, status: Status) returns (w: State)
    requires Reachable(c, u) && Known(c, u.core, r)
    requires IsOwnStatus(status) && StatusAction(status).TakesLock()
    requires var job := u.core.jobs[r]; job.task == Listening && job.inbox == [Own(status)]
    ensures Reachable(c, w) && Known(c, w.core, r) && w.core.closing == u.core.closing && w.core.clock == u.core.clock
    ensures var p, q := Look(c, u.core, r), Look(c, w.core, r);
            && q == p.(job := q.job) && At(q.job, Locking) && SameIdentity(p.job, q.job) && q.job.inbox == []
            && q.job.task.verdict.status == status
            && w.core.jobs == u.core.jobs[r := q.job]
  {
    ReachableHasInvariant(c, u);
    w := ActReaches(c, u, r, Eval(Receive), Look(c, u.core, r));
  }

  /** The first request of all, refused its Near nonce by the node, is about to take the lock. */
  lemma RefusedReaches(c: Config, u: State, sender: Address, nonce: nat, timestamp: nat) returns (w: State)
    requires InitialState(c, u) && nonce < WORD - 1 && u.core.clock <= timestamp * SECOND
    ensures Reachable(c, w) && |w.core.jobs| == 1 && Known(c, w.core, 0) && w.core.closing == 0
    ensures w.core.clock == u.core.clock && w.core.jobs[0].sender == sender && w.core.jobs[0].index == c.shardOf(sender)
    ensures var p := Look(c, w.core, 0);
            && p.shard == IDLE && At(p.job, Locking) && p.job.task.verdict.status == NearNonceError
            && p.job.inbox == []
            && p.eth == Some(NewEntry(nonce + 1, u.core.clock))
  {
    assert IsRun(c, [u], []);
    w := SubmitReaches(c, u, sender, nonce, timestamp);
    w := FirstReaches(c, w, 0, Look(c, w.core, 0));
    w := AskReaches(c, w, 0, Look(c, w.core, 0), Failed);
    w := AnswerReaches(c, w, 0, NearNonceError);
  }

  /** A request whose nonce the cache has passed is sent back by `sort`. */
  lemma TooLowReaches(c: Config, u: State, r: Id, p: Spot) returns (w: State)
    requires Reachable(c, u) && Known(c, u.core, r) && p == Look(c, u.core, r) && AtTheDoor(p)
    requires p.eth.Some? && p.eth.value.nonce > p.job.nonce
    ensures Reachable(c, w) && Known(c, w.core, r) && w.core.closing == u.core.closing && w.core.clock == u.core.clock
    ensures Look(c, w.core, r) == p.(shard := IDLE, job := Answered(p.job, Own(EthNonceTooLow)), submitting := 0)
    ensures w.core.jobs == u.core.jobs[r := Answered(p.job, Own(EthNonceTooLow))]
  {
    w := LockReaches(c, u, r, p);
    w := ActReaches(c, w, r, Op.Sort(Decide), Look(c, w.core, r));
    w := ActReaches(c, w, r, Op.Sort(Unlock), Look(c, w.core, r));
  }

  /** An `eval` that does not ask for the Near entry gets from the lock to its look at the Eth entry. */
  lemma EthCheckReaches(c: Config, u: State, r: Id, p: Spot) returns (w: State)
    requires Reachable(c, u) && Known(c, u.core, r) && p == Look(c, u.core, r)
    requires p.shard == IDLE && At(p.job, Locking) && p.job.task.verdict.status == NearNonceError
    ensures Reachable(c, w) && Known(c, w.core, r)
    ensures Look(c, w.core, r)
         == p.(shard := IDLE.(lock := ByTask(r), breaker := true), job := ToPoint(p.job, EthCheck))
    ensures w.core.jobs == u.core.jobs[r := ToPoint(p.job, EthCheck)]
  {
    w := ActReaches(c, u, r, Eval(TakeLock), p);
    w := ActReaches(c, w, r, Eval(Trip), Look(c, w.core, r));
    w := ActReaches(c, w, r, Eval(TestNear), Look(c, w.core, r));
  }

  /** An `eval` whose refresh of the Eth entry fails gets from the lock to the point between unlocking and clearing. */
  lemma ClearingReaches(c: Config, u: State, r: Id, p: Spot) returns (w: State)
    requires Reachable(c, u) && Known(c, u.core, r) && p == Look(c, u.core, r)
    requires p.shard == IDLE && At(p.job, Locking) && p.job.task.verdict.status == NearNonceError
    requires p.eth.Some? && !TooSoon(p.eth.value, p.now)
    ensures Reachable(c, w) && Known(c, w.core, r)
    ensures var q := Look(c, w.core, r);
            && At(q.job, Clearing) && q.shard.lock == Free && w.core.jobs == u.core.jobs[r := q.job]
            && SameIdentity(p.job, q.job)
  {
    w := EthCheckReaches(c, u, r, p);
    w := ActReaches(c, w, r, Eval(TestEth), Look(c, w.core, r));
    w := ActReaches(c, w, r, Eval(FetchEth(Failed)), Look(c, w.core, r));
    w := ActReaches(c, w, r, Eval(ReleaseLock), Look(c, w.core, r));
  }

  /** Two requests of one sender with the same nonce: the first is refused its Near nonce, the second is too low. The
      first has released the lock and is about to clear the breaker when the second is about to take the lock. */
  lemma OverlapReaches(c: Config, u: State, sender: Address, nonce: nat) returns (w: State)
    requires InitialState(c, u) && nonce < WORD - 1
    ensures Reachable(c, w) && Known(c, w.core, 0) && Known(c, w.core, 1)
    ensures w.core.jobs[0].index == w.core.jobs[1].index && w.core.shards[w.core.jobs[0].index].lock == Free
    ensures At(w.core.jobs[0], Clearing) && At(w.core.jobs[1], Locking)
  {
    var timestamp: nat := if u.core.clock < 0 then 0 else u.core.clock;
    w := RefusedReaches(c, u, sender, nonce, timestamp);
    w := SubmitReaches(c, w, sender, nonce, timestamp);
    w := TooLowReaches(c, w, 1, Look(c, w.core, 1));
    w := AnswerReaches(c, w, 1, EthNonceTooLow);
    w := ClearingReaches(c, w, 0, Look(c, w.core, 0));
  }

  /** So there is a run after which an `eval` is between switching its breaker on and off, and the breaker is off. */
  lemma BreakerIsLost(c: Config, u: State, sender: Address, nonce: nat) returns (w: State)
    requires InitialState(c, u) && nonce < WORD - 1
    ensures Reachable(c, w) && BreakerLostIn(w.core, 1)
  {
    w := OverlapReaches(c, u, sender, nonce);
    OverlappingEvalsLoseBreaker(c, w.core, 0, 1);
    ReachableHasInvariant(c, w);
    StepReaches(c, w, Act(1, Eval(TakeLock)));
    w := After(c, w, Act(1, Eval(TakeLock)));
    StepReaches(c, w, Act(1, Eval(Trip)));
    w := After(c, w, Act(1, Eval(Trip)));
    StepReaches(c, w, Act(0, Eval(Clear)));
    w := After(c, w, Act(0, Eval(Clear)));
  }
}
