/** Runs put together step by step, to show that a state can be reached. */
module Reaching {
  import opened Wrappers
  import opened TxnError
  import opened TxnReqResp
  import opened Protocol
  import opened Conservation
  import opened History
  import opened Runs

  /** Some continuation of a run in u ends in w. */
  ghost predicate LeadsTo(c: Config, u: State, w: State) {
    exists states, steps :: IsStretch(c, states, steps) && states[0] == u && states[|states| - 1] == w
  }

  lemma LeadsToItself(c: Config, u: State)
    ensures LeadsTo(c, u, u)
  {
    assert IsStretch(c, [u], []);
  }

  lemma StepLeadsTo(c: Config, u: State, a: Step, w: State)
    requires CanStep(c, u, a) && LeadsTo(c, After(c, u, a), w)
    ensures LeadsTo(c, u, w)
  {
    var states, steps :|
      IsStretch(c, states, steps) && states[0] == After(c, u, a) && states[|states| - 1] == w;
    var more, longer := [u] + states, [a] + steps;
    forall k | 0 <= k < |longer|
      ensures CanStep(c, more[k], longer[k]) && more[k + 1] == After(c, more[k], longer[k])
    {
      if k > 0 {
        assert CanStep(c, states[k - 1], steps[k - 1]);
      }
    }
    assert IsStretch(c, more, longer);
  }

  lemma StepReaches(c: Config, u: State, a: Step)
    requires Reachable(c, u) && CanStep(c, u, a)
    ensures Reachable(c, After(c, u, a))
  {
    var states, steps :| IsRun(c, states, steps) && states[|states| - 1] == u;
    var more, longer := states + [After(c, u, a)], steps + [a];
    forall k | 0 <= k < |longer|
      ensures CanStep(c, more[k], longer[k]) && more[k + 1] == After(c, more[k], longer[k])
    {
      if k < |steps| {
        assert CanStep(c, states[k], steps[k]);
      }
    }
    assert IsRun(c, more, longer);
  }

  /** A possible step of a request leads on; the request then sees what the step computed, and other requests stay as
      they are. */
  lemma ActReaches(c: Config, u: State, r: Id, op: Op, p: Spot) returns (w: State)
    requires Reachable(c, u) && Known(c, u.core, r) && p == Look(c, u.core, r) && CanAct(c, p, r, op)
    ensures Reachable(c, w) && Known(c, w.core, r) && Look(c, w.core, r) == AfterAct(c, p, r, op)
    ensures w.core.closing == u.core.closing && w.core.clock == u.core.clock
    ensures w.core.jobs == u.core.jobs[r := AfterAct(c, p, r, op).job]
  {
    ReachableHasInvariant(c, u);
    w := After(c, u, Act(r, op));
    StepReaches(c, u, Act(r, op));
    ActContinues(c, p, r, op);
    PutLookOwn(c, u.core, r, AfterAct(c, p, r, op));
  }

  /** A request that has just been submitted. */
  function NewJob(c: Config, sender: Address, nonce: nat, timestamp: nat): Job {
    Job(c.shardOf(sender), timestamp, nonce, sender, false, [], Listening)
  }

  lemma SubmitReaches(c: Config, u: State, sender: Address, nonce: nat, timestamp: nat) returns (w: State)
    requires Reachable(c, u) && nonce < WORD - 1
    ensures Reachable(c, w) && w.core == AfterSubmit(c, u.core, sender, nonce, timestamp)
    ensures Known(c, w.core, |u.core.jobs|)
    ensures var p := Look(c, w.core, |u.core.jobs|);
            && p.job == NewJob(c, sender, nonce, timestamp) && p.submitting == 1 && p.timers == p.flights == 0
            && p.now == u.core.clock
  {
    ReachableHasInvariant(c, u);
    var a := Submit(sender, nonce, timestamp);
    w := After(c, u, a);
    StepReaches(c, u, a);
  }

  const IDLE := Shard(Free, false, [], [], Resting, Waiting)

  /** A newly submitted request in front of an idle shard. */
  predicate AtTheDoor(p: Spot) {
    && p.shard == IDLE && p.open && p.submitting == 1 && !Expired(p.job, p.now)
    && p.job.task == Listening && p.job.inbox == [] && !p.job.retransmit
  }

  /** From submission to the lock. */
  lemma LockReaches(c: Config, u: State, r: Id, p: Spot) returns (w: State)
    requires Reachable(c, u) && Known(c, u.core, r) && p == Look(c, u.core, r) && AtTheDoor(p)
    ensures Reachable(c, w) && Known(c, w.core, r) && w.core.jobs == u.core.jobs && w.core.closing == u.core.closing
    ensures Look(c, w.core, r) == p.(shard := IDLE.(lock := BySorter, sorter := Deciding(r)), submitting := 0)
  {
    w := ActReaches(c, u, r, Enqueue, p);
    w := ActReaches(c, w, r, Op.Sort(Take), Look(c, w.core, r));
    w := ActReaches(c, w, r, Op.Sort(Lock), Look(c, w.core, r));
  }

  /** The first request of a sender goes through to the ordered queue. */
  lemma FirstReaches(c: Config, u: State, r: Id, p: Spot) returns (w: State)
    requires Reachable(c, u) && Known(c, u.core, r) && p == Look(c, u.core, r) && AtTheDoor(p) && p.eth.None?
    ensures Reachable(c, w) && Known(c, w.core, r) && w.core.jobs == u.core.jobs && w.core.closing == u.core.closing
    ensures Look(c, w.core, r)
         == p.(shard := IDLE.(ordered := [r]), eth := Some(NewEntry(p.job.nonce + 1, p.now)), submitting := 0)
  {
    w := LockReaches(c, u, r, p);
    w := ActReaches(c, w, r, Op.Sort(Decide), Look(c, w.core, r));
    w := ActReaches(c, w, r, Op.Sort(Push), Look(c, w.core, r));
    w := ActReaches(c, w, r, Op.Sort(Unlock), Look(c, w.core, r));
  }

  /** The first call under a key: the `send` worker takes the request and asks the node for the Near nonce. */
  lemma AskReaches(c: Config, u: State, r: Id, p: Spot, got: Fetched) returns (w: State)
    requires Reachable(c, u) && Known(c, u.core, r) && p == Look(c, u.core, r)
    requires p.shard == IDLE.(ordered := [r]) && p.near.None? && p.job.inbox == [] && !Expired(p.job, p.now)
    ensures Reachable(c, w) && Known(c, w.core, r) && w.core.closing == u.core.closing
    ensures w.core.jobs == u.core.jobs[r := Look(c, w.core, r).job]
    ensures var q := Look(c, w.core, r);
            && q == p.(shard := IDLE, job := q.job, near := q.near, flights := q.flights)
            && (got.Got? ==> q.job == p.job && q.flights == p.flights + 1)
            && (got.Failed? ==> q.job == Answered(p.job, Own(NearNonceError)) && q.flights == p.flights)
  {
    w := ActReaches(c, u, r, Op.Send(Pop), p);
    w := ActReaches(c, w, r, Op.Send(TestBreaker), Look(c, w.core, r));
    w := ActReaches(c, w, r, Op.Send(Go), Look(c, w.core, r));
    w := ActReaches(c, w, r, Op.Send(Ask(got)), Look(c, w.core, r));
  }
}
