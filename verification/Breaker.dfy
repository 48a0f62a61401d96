/** The circuit breaker of a shard never sticks: it is on only while some `eval` of the shard is between switching it on
    and switching it off. */
module Breaker {
  import opened Protocol
  import opened Conservation

  /** From after `circuitBreaker = true` to before `circuitBreaker = false`. */
  predicate InWindow(task: Task) {
    task.Evaluating? && !task.point.Locking? && !task.point.Tripping? && !task.point.Concluding?
  }

  predicate IsInWindow(s: Core, r: Id, i: nat) {
    Belongs(s.jobs, r, i) && InWindow(s.jobs[r].task)
  }

  predicate Belongs(jobs: seq<Job>, r: Id, i: nat) {
    r < |jobs| && jobs[r].index == i
  }

  ghost predicate BreakerExplained(s: Core, i: nat)
    requires i < |s.shards|
  {
    s.shards[i].breaker ==> exists r: Id :: IsInWindow(s, r, i)
  }

  ghost predicate BreakerSound(s: Core) {
    forall i: nat :: i < |s.shards| ==> BreakerExplained(s, i)
  }

  /** Switching on happens on entering the window, and nobody leaves the window without switching off. */
  predicate SwitchesFairly(p: Spot, p': Spot) {
    && (p'.shard.breaker && !p.shard.breaker ==> InWindow(p'.job.task))
    && (InWindow(p.job.task) && !InWindow(p'.job.task) ==> !p'.shard.breaker)
    && p'.job.index == p.job.index
  }

  lemma EvalSwitchesFairly(c: Config, p: Spot, r: Id, op: EvalOp)
    requires CanEval(c, p, op)
    ensures SwitchesFairly(p, AfterEval(c, p, r, op))
  {
  }

  lemma ActSwitchesFairly(c: Config, p: Spot, r: Id, op: Op)
    requires CanAct(c, p, r, op)
    ensures SwitchesFairly(p, AfterAct(c, p, r, op))
  {
    match op
    case Eval(o) => EvalSwitchesFairly(c, p, r, o);
    case _ =>
  }

  lemma PutKeepsBreaker(c: Config, s: Core, r: Id, p': Spot, i: nat)
    requires Known(c, s, r) && SwitchesFairly(Look(c, s, r), p') && i < |s.shards| && BreakerExplained(s, i)
    ensures i < |Put(c, s, r, p').shards| && BreakerExplained(Put(c, s, r, p'), i)
  {
    var t := Put(c, s, r, p');
    if t.shards[i].breaker {
      if s.shards[i].breaker {
        var q: Id :| IsInWindow(s, q, i);
        assert q != r ==> IsInWindow(t, q, i);
      }
      assert i == s.jobs[r].index && InWindow(p'.job.task) ==> IsInWindow(t, r, i);
    }
  }

  lemma QuietKeepsBreaker(c: Config, s: Core, a: Step, i: nat)
    requires Enabled(c, s, a) && !a.Act? && i < |s.shards| && BreakerExplained(s, i)
    ensures i < |Next(c, s, a).shards| && BreakerExplained(Next(c, s, a), i)
  {
    var t := Next(c, s, a);
    if t.shards[i].breaker {
      var q: Id :| IsInWindow(s, q, i);
      assert IsInWindow(t, q, i);
    }
  }

  lemma StepKeepsBreaker(c: Config, s: Core, a: Step)
    requires BreakerSound(s) && Enabled(c, s, a)
    ensures BreakerSound(Next(c, s, a))
  {
    if a.Act? {
      var p := Look(c, s, a.r);
      ActSwitchesFairly(c, p, a.r, a.op);
      forall i: nat | i < |s.shards|
        ensures i < |Put(c, s, a.r, AfterAct(c, p, a.r, a.op)).shards|
        ensures BreakerExplained(Put(c, s, a.r, AfterAct(c, p, a.r, a.op)), i)
      {
        assert BreakerExplained(s, i);
        PutKeepsBreaker(c, s, a.r, AfterAct(c, p, a.r, a.op), i);
      }
      assert Next(c, s, a) == Put(c, s, a.r, AfterAct(c, p, a.r, a.op));
    } else {
      forall i: nat | i < |s.shards|
        ensures i < |Next(c, s, a).shards| && BreakerExplained(Next(c, s, a), i)
      {
        assert BreakerExplained(s, i);
        QuietKeepsBreaker(c, s, a, i);
      }
      assert |Next(c, s, a).shards| == |s.shards|;
    }
  }

  // ---------------------------------------------------------------- the converse, and how it is lost

  /** The converse: while some `eval` of the shard is in the window, the breaker is on. */
  ghost predicate BreakerCovers(s: Core, i: nat)
    requires i < |s.shards|
  {
    (exists r: Id :: IsInWindow(s, r, i)) ==> s.shards[i].breaker
  }

  /** The lock is released before the breaker is switched off, so another `eval` of the shard can be in the window by
      the time the first one switches the breaker off. */
  ghost predicate ClearsForAnother(s: Core, a: Step, i: nat) {
    a.Act? && a.op == Eval(Clear) && Belongs(s.jobs, a.r, i) && exists q: Id :: q != a.r && IsInWindow(s, q, i)
  }

  /** Nobody but `Clear` switches off, and whoever enters the window switches on. */
  predicate SwitchesOn(p: Spot, op: Op, p': Spot) {
    && (p.shard.breaker && !p'.shard.breaker ==> op == Eval(Clear))
    && (InWindow(p'.job.task) && !InWindow(p.job.task) ==> p'.shard.breaker)
    && (op == Eval(Clear) ==> !p'.shard.breaker && !InWindow(p'.job.task))
  }

  lemma EvalSwitchesOn(c: Config, p: Spot, r: Id, op: EvalOp)
    requires CanEval(c, p, op)
    ensures SwitchesOn(p, Eval(op), AfterEval(c, p, r, op))
  {
  }

  lemma ActSwitchesOn(c: Config, p: Spot, r: Id, op: Op)
    requires CanAct(c, p, r, op)
    ensures SwitchesOn(p, op, AfterAct(c, p, r, op))
  {
    match op
    case Eval(o) => EvalSwitchesOn(c, p, r, o);
    case _ =>
  }

  /** Where the converse holds, a step keeps it if and only if it does not switch the breaker off for another `eval`
      in the window. */
  lemma ConverseIsLostByClearing(c: Config, s: Core, a: Step, i: nat)
    requires Enabled(c, s, a) && i < |s.shards| && BreakerCovers(s, i)
    ensures i < |Next(c, s, a).shards|
    ensures BreakerCovers(Next(c, s, a), i) <==> !ClearsForAnother(s, a, i)
  {
    if a.Act? {
      var p := Look(c, s, a.r);
      ActSwitchesOn(c, p, a.r, a.op);
      ActContinues(c, p, a.r, a.op);
      PutAndConverse(c, s, a.r, a.op, AfterAct(c, p, a.r, a.op), i);
    } else {
      QuietAndConverse(c, s, a, i);
    }
  }

  lemma PutAndConverse(c: Config, s: Core, r: Id, op: Op, p': Spot, i: nat)
    requires Known(c, s, r) && i < |s.shards| && BreakerCovers(s, i)
    requires SwitchesOn(Look(c, s, r), op, p') && SameIdentity(s.jobs[r], p'.job)
    ensures i < |Put(c, s, r, p').shards|
    ensures BreakerCovers(Put(c, s, r, p'), i) <==> !ClearsForAnother(s, Act(r, op), i)
  {
    var t := Put(c, s, r, p');
    if ClearsForAnother(s, Act(r, op), i) {
      var q: Id :| q != r && IsInWindow(s, q, i);
      assert IsInWindow(t, q, i);
    } else if q: Id :| IsInWindow(t, q, i) {
      assert q != r ==> IsInWindow(s, q, i);
      assert s.jobs[r].index == i && InWindow(s.jobs[r].task) ==> IsInWindow(s, r, i);
    }
  }

  lemma QuietAndConverse(c: Config, s: Core, a: Step, i: nat)
    requires Enabled(c, s, a) && !a.Act? && i < |s.shards| && BreakerCovers(s, i)
    ensures i < |Next(c, s, a).shards| && BreakerCovers(Next(c, s, a), i)
  {
    var t := Next(c, s, a);
    if q: Id :| IsInWindow(t, q, i) {
      assert IsInWindow(s, q, i);
    }
  }

  /** And that does happen: whenever one `eval` has released the lock and another one of the shard is about to take it,
      three possible steps lead to an `eval` in the window with its breaker off. */
  lemma OverlappingEvalsLoseBreaker(c: Config, s: Core, r: Id, q: Id)
    requires Known(c, s, r) && Known(c, s, q) && r != q && s.jobs[r].index == s.jobs[q].index
    requires At(s.jobs[r], Clearing) && At(s.jobs[q], Locking) && s.shards[s.jobs[r].index].lock == Free
    ensures Enabled(c, s, Act(q, Eval(TakeLock)))
    ensures var s1 := Next(c, s, Act(q, Eval(TakeLock)));
            && Enabled(c, s1, Act(q, Eval(Trip)))
            && var s2 := Next(c, s1, Act(q, Eval(Trip)));
               && Enabled(c, s2, Act(r, Eval(Clear)))
               && BreakerLostIn(Next(c, s2, Act(r, Eval(Clear))), q)
  {
    var s1 := Next(c, s, Act(q, Eval(TakeLock)));
    EvalMoves(c, s, q, TakeLock, r);
    EvalMoves(c, s1, q, Trip, r);
    EvalMoves(c, Next(c, s1, Act(q, Eval(Trip))), r, Clear, q);
  }

  /** A step of one `eval` as another one of the shard sees it. */
  lemma EvalMoves(c: Config, s: Core, r: Id, op: EvalOp, q: Id)
    requires Known(c, s, r) && Known(c, s, q) && r != q && s.jobs[r].index == s.jobs[q].index
    requires CanEval(c, Look(c, s, r), op)
    ensures var t, p' := Next(c, s, Act(r, Eval(op))), AfterEval(c, Look(c, s, r), r, op);
            && Known(c, t, r) && Known(c, t, q) && t.jobs[q] == s.jobs[q] && t.jobs[r] == p'.job
            && t.jobs[r].index == s.jobs[r].index && t.shards[s.jobs[r].index] == p'.shard
  {
    ActContinues(c, Look(c, s, r), r, Eval(op));
  }

  /** The `eval` of q is in the window, and the breaker of its shard is off. */
  predicate BreakerLostIn(s: Core, q: Id) {
    q < |s.jobs| && InWindow(s.jobs[q].task) && s.jobs[q].index < |s.shards| && !s.shards[s.jobs[q].index].breaker
  }
}
