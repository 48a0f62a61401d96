/** What the single steps of the processor come to, told from outside: when a retry is put back, what a timer does,
    how a request ends, and that the queues are queues. */
module Outcomes {
  import opened Wrappers
  import opened TxnError
  import opened TxnReqResp
  import opened Protocol
  import opened History

  // ---------------------------------------------------------------- the end of a round

  /** A retry is put back at the end of the unordered queue if and only if there is room; then its goroutine goes on
      listening. Otherwise the request is finished, as refused if there was to be a retry. */
  lemma RetryIsPutBack(c: Config, s: Core, r: Id)
    requires Enabled(c, s, Act(r, Eval(Conclude)))
    ensures var t, i := Next(c, s, Act(r, Eval(Conclude))), s.jobs[r].index;
            var v, q := s.jobs[r].task.verdict, s.shards[i].unordered;
            && (t.jobs[r].task == Listening <==> v.retry && |q| < 100)
            && t.shards[i].unordered == q + (if v.retry && |q| < 100 then [r] else [])
            && (t.jobs[r].task != Listening ==> t.jobs[r].task == Finished(v, v.retry))
  {
  }

  lemma OnlyConcludeFinishes(c: Config, p: Spot, r: Id, op: Op)
    requires CanAct(c, p, r, op) && !p.job.task.Finished?
    ensures AfterAct(c, p, r, op).job.task.Finished? ==> op == Eval(Conclude)
  {
  }

  /** A request becomes finished in no other way: either `eval` said that there is to be no retry, or the queue was
      full. */
  lemma FinishingMeansConcluding(c: Config, s: Core, a: Step, r: Id)
    requires Enabled(c, s, a) && r < |s.jobs| && !s.jobs[r].task.Finished?
    requires r < |Next(c, s, a).jobs| && Next(c, s, a).jobs[r].task.Finished?
    ensures a == Act(r, Eval(Conclude)) && Known(c, s, r) && At(s.jobs[r], Concluding)
    ensures var v, end := s.jobs[r].task.verdict, Next(c, s, a).jobs[r].task;
            && end == Finished(v, v.retry)
            && (v.retry ==> |s.shards[s.jobs[r].index].unordered| >= 100)
  {
    assert a.Act? && a.r == r;
    OnlyConcludeFinishes(c, Look(c, s, r), r, a.op);
    RetryIsPutBack(c, s, r);
  }

  // ---------------------------------------------------------------- success

  /** A success ends the request: it needs no lock and is never tried again. */
  predicate SuccessEnds(job: Job) {
    (job.task.Evaluating? || job.task.Finished?) && job.task.verdict.success ==>
      && (job.task.Finished? || At(job, Concluding))
      && !job.task.verdict.retry
      && !job.task.verdict.synthetic
  }

  ghost predicate SuccessesEnd(s: Core) {
    forall r {:trigger s.jobs[r]} :: 0 <= r < |s.jobs| ==> SuccessEnds(s.jobs[r])
  }

  lemma EvalKeepsSuccess(c: Config, p: Spot, r: Id, op: EvalOp)
    requires CanEval(c, p, op) && SuccessEnds(p.job)
    ensures SuccessEnds(AfterEval(c, p, r, op).job)
  {
  }

  lemma ActKeepsSuccess(c: Config, p: Spot, r: Id, op: Op)
    requires CanAct(c, p, r, op) && SuccessEnds(p.job)
    ensures SuccessEnds(AfterAct(c, p, r, op).job)
  {
    match op
    case Eval(o) => EvalKeepsSuccess(c, p, r, o);
    case _ => assert AfterAct(c, p, r, op).job.task == p.job.task;
  }

  lemma PutKeepsSuccess(c: Config, s: Core, r: Id, p: Spot)
    requires Known(c, s, r) && SuccessesEnd(s) && SuccessEnds(p.job)
    ensures SuccessesEnd(Put(c, s, r, p))
  {
    assert Put(c, s, r, p).jobs == s.jobs[r := p.job];
  }

  lemma StepKeepsSuccess(c: Config, s: Core, a: Step)
    requires Enabled(c, s, a) && SuccessesEnd(s)
    ensures SuccessesEnd(Next(c, s, a))
  {
    if a.Act? {
      ActKeepsSuccess(c, Look(c, s, a.r), a.r, a.op);
      PutKeepsSuccess(c, s, a.r, AfterAct(c, Look(c, s, a.r), a.r, a.op));
    } else {
      QuietKeepsSuccess(c, s, a);
    }
  }

  lemma QuietKeepsSuccess(c: Config, s: Core, a: Step)
    requires Enabled(c, s, a) && SuccessesEnd(s) && !a.Act?
    ensures SuccessesEnd(Next(c, s, a))
  {
    assert a.Submit? || Next(c, s, a).jobs == s.jobs;
  }

  lemma {:induction false} StretchKeepsSuccess(c: Config, states: seq<State>, steps: seq<Step>, k: nat)
    requires IsStretch(c, states, steps) && SuccessesEnd(states[0].core) && k < |states|
    ensures SuccessesEnd(states[k].core)
  {
    if k > 0 {
      StretchKeepsSuccess(c, states, steps, k - 1);
      StepKeepsSuccess(c, states[k - 1].core, steps[k - 1]);
    }
  }

  /** Over every run, a request whose call succeeded is finished or about to finish, and is not tried again. */
  lemma SuccessIsNeverRetried(c: Config, u: State, r: Id)
    requires Reachable(c, u) && r < |u.core.jobs|
    ensures SuccessEnds(u.core.jobs[r])
  {
    var states, steps :| IsRun(c, states, steps) && states[|states| - 1] == u;
    StretchKeepsSuccess(c, states, steps, |states| - 1);
  }

  /** And a success is recognised: whatever else there is, its answer leads straight to the end. */
  lemma SuccessIsRecognised(c: Config, s: Core, r: Id)
    requires Enabled(c, s, Act(r, Eval(Receive))) && c.judge(s.jobs[r].inbox[0]).Succeeds?
    ensures var job := Next(c, s, Act(r, Eval(Receive))).jobs[r];
            At(job, Concluding) && job.task.verdict.success && !job.task.verdict.retry
  {
  }

  // ---------------------------------------------------------------- timers, calls and answers

  /** A timer that goes off pushes its request if there is room, and answers it otherwise. */
  lemma TimerPushesOrAnswers(c: Config, s: Core, r: Id)
    requires Known(c, s, r) && s.timers[r] > 0 && UnorderedOpen(s, s.jobs[r].index) && s.jobs[r].inbox == []
    ensures Enabled(c, s, Act(r, Fire))
    ensures var t, i := Next(c, s, Act(r, Fire)), s.jobs[r].index;
            var room := |s.shards[i].unordered| < 100;
            && t.timers[r] == s.timers[r] - 1
            && t.shards[i].unordered == s.shards[i].unordered + (if room then [r] else [])
            && t.jobs[r].inbox == (if room then [] else [Own(Exhausted)])
  {
  }

  /** A call under way can return with anything that does not make `eval` panic, and that is what the request
      receives. */
  lemma AnswersArrive(c: Config, s: Core, r: Id, resp: TxnFailure.Json, err: Option<string>)
    requires Known(c, s, r) && s.flights[r] > 0 && s.jobs[r].inbox == [] && !c.judge(Node(resp, err)).Panics?
    ensures Enabled(c, s, Act(r, Arrive(resp, err)))
    ensures var t := Next(c, s, Act(r, Arrive(resp, err)));
            t.flights[r] == s.flights[r] - 1 && t.jobs[r].inbox == [Node(resp, err)]
  {
  }

  /** The node may answer a lookup with any nonce or fail, wherever one is made. */
  lemma LookupsMayYieldAnything(c: Config, p: Spot, r: Id, got: Fetched)
    requires p.job.inbox == []
    ensures p.shard.sorter == Fetching(r) ==> CanSort(p, r, SortOp.Fetch(got))
    ensures p.shard.courier == Asking(r) ==> CanSend(p, r, Ask(got))
    ensures At(p.job, NearFetch) ==> CanEval(c, p, FetchNear(got))
    ensures At(p.job, EthFetch) ==> CanEval(c, p, FetchEth(got))
  {
  }

  /** The first push of a request waits for room and then goes to the end. */
  lemma SubmittedIsQueued(c: Config, s: Core, r: Id)
    requires Known(c, s, r) && s.submitting[r] > 0 && UnorderedOpen(s, s.jobs[r].index)
    ensures Enabled(c, s, Act(r, Enqueue)) <==> |s.shards[s.jobs[r].index].unordered| < 100
    ensures Enabled(c, s, Act(r, Enqueue)) ==>
              var t, i := Next(c, s, Act(r, Enqueue)), s.jobs[r].index;
              t.shards[i].unordered == s.shards[i].unordered + [r] && t.submitting[r] == s.submitting[r] - 1
  {
  }

  /** Time may pass by any amount at any time. */
  lemma TimePasses(c: Config, s: Core, elapsed: nat)
    ensures Enabled(c, s, Tick(elapsed)) && Next(c, s, Tick(elapsed)) == s.(clock := s.clock + elapsed)
  {
  }

  /** A request is expired if and only if it was submitted more than sixty seconds ago. */
  lemma ExpiryTakesSixtySeconds(job: Job, now: int)
    ensures Expired(job, now) <==> now - job.timestamp * 1_000_000_000 > 60 * 1_000_000_000
  {
  }

  // ---------------------------------------------------------------- breaker

  lemma OnlySendTests(c: Config, p: Spot, q: Id, op: Op, r: Id)
    requires CanAct(c, p, q, op) && p.shard.courier == Taken(r)
    ensures AfterAct(c, p, q, op).shard.courier != Taken(r) ==> q == r && op == Send(TestBreaker)
  {
  }

  lemma TestAsksBreaker(p: Spot, r: Id)
    requires CanSend(p, r, TestBreaker)
    ensures AfterSend(p, r, TestBreaker)
         == if p.shard.breaker then
              p.(shard := p.shard.(courier := Waiting), job := p.job.(inbox := p.job.inbox + [Own(Reorder)]))
            else p.(shard := p.shard.(courier := Passed(r)))
  {
  }

  /** A request that `send` has taken gets no further than to the breaker: with the breaker on it is answered and not
      called, with the breaker off it passes. */
  lemma BreakerHoldsBack(c: Config, s: Core, a: Step, i: nat, r: Id)
    requires Enabled(c, s, a) && i < |s.shards| && s.shards[i].courier == Taken(r)
    ensures i < |Next(c, s, a).shards|
    ensures Next(c, s, a).shards[i].courier != Taken(r) ==>
              && a == Act(r, Send(TestBreaker)) && Known(c, s, r)
              && var t := Next(c, s, a);
                 && t.flights[r] == s.flights[r]
                 && (s.shards[i].breaker ==>
                       t.shards[i].courier == Waiting && t.jobs[r].inbox == s.jobs[r].inbox + [Own(Reorder)])
                 && (!s.shards[i].breaker ==> t.shards[i].courier == Passed(r) && t.jobs[r] == s.jobs[r])
  {
    if a.Act? {
      var p := Look(c, s, a.r);
      if s.jobs[a.r].index == i {
        OnlySendTests(c, p, a.r, a.op, r);
        if a == Act(r, Send(TestBreaker)) {
          TestAsksBreaker(p, r);
          assert Next(c, s, a) == Put(c, s, r, AfterSend(p, r, TestBreaker));
        }
      }
    }
  }

  // ---------------------------------------------------------------- queues

  /** One item more at the end, one less at the front, or the same. */
  predicate MovesOn(q: seq<Id>, q': seq<Id>) {
    q' == q || (q <= q' && |q'| == |q| + 1) || (q != [] && q' == q[1..])
  }

  lemma ActMovesOn(c: Config, p: Spot, r: Id, op: Op)
    requires CanAct(c, p, r, op)
    ensures MovesOn(p.shard.unordered, AfterAct(c, p, r, op).shard.unordered)
    ensures MovesOn(p.shard.ordered, AfterAct(c, p, r, op).shard.ordered)
  {
    var p' := AfterAct(c, p, r, op);
    assert p'.shard.unordered == p.shard.unordered || p'.shard.unordered == p.shard.unordered + [r]
           || (p.shard.unordered != [] && p'.shard.unordered == p.shard.unordered[1..]);
    assert p'.shard.ordered == p.shard.ordered || p'.shard.ordered == p.shard.ordered + [r]
           || (p.shard.ordered != [] && p'.shard.ordered == p.shard.ordered[1..]);
  }

  /** In every step both queues of every shard are first in, first out. */
  lemma QueuesAreFifo(c: Config, s: Core, a: Step, i: nat)
    requires Enabled(c, s, a) && i < |s.shards|
    ensures i < |Next(c, s, a).shards|
    ensures MovesOn(s.shards[i].unordered, Next(c, s, a).shards[i].unordered)
    ensures MovesOn(s.shards[i].ordered, Next(c, s, a).shards[i].ordered)
  {
    if a.Act? {
      ActMovesOn(c, Look(c, s, a.r), a.r, a.op);
    }
  }
}
