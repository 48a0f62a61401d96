/** What `TxnProcessor.Close` waits for and what it does not. It waits for the queues and their workers, and it never
    hangs on them; but it waits neither for timers nor for Near calls nor for answers, so that it can return while a
    received transaction is not completed. */
module Close {
  import opened Protocol
  import opened Conservation
  import opened History
  import opened Runs
  import opened Theorems
  import opened Progress
  import opened Reaching

  /** `Close` has returned: all queues are closed and the last worker it waits for has left. */
  predicate CloseReturned(s: Core) {
    |s.shards| > 0 && s.closing == 2 * |s.shards| && s.shards[|s.shards| - 1].courier.Exited?
  }

  // ---------------------------------------------------------------- Close never hangs

  /** The steps that `Close` waits for: its own; and, in the shard whose queue it has closed last, the `sort` worker
      leaving or moving, or whoever that worker waits for, and for an ordered queue the `send` worker and nobody else.
      */
  predicate ServesClose(s: Core, a: Step) {
    match a
    case CloseNext => true
    case SorterQuits(i) => s.closing == i + 1
    case CourierQuits(i) => s.closing == |s.shards| + i + 1
    case Act(r, op) =>
      && r < |s.jobs|
      && (if s.closing <= |s.shards| then s.closing == s.jobs[r].index + 1 && IsWorkerStep(op)
          else s.closing == |s.shards| + s.jobs[r].index + 1 && op.Send?)
    case _ => false
  }

  lemma CloseCanMove(c: Config, u: State) returns (a: Step)
    requires Invariant(c, u) && !CloseReturned(u.core)
    ensures CanStep(c, u, a) && ServesClose(u.core, a)
  {
    var s, n := u.core, |u.core.shards|;
    if s.closing == 0 {
      a := CloseNext;
    } else if s.closing <= n {
      a := SorterLeaves(c, u, s.closing - 1);
    } else {
      a := CourierLeaves(c, u, s.closing - 1 - n);
    }
  }

  lemma SorterLeaves(c: Config, u: State, i: nat) returns (a: Step)
    requires Invariant(c, u) && i < |u.core.shards| && u.core.closing == i + 1
    ensures CanStep(c, u, a) && ServesClose(u.core, a)
  {
    var h := u.core.shards[i];
    if h.sorter.Gone? {
      a := CloseNext;
    } else if h.sorter.Resting? && h.unordered == [] {
      a := SorterQuits(i);
    } else {
      var r, op := SorterCanMove(c, u, i);
      a := Act(r, op);
    }
  }

  lemma CourierLeaves(c: Config, u: State, i: nat) returns (a: Step)
    requires Invariant(c, u) && i < |u.core.shards| && u.core.closing == |u.core.shards| + i + 1
    requires !CloseReturned(u.core)
    ensures CanStep(c, u, a) && ServesClose(u.core, a)
  {
    var h := u.core.shards[i];
    if h.courier.Exited? {
      a := CloseNext;
    } else if h.courier.Waiting? && h.ordered == [] {
      a := CourierQuits(i);
    } else {
      var r, op := CourierCanMove(c, u, i);
      a := Act(r, Op.Send(op));
    }
  }

  /** `Close` never hangs: in every reachable state in which it has not returned, it can go on, or the worker that it
      waits for can leave or move, or whoever that worker waits for in its shard can move. */
  lemma CloseNeverHangs(c: Config, u: State) returns (a: Step)
    requires Reachable(c, u) && !CloseReturned(u.core)
    ensures Enabled(c, u.core, a) && ServesClose(u.core, a)
  {
    ReachableHasInvariant(c, u);
    a := CloseCanMove(c, u);
  }

  // ---------------------------------------------------------------- how long it can take

  function Sum(xs: seq<nat>): nat {
    if xs == [] then 0 else xs[0] + Sum(xs[1..])
  }

  lemma {:induction false} SumOfUpdate(xs: seq<nat>, i: nat, x: nat)
    requires i < |xs|
    ensures Sum(xs[i := x]) == Sum(xs) - xs[i] + x
  {
    if i == 0 {
      assert xs[0 := x][1..] == xs[1..];
    } else {
      SumOfUpdate(xs[1..], i - 1, x);
      assert xs[i := x][1..] == xs[1..][i - 1 := x];
    }
  }

  function SorterDebt(w: Sorter): nat {
    match w
    case Gone => 0
    case Resting => 1
    case Leaving(_) => 2
    case Fetching(_) => 3
    case Checking(_) => 4
    case Pushing(_, _) => 7
    case Deciding(_) => 8
    case Wanting(_) => 9
  }

  function CourierDebt(w: Courier): nat {
    match w
    case Exited => 0
    case Waiting => 1
    case Asking(_) => 2
    case Passed(_) => 3
    case Taken(_) => 4
  }

  /** What the workers of a shard still have to do before they can leave. */
  function ShardDebt(h: Shard): nat {
    9 * |h.unordered| + SorterDebt(h.sorter) + 4 * |h.ordered| + CourierDebt(h.courier)
  }

  /** What an `eval` that holds a lock still has to do before it releases it. */
  function TaskDebt(task: Task): nat {
    if !HoldsLock(task) then 0
    else
      match task.point
      case Tripping => 7
      case NearCheck => 6
      case NearFetch => 5
      case EthCheck => 4
      case EthFetch => 3
      case Comparing => 2
      case _ => 1
  }

  function ShardDebts(shards: seq<Shard>): seq<nat> {
    seq(|shards|, i requires 0 <= i < |shards| => ShardDebt(shards[i]))
  }

  function TaskDebts(jobs: seq<Job>): seq<nat> {
    seq(|jobs|, r requires 0 <= r < |jobs| => TaskDebt(jobs[r].task))
  }

  function Debt(s: Core): int {
    Sum(ShardDebts(s.shards)) + Sum(TaskDebts(s.jobs)) + 2 * |s.shards| - s.closing
  }

  lemma SortPaysDebt(p: Spot, r: Id, op: SortOp)
    requires CanSort(p, r, op)
    ensures ShardDebt(AfterSort(p, r, op).shard) < ShardDebt(p.shard)
    ensures AfterSort(p, r, op).job.task == p.job.task
  {
  }

  lemma SendPaysDebt(p: Spot, r: Id, op: SendOp)
    requires CanSend(p, r, op)
    ensures ShardDebt(AfterSend(p, r, op).shard) < ShardDebt(p.shard)
    ensures AfterSend(p, r, op).job.task == p.job.task
  {
  }

  lemma EvalPaysDebt(c: Config, p: Spot, r: Id, op: EvalOp)
    requires CanEval(c, p, op) && UnderLock(op)
    ensures ShardDebt(AfterEval(c, p, r, op).shard) == ShardDebt(p.shard)
    ensures TaskDebt(AfterEval(c, p, r, op).job.task) < TaskDebt(p.job.task)
    ensures !AfterEval(c, p, r, op).job.task.Finished?
  {
  }

  /** What a step that serves `Close` does to a request: it pays some of the debt, finishes nothing, and ends no call.
      */
  predicate Pays(p: Spot, p': Spot) {
    && ShardDebt(p'.shard) + TaskDebt(p'.job.task) < ShardDebt(p.shard) + TaskDebt(p.job.task)
    && (p'.job.task.Finished? ==> p.job.task.Finished?)
    && p'.flights >= p.flights
  }

  lemma WorkerStepPays(c: Config, p: Spot, r: Id, op: Op)
    requires CanAct(c, p, r, op) && IsWorkerStep(op)
    ensures Pays(p, AfterAct(c, p, r, op))
  {
    match op
    case Sort(o) => SortPaysDebt(p, r, o);
    case Send(o) => SendPaysDebt(p, r, o);
    case Eval(o) => EvalPaysDebt(c, p, r, o);
  }

  lemma PutPaysDebt(c: Config, s: Core, r: Id, p': Spot)
    requires Known(c, s, r) && Pays(Look(c, s, r), p')
    ensures Debt(Put(c, s, r, p')) < Debt(s)
  {
    var t, i := Put(c, s, r, p'), s.jobs[r].index;
    assert ShardDebts(t.shards) == ShardDebts(s.shards)[i := ShardDebt(p'.shard)];
    assert TaskDebts(t.jobs) == TaskDebts(s.jobs)[r := TaskDebt(p'.job.task)];
    SumOfUpdate(ShardDebts(s.shards), i, ShardDebt(p'.shard));
    SumOfUpdate(TaskDebts(s.jobs), r, TaskDebt(p'.job.task));
  }

  lemma QuitPaysDebt(c: Config, s: Core, a: Step)
    requires Enabled(c, s, a) && (a.SorterQuits? || a.CourierQuits?)
    ensures Debt(Next(c, s, a)) < Debt(s)
  {
    var t := Next(c, s, a);
    assert ShardDebts(t.shards) == ShardDebts(s.shards)[a.i := ShardDebt(t.shards[a.i])];
    SumOfUpdate(ShardDebts(s.shards), a.i, ShardDebt(t.shards[a.i]));
  }

  lemma ServingPaysDebt(c: Config, s: Core, a: Step)
    requires Enabled(c, s, a) && ServesClose(s, a)
    ensures Debt(Next(c, s, a)) < Debt(s)
  {
    match a
    case Act(r, op) =>
      WorkerStepPays(c, Look(c, s, r), r, op);
      PutPaysDebt(c, s, r, AfterAct(c, Look(c, s, r), r, op));
    case CloseNext =>
    case _ => QuitPaysDebt(c, s, a);
  }

  /** A request that is not finished, with a number of calls under way. */
  predicate Pending(s: Core, r: Id, calls: nat) {
    r < |s.jobs| && !s.jobs[r].task.Finished? && s.flights[r] >= calls
  }

  lemma ServingKeepsPending(c: Config, s: Core, a: Step, r: Id, calls: nat)
    requires Enabled(c, s, a) && ServesClose(s, a) && Pending(s, r, calls)
    ensures Pending(Next(c, s, a), r, calls)
  {
    if a.Act? {
      WorkerStepPays(c, Look(c, s, a.r), a.r, a.op);
    }
  }

  // ---------------------------------------------------------------- what it guarantees

  /** From every reachable state some continuation leads to the return of `Close` without finishing a request that is
      unfinished, or ending its call. */
  lemma CloseCanReturn(c: Config, u: State, r: Id, calls: nat) returns (w: State)
    requires Reachable(c, u) && Pending(u.core, r, calls)
    ensures LeadsTo(c, u, w) && Reachable(c, w) && CloseReturned(w.core) && Pending(w.core, r, calls)
    decreases Debt(u.core)
  {
    ReachableHasInvariant(c, u);
    if CloseReturned(u.core) {
      LeadsToItself(c, u);
      w := u;
    } else {
      var a := CloseCanMove(c, u);
      ServingPaysDebt(c, u.core, a);
      ServingKeepsPending(c, u.core, a, r, calls);
      StepReaches(c, u, a);
      w := CloseCanReturn(c, After(c, u, a), r, calls);
      StepLeadsTo(c, u, a, w);
    }
  }

  lemma StepKeepsFinished(c: Config, s: Core, a: Step, r: Id)
    requires Enabled(c, s, a) && r < |s.jobs| && s.jobs[r].task.Finished?
    ensures r < |Next(c, s, a).jobs| && Next(c, s, a).jobs[r].task.Finished?
  {
  }

  lemma {:induction false} FinishedForever(c: Config, states: seq<State>, steps: seq<Step>, r: Id, k: nat)
    requires IsStretch(c, states, steps) && k < |states|
    requires r < |states[0].core.jobs| && states[0].core.jobs[r].task.Finished?
    ensures r < |states[k].core.jobs| && states[k].core.jobs[r].task.Finished?
  {
    if k > 0 {
      FinishedForever(c, states, steps, r, k - 1);
      StepKeepsFinished(c, states[k - 1].core, steps[k - 1], r);
    }
  }

  /** However the run goes on, the request is finished when `Close` has returned. */
  ghost predicate SureToBeFinished(c: Config, u: State, r: Id) {
    forall w :: LeadsTo(c, u, w) && CloseReturned(w.core) ==> r < |w.core.jobs| && w.core.jobs[r].task.Finished?
  }

  /** The exact guarantee of `Close`: a request is sure to be finished when `Close` returns if and only if it is
      finished already, in whatever state `Close` is called. So waiting for `Close` guarantees nothing about a
      request. */
  lemma CloseGuaranteesOnlyTheFinished(c: Config, u: State, r: Id)
    requires Reachable(c, u) && r < |u.core.jobs|
    ensures SureToBeFinished(c, u, r) <==> u.core.jobs[r].task.Finished?
  {
    if u.core.jobs[r].task.Finished? {
      forall w | LeadsTo(c, u, w) && CloseReturned(w.core)
        ensures r < |w.core.jobs| && w.core.jobs[r].task.Finished?
      {
        var states, steps :| IsStretch(c, states, steps) && states[0] == u && states[|states| - 1] == w;
        FinishedForever(c, states, steps, r, |states| - 1);
      }
    } else {
      var w := CloseCanReturn(c, u, r, 0);
    }
  }

  /** For every configuration there is a run with one request after which `Close` has returned and a call for that
      request is still under way. */
  lemma CloseDoesNotWaitForCalls(c: Config, u: State, sender: Address, nonce: nat) returns (w: State)
    requires InitialState(c, u) && nonce < WORD - 1
    ensures Reachable(c, w) && CloseReturned(w.core) && |w.core.jobs| > 0
    ensures !w.core.jobs[0].task.Finished? && w.core.flights[0] > 0
  {
    assert IsRun(c, [u], []);
    w := SubmitReaches(c, u, sender, nonce, if u.core.clock < 0 then 0 else u.core.clock);
    w := FirstReaches(c, w, 0, Look(c, w.core, 0));
    w := AskReaches(c, w, 0, Look(c, w.core, 0), Got(0));
    w := CloseCanReturn(c, w, 0, 1);
  }

  // ---------------------------------------------------------------- what it leaves behind

  /** The request is with its submitter, a timer, the node or its goroutine. */
  predicate OutOfQueues(p: Spot) {
    || p.submitting > 0
    || p.timers > 0
    || p.flights > 0
    || (p.job.task.Listening? && p.job.inbox != [])
    || p.job.task.Evaluating?
  }

  lemma UnfinishedIsOutOfQueues(c: Config, p: Spot, r: Id)
    requires RequestSound(c, p, r) && PlacesInShard(p.shard, r) == 0
    ensures !p.job.task.Finished? <==> OutOfQueues(p)
  {
  }

  /** When `Close` has returned, the requests that are not completed are exactly those outside the queues. */
  lemma CloseLeavesOutOfQueues(c: Config, u: State, r: Id)
    requires Reachable(c, u) && CloseReturned(u.core) && r < |u.core.jobs|
    ensures Known(c, u.core, r)
    ensures !u.core.jobs[r].task.Finished? <==> OutOfQueues(Look(c, u.core, r))
  {
    RequestsAreGood(c, u, r);
    CloseDrainsEverything(c, u, u.core.jobs[r].index);
    UnfinishedIsOutOfQueues(c, Look(c, u.core, r), r);
  }
}
