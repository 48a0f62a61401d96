/** Progress: nothing ever gets stuck, and what has expired ends. */
module Progress {
  import opened Wrappers
  import opened TxnError
  import opened TxnReqResp
  import opened Protocol
  import opened Conservation
  import opened History
  import opened Runs
  import opened Shutdown

  // ---------------------------------------------------------------- rank

  /** The two statuses that end a request without a further look. */
  predicate IsLast(a: Answer) {
    a == Own(TimeOutError3) || a == Own(Exhausted)
  }

  function SorterRank(w: Sorter, r: Id): nat {
    if !SorterAbout(w, r) then 0
    else
      match w
      case Pushing(_, _) => 24
      case Wanting(_) => 5
      case Deciding(_) => 4
      case Checking(_) => 3
      case Fetching(_) => 2
      case _ => 1
  }

  function CourierRank(w: Courier, r: Id): nat {
    if !CourierAbout(w, r) then 0
    else
      match w
      case Taken(_) => 21
      case Passed(_) => 20
      case _ => 19
  }

  function TaskRank(job: Job): nat {
    match job.task
    case Listening => if job.inbox == [] then 0 else if IsLast(job.inbox[0]) then 2 else 17
    case Finished(_, _) => 0
    case Evaluating(point, v) =>
      match point
      case Locking => 16
      case Tripping => 15
      case NearCheck => 14
      case NearFetch => 13
      case EthCheck => 12
      case EthFetch => 11
      case Comparing => 10
      case Unlocking => 9
      case Clearing => 8
      case Concluding => if v.retry then 7 else 1
  }

  /** A bound on the number of steps that an expired request still has before it. */
  function Rank(p: Spot, r: Id): nat {
    7 * p.submitting + 6 * multiset(p.shard.unordered)[r] + SorterRank(p.shard.sorter, r) + 7 * p.timers
    + 22 * multiset(p.shard.ordered)[r] + CourierRank(p.shard.courier, r) + 18 * p.flights + TaskRank(p.job)
  }

  const MAX_RANK := 25

  lemma RankIsBounded(c: Config, p: Spot, r: Id)
    requires RequestSound(c, p, r)
    ensures Rank(p, r) <= MAX_RANK
  {
  }

  lemma TakeLowersRank(p: Spot, r: Id)
    requires CanSort(p, r, Take)
    ensures Rank(AfterSort(p, r, Take), r) < Rank(p, r)
  {
    PopSplits(p.shard.unordered);
  }

  lemma PushLowersRank(p: Spot, r: Id)
    requires CanSort(p, r, Push)
    ensures Rank(AfterSort(p, r, Push), r) < Rank(p, r)
  {
  }

  lemma SortLowersRank(c: Config, p: Spot, r: Id, op: SortOp)
    requires CanSort(p, r, op) && RequestSound(c, p, r) && Expired(p.job, p.now)
    ensures Rank(AfterSort(p, r, op), r) < Rank(p, r)
  {
    match op
    case Take => TakeLowersRank(p, r);
    case Push => PushLowersRank(p, r);
    case _ =>
      var p' := AfterSort(p, r, op);
      assert p'.shard.unordered == p.shard.unordered && p'.shard.ordered == p.shard.ordered;
  }

  lemma SendLowersRank(c: Config, p: Spot, r: Id, op: SendOp)
    requires CanSend(p, r, op) && RequestSound(c, p, r) && Expired(p.job, p.now)
    ensures Rank(AfterSend(p, r, op), r) < Rank(p, r)
  {
    if op.Pop? {
      PopSplits(p.shard.ordered);
    }
  }

  lemma EvalLowersTaskRank(c: Config, p: Spot, r: Id, op: EvalOp)
    requires ValidConfig(c) && CanEval(c, p, op) && RequestSound(c, p, r) && !op.Conclude?
    ensures TaskRank(AfterEval(c, p, r, op).job) < TaskRank(p.job)
  {
  }

  lemma EvalLowersRank(c: Config, p: Spot, r: Id, op: EvalOp)
    requires ValidConfig(c) && CanEval(c, p, op) && RequestSound(c, p, r)
    ensures Rank(AfterEval(c, p, r, op), r) < Rank(p, r)
  {
    if !op.Conclude? {
      EvalLowersTaskRank(c, p, r, op);
      var p' := AfterEval(c, p, r, op);
      assert p'.shard == p.shard.(lock := p'.shard.lock, breaker := p'.shard.breaker);
    }
  }

  /** Every step of an expired request brings it nearer to its end, whatever the node answers. */
  lemma ActLowersRank(c: Config, p: Spot, r: Id, op: Op)
    requires ValidConfig(c) && CanAct(c, p, r, op) && RequestSound(c, p, r) && Expired(p.job, p.now)
    ensures Rank(AfterAct(c, p, r, op), r) < Rank(p, r)
  {
    match op
    case Sort(o) => SortLowersRank(c, p, r, o);
    case Send(o) => SendLowersRank(c, p, r, o);
    case Eval(o) => EvalLowersRank(c, p, r, o);
    case _ =>
  }

  lemma SparedKeepsRank(p: Spot, p': Spot, q: Id)
    requires Spares(p.shard, p'.shard, q)
    requires p' == p.(shard := p'.shard, eth := p'.eth, near := p'.near, now := p'.now, open := p'.open)
    ensures Rank(p', q) == Rank(p, q)
  {
  }

  /** What a step does to the rank of any request. */
  lemma StepAndRank(c: Config, s: Core, a: Step, q: Id)
    requires Sound(c, s) && Enabled(c, s, a) && q < |s.jobs|
    ensures var t := Next(c, s, a);
            && Known(c, s, q) && Known(c, t, q) && SameIdentity(s.jobs[q], t.jobs[q])
            && (!(a.Act? && a.r == q) ==> Rank(Look(c, t, q), q) == Rank(Look(c, s, q), q))
            && (a.Act? && a.r == q && Expired(s.jobs[q], s.clock) ==> Rank(Look(c, t, q), q) < Rank(Look(c, s, q), q))
  {
    if a.Act? {
      var p := Look(c, s, a.r);
      var p' := AfterAct(c, p, a.r, a.op);
      assert RequestSound(c, p, a.r);
      ActContinues(c, p, a.r, a.op);
      PutAndRank(c, s, a.r, p', q, a.op);
    } else {
      QuietAndRank(c, s, a, q);
    }
  }

  lemma PutAndRank(c: Config, s: Core, r: Id, p': Spot, q: Id, op: Op)
    requires Sound(c, s) && Known(c, s, r) && q < |s.jobs| && CanAct(c, Look(c, s, r), r, op)
    requires p' == AfterAct(c, Look(c, s, r), r, op) && Continues(Look(c, s, r), p')
    ensures var t := Put(c, s, r, p');
            && Known(c, t, q) && SameIdentity(s.jobs[q], t.jobs[q])
            && (r != q ==> Rank(Look(c, t, q), q) == Rank(Look(c, s, q), q))
            && (r == q && Expired(s.jobs[q], s.clock) ==> Rank(Look(c, t, q), q) < Rank(Look(c, s, q), q))
  {
    assert RequestSound(c, Look(c, s, r), r);
    if r == q {
      PutLookOwn(c, s, r, p');
      if Expired(s.jobs[q], s.clock) {
        ActLowersRank(c, Look(c, s, r), r, op);
      }
    } else {
      PutLookOther(c, s, r, p', q);
      ActSpares(c, Look(c, s, r), r, op, q);
      SparedKeepsRank(Look(c, s, q), Look(c, Put(c, s, r, p'), q), q);
    }
  }

  lemma QuietAndRank(c: Config, s: Core, a: Step, q: Id)
    requires Sound(c, s) && Enabled(c, s, a) && q < |s.jobs| && !a.Act?
    ensures var t := Next(c, s, a);
            && Known(c, t, q) && t.jobs[q] == s.jobs[q]
            && Rank(Look(c, t, q), q) == Rank(Look(c, s, q), q)
  {
    SparedKeepsRank(Look(c, s, q), Look(c, Next(c, s, a), q), q);
  }

  // ---------------------------------------------------------------- one expired request

  predicate IsOwn(a: Step, r: Id) {
    a.Act? && a.r == r
  }

  /** How many of the first k steps are steps of r. */
  function OwnSteps(steps: seq<Step>, r: Id, k: nat): nat
    requires k <= |steps|
  {
    if k == 0 then 0 else OwnSteps(steps, r, k - 1) + if IsOwn(steps[k - 1], r) then 1 else 0
  }

  /** From s to t, request r has got older and made k steps that its rank accounts for. */
  ghost predicate Ages(c: Config, s: Core, t: Core, r: Id, k: nat) {
    && Known(c, s, r)
    && Known(c, t, r)
    && SameIdentity(s.jobs[r], t.jobs[r])
    && s.clock <= t.clock
    && k + Rank(Look(c, t, r), r) <= Rank(Look(c, s, r), r)
  }

  lemma ClockNeverGoesBack(c: Config, s: Core, a: Step)
    requires Enabled(c, s, a)
    ensures s.clock <= Next(c, s, a).clock
  {
    if a.Act? {
      ActContinues(c, Look(c, s, a.r), a.r, a.op);
    }
  }

  lemma StepAges(c: Config, s: Core, a: Step, r: Id)
    requires Sound(c, s) && Enabled(c, s, a) && r < |s.jobs| && Expired(s.jobs[r], s.clock)
    ensures Ages(c, s, Next(c, s, a), r, if IsOwn(a, r) then 1 else 0)
  {
    StepAndRank(c, s, a, r);
    ClockNeverGoesBack(c, s, a);
  }

  lemma AgesOn(c: Config, s: Core, t: Core, v: Core, r: Id, k: nat, m: nat)
    requires Ages(c, s, t, r, k) && Ages(c, t, v, r, m)
    ensures Ages(c, s, v, r, k + m)
  {
  }

  lemma {:induction false} StretchAges(c: Config, states: seq<State>, steps: seq<Step>, r: Id, k: nat)
    requires IsStretch(c, states, steps) && Invariant(c, states[0]) && k <= |steps|
    requires r < |states[0].core.jobs| && Expired(states[0].core.jobs[r], states[0].core.clock)
    ensures Ages(c, states[0].core, states[k].core, r, OwnSteps(steps, r, k))
  {
    if k == 0 {
      assert RequestSound(c, Look(c, states[0].core, r), r);
    } else {
      StretchAges(c, states, steps, r, k - 1);
      StretchKeepsInvariant(c, states, steps, k - 1);
      StateAges(c, states[k - 1], steps[k - 1], r);
      AgesOn(c, states[0].core, states[k - 1].core, states[k].core, r, OwnSteps(steps, r, k - 1),
             if IsOwn(steps[k - 1], r) then 1 else 0);
    }
  }

  lemma StateAges(c: Config, u: State, a: Step, r: Id)
    requires Good(c, u) && CanStep(c, u, a) && r < |u.core.jobs| && Expired(u.core.jobs[r], u.core.clock)
    ensures Ages(c, u.core, After(c, u, a).core, r, if IsOwn(a, r) then 1 else 0)
  {
    StepAges(c, u.core, a, r);
  }

  /** A request that has no step before it is finished. */
  lemma RankZeroIsFinished(c: Config, p: Spot, r: Id)
    requires RequestSound(c, p, r) && Rank(p, r) == 0
    ensures p.job.task.Finished?
  {
  }

  /** Once a request has expired it takes at most 25 more steps of its own, over any run and whatever the node answers;
      forced retries cannot keep it alive. As long as it is not finished, not even 25, so after 25 it is. */
  lemma {:induction false} ExpiredRequestEnds(c: Config, states: seq<State>, steps: seq<Step>, r: Id)
    requires IsStretch(c, states, steps) && Reachable(c, states[0])
    requires r < |states[0].core.jobs| && Expired(states[0].core.jobs[r], states[0].core.clock)
    ensures r < |states[|steps|].core.jobs|
    ensures OwnSteps(steps, r, |steps|) + (if states[|steps|].core.jobs[r].task.Finished? then 0 else 1) <= MAX_RANK
  {
    ReachableHasInvariant(c, states[0]);
    StretchAges(c, states, steps, r, |steps|);
    RankIsBoundedIn(c, states[0], r);
    StretchKeepsInvariant(c, states, steps, |steps|);
    RankIsBoundedIn(c, states[|steps|], r);
  }

  lemma RankIsBoundedIn(c: Config, u: State, r: Id)
    requires Invariant(c, u) && r < |u.core.jobs|
    ensures Known(c, u.core, r)
    ensures (if u.core.jobs[r].task.Finished? then 0 else 1) <= Rank(Look(c, u.core, r), r) <= MAX_RANK
  {
    var p := Look(c, u.core, r);
    assert RequestSound(c, p, r);
    RankIsBounded(c, p, r);
    if Rank(p, r) == 0 {
      RankZeroIsFinished(c, p, r);
    }
  }

  // ---------------------------------------------------------------- something can always move

  /** The step of the `send` worker of shard i for the request that is next. */
  lemma CourierCanMove(c: Config, u: State, i: nat) returns (r: Id, op: SendOp)
    requires Invariant(c, u) && i < |u.core.shards| && !u.core.shards[i].courier.Exited?
    requires u.core.shards[i].ordered != [] || !u.core.shards[i].courier.Waiting?
    ensures Enabled(c, u.core, Act(r, Send(op))) && u.core.jobs[r].index == i
  {
    var h := u.core.shards[i];
    r := if h.courier.Waiting? then h.ordered[0] else h.courier.id;
    assert Concerns(h, r);
    assert RequestSound(c, Look(c, u.core, r), r);
    op := match h.courier case Waiting => Pop case Taken(_) => TestBreaker case Passed(_) => Go case _ => Ask(Failed);
  }

  /** The steps of `eval` from after taking the lock to releasing it. */
  predicate UnderLock(op: EvalOp) {
    !op.Receive? && !op.TakeLock? && !op.Clear? && !op.Conclude?
  }

  /** The next step of `eval`, once it has taken the lock or does not need it, unless that is a push onto a closed
      queue. */
  lemma EvalCanMove(c: Config, u: State, r: Id) returns (op: EvalOp)
    requires Invariant(c, u) && r < |u.core.jobs|
    requires u.core.jobs[r].task.Evaluating? && !u.core.jobs[r].task.point.Locking?
    requires At(u.core.jobs[r], Concluding) && u.core.jobs[r].task.verdict.retry ==>
               UnorderedOpen(u.core, u.core.jobs[r].index)
    ensures Enabled(c, u.core, Act(r, Eval(op)))
    ensures HoldsLock(u.core.jobs[r].task) ==> UnderLock(op)
  {
    assert RequestSound(c, Look(c, u.core, r), r);
    assert RequestGoodIn(c, u, r);
    op := match u.core.jobs[r].task.point
      case Tripping => Trip
      case NearCheck => TestNear
      case NearFetch => FetchNear(Failed)
      case EthCheck => TestEth
      case EthFetch => FetchEth(Failed)
      case Comparing => Compare
      case Unlocking => ReleaseLock
      case Clearing => Clear
      case _ => Conclude;
  }

  /** A step of a worker, or of an `eval` that holds the lock: none that pushes onto an unordered queue. */
  predicate IsWorkerStep(op: Op) {
    op.Sort? || op.Send? || (op.Eval? && UnderLock(op.evalOp))
  }

  /** `sort`, once it holds the lock, can move or waits for the `send` worker, which can. */
  lemma LockedSorterCanMove(c: Config, u: State, i: nat) returns (r: Id, op: Op)
    requires Invariant(c, u) && i < |u.core.shards| && SorterHoldsLock(u.core.shards[i].sorter)
    ensures Enabled(c, u.core, Act(r, op)) && u.core.jobs[r].index == i && IsWorkerStep(op)
  {
    var h := u.core.shards[i];
    r := h.sorter.id;
    assert ShardClosing(u.core, i);
    assert Concerns(h, r);
    assert RequestSound(c, Look(c, u.core, r), r);
    match h.sorter {
      case Deciding(_) => op := Op.Sort(Decide);
      case Pushing(_, _) =>
        op := Op.Sort(Push);
        if !HasRoom(h.ordered) {
          var sendOp;
          r, sendOp := CourierCanMove(c, u, i);
          op := Op.Send(sendOp);
        }
      case Checking(_) => op := Op.Sort(Check);
      case Fetching(_) => op := Op.Sort(SortOp.Fetch(Failed));
      case _ => op := Op.Sort(Unlock);
    }
  }

  /** Whoever holds the lock of a shard can move. */
  lemma LockHolderCanMove(c: Config, u: State, i: nat) returns (r: Id, op: Op)
    requires Invariant(c, u) && i < |u.core.shards| && u.core.shards[i].lock != Free
    ensures Enabled(c, u.core, Act(r, op)) && u.core.jobs[r].index == i && IsWorkerStep(op)
  {
    var h := u.core.shards[i];
    if h.lock.BySorter? {
      r, op := LockedSorterCanMove(c, u, i);
    } else {
      r := h.lock.id;
      assert Concerns(h, r);
      assert RequestSound(c, Look(c, u.core, r), r);
      var evalOp := EvalCanMove(c, u, r);
      op := Op.Eval(evalOp);
    }
  }

  /** A `sort` worker that has something to do can do it, or whoever it waits for can. */
  lemma SorterCanMove(c: Config, u: State, i: nat) returns (r: Id, op: Op)
    requires Invariant(c, u) && i < |u.core.shards| && !u.core.shards[i].sorter.Gone?
    requires u.core.shards[i].unordered != [] || !u.core.shards[i].sorter.Resting?
    ensures Enabled(c, u.core, Act(r, op)) && u.core.jobs[r].index == i && IsWorkerStep(op)
  {
    var h := u.core.shards[i];
    if h.sorter.Resting? {
      r, op := h.unordered[0], Op.Sort(Take);
      assert Concerns(h, r);
    } else if h.sorter.Wanting? && h.lock == Free {
      r, op := h.sorter.id, Op.Sort(Lock);
      assert Concerns(h, r);
    } else if h.sorter.Wanting? {
      r, op := LockHolderCanMove(c, u, i);
    } else {
      r, op := LockedSorterCanMove(c, u, i);
    }
  }

  /** The one thing that stops a request: after the shutdown has begun, a push of its submitter, its timer or its retry
      onto the closed unordered queue, where the program panics. */
  predicate PushesOntoClosed(p: Spot) {
    !p.open && (p.submitting > 0 || p.timers > 0 || (At(p.job, Concluding) && p.job.task.verdict.retry))
  }

  /** As long as a request is unfinished, some step of its own shard is possible. */
  lemma RequestCanMove(c: Config, u: State, r: Id) returns (q: Id, op: Op)
    requires Invariant(c, u) && Known(c, u.core, r)
    requires !u.core.jobs[r].task.Finished? && !PushesOntoClosed(Look(c, u.core, r))
    ensures Enabled(c, u.core, Act(q, op)) && u.core.jobs[q].index == u.core.jobs[r].index
  {
    var p := Look(c, u.core, r);
    var i := p.job.index;
    assert RequestSound(c, p, r);
    assert ShardClosing(u.core, i);
    q := r;
    if !p.shard.sorter.Gone? && (p.shard.unordered != [] || !p.shard.sorter.Resting?) {
      q, op := SorterCanMove(c, u, i);
    } else if !p.shard.courier.Exited? && (p.shard.ordered != [] || !p.shard.courier.Waiting?) {
      var sendOp;
      q, sendOp := CourierCanMove(c, u, i);
      op := Op.Send(sendOp);
    } else if p.submitting > 0 {
      op := Enqueue;
    } else if p.timers > 0 {
      op := Fire;
    } else if p.flights > 0 {
      op := Arrive(TxnFailure.Null, Some(""));
    } else if p.job.task.Listening? {
      op := Op.Eval(Receive);
    } else if !p.job.task.point.Locking? {
      var evalOp := EvalCanMove(c, u, r);
      op := Op.Eval(evalOp);
    } else if p.shard.lock == Free {
      op := Op.Eval(TakeLock);
    } else {
      q, op := LockHolderCanMove(c, u, i);
    }
  }

  /** Deadlock freedom: in every reachable state an unfinished request means that some step of its shard is possible,
      unless it is about to push onto a closed queue; and that step needs neither time to pass nor a new request. */
  lemma NoDeadlock(c: Config, u: State, r: Id) returns (q: Id, op: Op)
    requires Reachable(c, u) && Known(c, u.core, r)
    requires !u.core.jobs[r].task.Finished? && !PushesOntoClosed(Look(c, u.core, r))
    ensures Enabled(c, u.core, Act(q, op)) && u.core.jobs[q].index == u.core.jobs[r].index
  {
    ReachableHasInvariant(c, u);
    q, op := RequestCanMove(c, u, r);
  }

  /** `sort` may hold the lock while it waits for room in the ordered queue; then the `send` worker, which takes no lock
      and never waits for an answer, can always move. It makes room with its next step or is nearer to that afterwards;
      from the moment it has taken a request it needs at most four steps. */
  lemma BlockedSortIsReleased(c: Config, u: State, i: nat) returns (r: Id, op: SendOp)
    requires Reachable(c, u) && i < |u.core.shards|
    requires u.core.shards[i].sorter.Pushing? && !HasRoom(u.core.shards[i].ordered)
    ensures Enabled(c, u.core, Act(r, Send(op))) && u.core.jobs[r].index == i
    ensures var h, h' := u.core.shards[i], Next(c, u.core, Act(r, Send(op))).shards[i];
            || HasRoom(h'.ordered)
            || (h'.ordered == h.ordered && Distance(h'.courier) < Distance(h.courier))
    ensures Distance(u.core.shards[i].courier) <= 3
  {
    ReachableHasInvariant(c, u);
    assert ShardClosing(u.core, i);
    r, op := CourierCanMove(c, u, i);
    var p := Look(c, u.core, r);
    var p' := AfterSend(p, r, op);
    assert Next(c, u.core, Act(r, Send(op))) == Put(c, u.core, r, p');
    SendMakesRoom(p, r, op);
  }

  lemma SendMakesRoom(p: Spot, r: Id, op: SendOp)
    requires CanSend(p, r, op) && |p.shard.ordered| <= QUEUE_CAPACITY
    ensures var h, h' := p.shard, AfterSend(p, r, op).shard;
            HasRoom(h'.ordered) || (h'.ordered == h.ordered && Distance(h'.courier) < Distance(h.courier))
  {
  }

  /** Steps of the `send` worker before the one that takes the next request. */
  function Distance(w: Courier): nat {
    match w
    case Waiting => 0
    case Asking(_) => 1
    case Passed(_) => 2
    case Taken(_) => 3
    case Exited => 0
  }

  // ---------------------------------------------------------------- all requests together

  ghost predicate AllKnown(c: Config, s: Core) {
    forall r: Id :: r < |s.jobs| ==> Known(c, s, r)
  }

  lemma SoundKnowsAll(c: Config, s: Core)
    requires Sound(c, s)
    ensures AllKnown(c, s)
  {
    forall r: Id | r < |s.jobs|
      ensures Known(c, s, r)
    {
      assert RequestSound(c, Look(c, s, r), r);
    }
  }

  ghost function TotalRank(c: Config, s: Core, n: nat): nat
    requires AllKnown(c, s) && n <= |s.jobs|
  {
    if n == 0 then 0 else TotalRank(c, s, n - 1) + Rank(Look(c, s, n - 1), n - 1)
  }

  ghost predicate RankFits(c: Config, s: Core, r: Id)
    requires Known(c, s, r)
  {
    Rank(Look(c, s, r), r) <= MAX_RANK
  }

  lemma SoundRankFits(c: Config, s: Core, r: Id)
    requires Sound(c, s) && r < |s.jobs|
    ensures Known(c, s, r) && RankFits(c, s, r)
  {
    assert RequestSound(c, Look(c, s, r), r);
    RankIsBounded(c, Look(c, s, r), r);
  }

  lemma {:induction false} TotalOfFittingRanks(c: Config, s: Core, n: nat)
    requires AllKnown(c, s) && n <= |s.jobs|
    requires forall r: Id :: r < n ==> RankFits(c, s, r)
    ensures TotalRank(c, s, n) <= MAX_RANK * n
  {
    if n > 0 {
      TotalOfFittingRanks(c, s, n - 1);
      assert RankFits(c, s, n - 1);
    }
  }

  lemma TotalRankIsBounded(c: Config, s: Core)
    requires Sound(c, s) && AllKnown(c, s)
    ensures TotalRank(c, s, |s.jobs|) <= MAX_RANK * |s.jobs|
  {
    forall r: Id | r < |s.jobs|
      ensures RankFits(c, s, r)
    {
      SoundRankFits(c, s, r);
    }
    TotalOfFittingRanks(c, s, |s.jobs|);
  }

  ghost predicate AllExpired(s: Core) {
    forall r: Id {:trigger s.jobs[r]} :: r < |s.jobs| ==> Expired(s.jobs[r], s.clock)
  }

  /** The rank of q does not rise, and falls if the step is its own. */
  ghost predicate RankFalls(c: Config, s: Core, t: Core, a: Step, q: Id)
    requires Known(c, s, q) && Known(c, t, q)
  {
    Rank(Look(c, t, q), q) + (if IsOwn(a, q) then 1 else 0) <= Rank(Look(c, s, q), q)
  }

  lemma {:induction false} TotalFalls(c: Config, s: Core, t: Core, a: Step, n: nat)
    requires AllKnown(c, s) && AllKnown(c, t) && n <= |s.jobs| && n <= |t.jobs|
    requires forall q: Id :: q < n ==> RankFalls(c, s, t, a, q)
    ensures TotalRank(c, t, n) + (if a.Act? && a.r < n then 1 else 0) <= TotalRank(c, s, n)
  {
    if n > 0 {
      TotalFalls(c, s, t, a, n - 1);
      assert RankFalls(c, s, t, a, n - 1);
    }
  }

  /** From s to t nothing was submitted, everything stays expired, and k steps are accounted for by the total rank. */
  ghost predicate Drains(c: Config, s: Core, t: Core, k: nat) {
    && AllKnown(c, s) && AllKnown(c, t)
    && |t.jobs| == |s.jobs|
    && AllExpired(t)
    && k + TotalRank(c, t, |t.jobs|) <= TotalRank(c, s, |s.jobs|)
  }

  lemma StepDrains(c: Config, s: Core, a: Step)
    requires Sound(c, s) && Enabled(c, s, a) && AllExpired(s) && !a.Submit?
    ensures Drains(c, s, Next(c, s, a), if a.Act? then 1 else 0)
  {
    var t := Next(c, s, a);
    StepKeepsSound(c, s, a);
    SoundKnowsAll(c, s);
    SoundKnowsAll(c, t);
    assert |t.jobs| == |s.jobs|;
    forall q: Id | q < |s.jobs|
      ensures RankFalls(c, s, t, a, q)
    {
      assert Expired(s.jobs[q], s.clock);
      StepAndRank(c, s, a, q);
    }
    TotalFalls(c, s, t, a, |s.jobs|);
    ClockNeverGoesBack(c, s, a);
    forall r: Id {:trigger t.jobs[r]} | r < |t.jobs|
      ensures Expired(t.jobs[r], t.clock)
    {
      assert Expired(s.jobs[r], s.clock);
      StepAndRank(c, s, a, r);
    }
  }

  lemma DrainsOn(c: Config, s: Core, t: Core, v: Core, k: nat, m: nat)
    requires Drains(c, s, t, k) && Drains(c, t, v, m)
    ensures Drains(c, s, v, k + m)
  {
  }

  /** How many of the first k steps concern a request; the others only let time pass or shut down. */
  function ActSteps(steps: seq<Step>, k: nat): nat
    requires k <= |steps|
  {
    if k == 0 then 0 else ActSteps(steps, k - 1) + if steps[k - 1].Act? then 1 else 0
  }

  lemma {:induction false} StretchDrains(c: Config, states: seq<State>, steps: seq<Step>, k: nat)
    requires IsStretch(c, states, steps) && Invariant(c, states[0]) && AllExpired(states[0].core) && k <= |steps|
    requires forall j :: 0 <= j < |steps| ==> !steps[j].Submit?
    ensures Drains(c, states[0].core, states[k].core, ActSteps(steps, k))
  {
    if k == 0 {
      SoundKnowsAll(c, states[0].core);
    } else {
      StretchDrains(c, states, steps, k - 1);
      StretchKeepsInvariant(c, states, steps, k - 1);
      StepDrains(c, states[k - 1].core, steps[k - 1]);
      DrainsOn(c, states[0].core, states[k - 1].core, states[k].core, ActSteps(steps, k - 1),
               if steps[k - 1].Act? then 1 else 0);
    }
  }

  /** No step of a request is possible. */
  ghost predicate Stuck(c: Config, s: Core) {
    forall q, op :: !Enabled(c, s, Act(q, op))
  }

  /** Every request is finished or about to push onto a closed queue. */
  ghost predicate AllEnded(c: Config, s: Core) {
    forall r: Id {:trigger s.jobs[r]} :: r < |s.jobs| ==>
      Known(c, s, r) && (s.jobs[r].task.Finished? || PushesOntoClosed(Look(c, s, r)))
  }

  lemma InvariantStuckMeansEnded(c: Config, u: State)
    requires Invariant(c, u) && Stuck(c, u.core)
    ensures AllEnded(c, u.core)
  {
    SoundKnowsAll(c, u.core);
    forall r: Id {:trigger u.core.jobs[r]} | r < |u.core.jobs|
      ensures u.core.jobs[r].task.Finished? || PushesOntoClosed(Look(c, u.core, r))
    {
      if !u.core.jobs[r].task.Finished? && !PushesOntoClosed(Look(c, u.core, r)) {
        var q, op := RequestCanMove(c, u, r);
      }
    }
  }

  /** Where no step of a request is left, every request has ended. */
  lemma StuckMeansFinished(c: Config, u: State)
    requires Reachable(c, u) && Stuck(c, u.core)
    ensures AllEnded(c, u.core)
    ensures u.core.closing == 0 ==>
              forall r {:trigger u.core.jobs[r]} :: 0 <= r < |u.core.jobs| ==> u.core.jobs[r].task.Finished?
  {
    ReachableHasInvariant(c, u);
    InvariantStuckMeansEnded(c, u);
  }

  /** When everything has expired and nothing new comes in, the system works itself empty: at most 25 steps per request,
      in any order the scheduler likes, and where no step is left every request has ended. */
  lemma {:induction false} ExpiredSystemDrains(c: Config, states: seq<State>, steps: seq<Step>)
    requires IsStretch(c, states, steps) && Reachable(c, states[0]) && AllExpired(states[0].core)
    requires forall j :: 0 <= j < |steps| ==> !steps[j].Submit?
    ensures ActSteps(steps, |steps|) <= MAX_RANK * |states[0].core.jobs|
    ensures Stuck(c, states[|steps|].core) ==> AllEnded(c, states[|steps|].core)
  {
    ReachableHasInvariant(c, states[0]);
    StretchDrains(c, states, steps, |steps|);
    TotalRankIsBounded(c, states[0].core);
    StretchKeepsInvariant(c, states, steps, |steps|);
    if Stuck(c, states[|steps|].core) {
      InvariantStuckMeansEnded(c, states[|steps|]);
    }
  }
}
