/** Conservation and discipline: every submitted request is in exactly one place, always within the shard of its sender,
    so no step loses or copies it and nobody ever waits for room on a response channel; and the locks are held by whom
    they say. */
module Conservation {
  import opened TxnReqResp
  import opened Protocol

  // ---------------------------------------------------------------- places

  function HeldBySorter(w: Sorter, r: Id): nat {
    if (w.Wanting? || w.Deciding? || w.Pushing?) && w.id == r then 1 else 0
  }

  function HeldByCourier(w: Courier, r: Id): nat {
    if (w.Taken? || w.Passed? || w.Asking?) && w.id == r then 1 else 0
  }

  /** While its goroutine listens, a request is where its answer is or still on the way there; afterwards it is with the
      goroutine. */
  function HeldByTask(job: Job): nat {
    if job.task.Listening? then |job.inbox| else 1
  }

  function PlacesInShard(h: Shard, r: Id): nat {
    multiset(h.unordered)[r] + HeldBySorter(h.sorter, r) + multiset(h.ordered)[r] + HeldByCourier(h.courier, r)
  }

  /** How many times a request is present: with its submitter, in a queue, with a worker, with a timer, on its way to
      the node, as an answer, or in `eval` or beyond. */
  function Places(p: Spot, r: Id): nat {
    p.submitting + PlacesInShard(p.shard, r) + p.timers + p.flights + HeldByTask(p.job)
  }

  // ---------------------------------------------------------------- invariant

  predicate HoldsLock(task: Task) {
    task.Evaluating? && !task.point.Locking? && !task.point.Clearing? && !task.point.Concluding?
  }

  predicate SorterHoldsLock(w: Sorter) {
    w.Deciding? || w.Pushing? || w.Checking? || w.Fetching? || w.Leaving?
  }

  predicate MadeUp(task: Task) {
    (task.Evaluating? || task.Finished?) && task.verdict.synthetic
  }

  predicate GoodAnswer(c: Config, a: Answer) {
    match a
    case Own(status) => IsOwnStatus(status)
    case Node(_, _) => !c.judge(a).Panics?
  }

  /** What holds of a request wherever it is. The extra answer of a made-up success is the only one that is ever on a
      channel nobody listens to. */
  ghost predicate RequestSound(c: Config, p: Spot, r: Id) {
    && Places(p, r) == 1
    && (p.job.task.Listening? ==> p.job.inbox != [] ==> GoodAnswer(c, p.job.inbox[0]))
    && (!p.job.task.Listening? ==> |p.job.inbox| == if MadeUp(p.job.task) then 1 else 0)
    && (p.job.task.Evaluating? && MadeUp(p.job.task) ==>
          && !p.job.task.verdict.retry
          && (p.job.task.point.Unlocking? || p.job.task.point.Clearing? || p.job.task.point.Concluding?))
    && (HoldsLock(p.job.task) <==> p.shard.lock == ByTask(r))
    && (p.shard.lock == BySorter <==> SorterHoldsLock(p.shard.sorter))
    && p.job.nonce < WORD - 1
  }

  /** Whom a shard has to do with. */
  predicate Concerns(h: Shard, r: Id) {
    || PlacesInShard(h, r) > 0
    || SorterAbout(h.sorter, r)
    || h.lock == ByTask(r)
  }

  ghost predicate Sound(c: Config, s: Core) {
    && ValidConfig(c)
    && |s.shards| == |c.keys|
    && (forall r {:trigger s.jobs[r]} :: 0 <= r < |s.jobs| ==>
          s.jobs[r].index == c.shardOf(s.jobs[r].sender) && RequestSound(c, Look(c, s, r), r))
    && (forall i: nat, r: Id {:trigger Concerns(s.shards[i], r)} :: i < |s.shards| && Concerns(s.shards[i], r) ==>
          r < |s.jobs| && s.jobs[r].index == i)
    && (forall r: Id {:trigger s.submitting[r]} {:trigger s.timers[r]} {:trigger s.flights[r]} ::
          r >= |s.jobs| ==> s.submitting[r] == s.timers[r] == s.flights[r] == 0)
    && (forall i {:trigger s.shards[i]} :: 0 <= i < |s.shards| ==>
          (s.shards[i].lock == BySorter <==> SorterHoldsLock(s.shards[i].sorter)))
  }

  // ---------------------------------------------------------------- one step, one request

  lemma PopSplits(q: seq<Id>)
    requires q != []
    ensures multiset(q) == multiset{q[0]} + multiset(q[1..])
  {
    assert q == [q[0]] + q[1..];
  }

  predicate SameIdentity(a: Job, b: Job) {
    a.index == b.index && a.sender == b.sender && a.nonce == b.nonce && a.timestamp == b.timestamp
  }

  predicate SorterAbout(w: Sorter, r: Id) {
    !w.Resting? && !w.Gone? && w.id == r
  }

  predicate CourierAbout(w: Courier, r: Id) {
    !w.Waiting? && !w.Exited? && w.id == r
  }

  /** A step of another request leaves q where it is in the shard. */
  predicate Spares(h: Shard, h': Shard, q: Id) {
    && multiset(h'.unordered)[q] == multiset(h.unordered)[q]
    && multiset(h'.ordered)[q] == multiset(h.ordered)[q]
    && (SorterAbout(h.sorter, q) || SorterAbout(h'.sorter, q) ==> h'.sorter == h.sorter)
    && (CourierAbout(h.courier, q) || CourierAbout(h'.courier, q) ==> h'.courier == h.courier)
    && (h'.lock == ByTask(q) <==> h.lock == ByTask(q))
  }

  lemma SortSpares(c: Config, p: Spot, r: Id, op: SortOp, q: Id)
    requires CanSort(p, r, op) && RequestSound(c, p, r) && q != r
    ensures Spares(p.shard, AfterSort(p, r, op).shard, q)
  {
    if op.Take? {
      PopSplits(p.shard.unordered);
    }
  }

  lemma SendSpares(p: Spot, r: Id, op: SendOp, q: Id)
    requires CanSend(p, r, op) && q != r
    ensures Spares(p.shard, AfterSend(p, r, op).shard, q)
  {
    if op.Pop? {
      PopSplits(p.shard.ordered);
    }
  }

  lemma EvalSpares(c: Config, p: Spot, r: Id, op: EvalOp, q: Id)
    requires CanEval(c, p, op) && RequestSound(c, p, r) && q != r
    ensures Spares(p.shard, AfterEval(c, p, r, op).shard, q)
  {
  }

  lemma ActSpares(c: Config, p: Spot, r: Id, op: Op, q: Id)
    requires CanAct(c, p, r, op) && RequestSound(c, p, r) && q != r
    ensures Spares(p.shard, AfterAct(c, p, r, op).shard, q)
  {
    match op
    case Sort(o) => SortSpares(c, p, r, o, q);
    case Send(o) => SendSpares(p, r, o, q);
    case Eval(o) => EvalSpares(c, p, r, o, q);
    case _ =>
  }

  lemma SortKeepsRequest(c: Config, p: Spot, r: Id, op: SortOp)
    requires ValidConfig(c) && CanSort(p, r, op) && RequestSound(c, p, r)
    ensures RequestSound(c, AfterSort(p, r, op), r)
  {
    if op.Take? {
      PopSplits(p.shard.unordered);
    }
  }

  lemma SendKeepsRequest(c: Config, p: Spot, r: Id, op: SendOp)
    requires ValidConfig(c) && CanSend(p, r, op) && RequestSound(c, p, r)
    ensures RequestSound(c, AfterSend(p, r, op), r)
  {
    if op.Pop? {
      PopSplits(p.shard.ordered);
    }
  }

  lemma ReceiveKeepsRequest(c: Config, p: Spot, r: Id)
    requires ValidConfig(c) && CanEval(c, p, Receive) && RequestSound(c, p, r)
    ensures RequestSound(c, AfterReceive(c, p), r)
  {
  }

  lemma ConcludeKeepsRequest(c: Config, p: Spot, r: Id)
    requires CanEval(c, p, Conclude) && RequestSound(c, p, r)
    ensures RequestSound(c, AfterConclude(p, r), r)
  {
  }

  lemma EvalKeepsRequest(c: Config, p: Spot, r: Id, op: EvalOp)
    requires ValidConfig(c) && CanEval(c, p, op) && RequestSound(c, p, r)
    ensures RequestSound(c, AfterEval(c, p, r, op), r)
  {
    match op
    case Receive => ReceiveKeepsRequest(c, p, r);
    case Conclude => ConcludeKeepsRequest(c, p, r);
    case _ =>
      var h := AfterEval(c, p, r, op).shard;
      assert h == p.shard.(lock := h.lock, breaker := h.breaker);
  }

  lemma ActKeepsRequest(c: Config, p: Spot, r: Id, op: Op)
    requires ValidConfig(c) && CanAct(c, p, r, op) && RequestSound(c, p, r)
    ensures RequestSound(c, AfterAct(c, p, r, op), r)
  {
    match op
    case Sort(o) => SortKeepsRequest(c, p, r, o);
    case Send(o) => SendKeepsRequest(c, p, r, o);
    case Eval(o) => EvalKeepsRequest(c, p, r, o);
    case _ =>
  }

  /** What a step never changes; in particular the caches never forget an entry. */
  predicate Continues(p: Spot, p': Spot) {
    && SameIdentity(p.job, p'.job)
    && p'.now == p.now
    && p'.open == p.open
    && (p.eth.Some? ==> p'.eth.Some?)
    && (p.near.Some? ==> p'.near.Some?)
  }

  lemma SortContinues(p: Spot, r: Id, op: SortOp)
    requires CanSort(p, r, op)
    ensures Continues(p, AfterSort(p, r, op))
  {
  }

  lemma EvalContinues(c: Config, p: Spot, r: Id, op: EvalOp)
    requires CanEval(c, p, op)
    ensures Continues(p, AfterEval(c, p, r, op))
  {
  }

  lemma ActContinues(c: Config, p: Spot, r: Id, op: Op)
    requires CanAct(c, p, r, op)
    ensures Continues(p, AfterAct(c, p, r, op))
  {
    match op
    case Sort(o) => SortContinues(p, r, o);
    case Eval(o) => EvalContinues(c, p, r, o);
    case _ =>
  }

  // ---------------------------------------------------------------- a step in place

  /** After a step the acting request sees exactly what the step computed. */
  lemma PutLookOwn(c: Config, s: Core, r: Id, p: Spot)
    requires Known(c, s, r) && Continues(Look(c, s, r), p)
    ensures Known(c, Put(c, s, r, p), r) && Look(c, Put(c, s, r, p), r) == p
  {
  }

  /** What another request sees: a changed shard if it is in the same one, and changed cache entries if they are its
      own. */
  lemma PutLookOther(c: Config, s: Core, r: Id, p: Spot, q: Id)
    requires Known(c, s, r) && Continues(Look(c, s, r), p) && Known(c, s, q) && q != r
    ensures Known(c, Put(c, s, r, p), q)
    ensures var same := s.jobs[q].index == s.jobs[r].index;
            Look(c, Put(c, s, r, p), q) == Look(c, s, q).(
              shard := if same then p.shard else s.shards[s.jobs[q].index],
              eth := if s.jobs[q].sender == s.jobs[r].sender then p.eth else Look(c, s, q).eth,
              near := if c.keys[s.jobs[q].index] == c.keys[s.jobs[r].index] then p.near else Look(c, s, q).near)
  {
  }

  lemma SparedRequestStaysSound(c: Config, p: Spot, p': Spot, q: Id)
    requires RequestSound(c, p, q) && Spares(p.shard, p'.shard, q)
    requires p' == p.(shard := p'.shard, eth := p'.eth, near := p'.near, now := p'.now, open := p'.open)
    requires p'.shard.lock == BySorter <==> SorterHoldsLock(p'.shard.sorter)
    ensures RequestSound(c, p', q)
  {
  }

  lemma SparedMeansConcernedBefore(h: Shard, h': Shard, q: Id)
    requires Spares(h, h', q) && Concerns(h', q)
    ensures Concerns(h, q)
  {
  }

  lemma PutKeepsOther(c: Config, s: Core, r: Id, p: Spot, q: Id)
    requires Sound(c, s) && Known(c, s, r) && Continues(Look(c, s, r), p) && RequestSound(c, p, r)
    requires q < |s.jobs| && q != r && Spares(s.shards[s.jobs[r].index], p.shard, q)
    ensures Known(c, Put(c, s, r, p), q) && RequestSound(c, Look(c, Put(c, s, r, p), q), q)
  {
    assert RequestSound(c, Look(c, s, q), q);
    PutLookOther(c, s, r, p, q);
    SparedRequestStaysSound(c, Look(c, s, q), Look(c, Put(c, s, r, p), q), q);
  }

  lemma PutKeepsSound(c: Config, s: Core, r: Id, p: Spot)
    requires Sound(c, s) && Known(c, s, r) && Continues(Look(c, s, r), p) && RequestSound(c, p, r)
    requires forall q: Id :: q != r ==> Spares(s.shards[s.jobs[r].index], p.shard, q)
    ensures Sound(c, Put(c, s, r, p))
  {
    var t := Put(c, s, r, p);
    PutLookOwn(c, s, r, p);
    forall q {:trigger t.jobs[q]} | 0 <= q < |t.jobs|
      ensures t.jobs[q].index == c.shardOf(t.jobs[q].sender) && RequestSound(c, Look(c, t, q), q)
    {
      if q != r {
        PutKeepsOther(c, s, r, p, q);
      }
    }
    forall j: nat, q: Id {:trigger Concerns(t.shards[j], q)} | j < |t.shards| && Concerns(t.shards[j], q)
      ensures q < |t.jobs| && t.jobs[q].index == j
    {
      if j == s.jobs[r].index && q != r {
        SparedMeansConcernedBefore(s.shards[j], p.shard, q);
      }
      assert (j == s.jobs[r].index && q == r) || Concerns(s.shards[j], q);
    }
  }

  lemma ActKeepsSound(c: Config, s: Core, r: Id, op: Op)
    requires Sound(c, s) && Enabled(c, s, Act(r, op))
    ensures Sound(c, Next(c, s, Act(r, op)))
  {
    var p := Look(c, s, r);
    var p' := AfterAct(c, p, r, op);
    assert RequestSound(c, p, r);
    ActContinues(c, p, r, op);
    ActKeepsRequest(c, p, r, op);
    forall q: Id | q != r
      ensures Spares(s.shards[s.jobs[r].index], p'.shard, q)
    {
      ActSpares(c, p, r, op, q);
    }
    PutKeepsSound(c, s, r, p');
  }

  // ---------------------------------------------------------------- all steps

  lemma SubmitKeepsSound(c: Config, s: Core, sender: Address, nonce: nat, timestamp: nat)
    requires Sound(c, s) && nonce < WORD - 1
    ensures Sound(c, AfterSubmit(c, s, sender, nonce, timestamp))
  {
    var t := AfterSubmit(c, s, sender, nonce, timestamp);
    forall q {:trigger t.jobs[q]} | 0 <= q < |t.jobs|
      ensures t.jobs[q].index == c.shardOf(t.jobs[q].sender) && RequestSound(c, Look(c, t, q), q)
    {
      if q < |s.jobs| {
        assert RequestSound(c, Look(c, s, q), q);
        assert Look(c, t, q) == Look(c, s, q);
      } else {
        assert !Concerns(s.shards[t.jobs[q].index], q);
        assert t.shards[t.jobs[q].index] == s.shards[t.jobs[q].index];
      }
    }
    forall j: nat, q: Id {:trigger Concerns(t.shards[j], q)} | j < |t.shards| && Concerns(t.shards[j], q)
      ensures q < |t.jobs| && t.jobs[q].index == j
    {
      assert Concerns(s.shards[j], q);
    }
  }

  /** Steps that only let time pass, close a queue or end a worker. */
  ghost predicate Quiet(s: Core, t: Core) {
    && t == s.(clock := t.clock, closing := t.closing, shards := t.shards)
    && s.clock <= t.clock
    && |t.shards| == |s.shards|
    && forall i {:trigger t.shards[i]} :: 0 <= i < |s.shards| ==> QuietShard(s.shards[i], t.shards[i])
  }

  predicate QuietShard(h: Shard, h': Shard) {
    && h' == h.(sorter := h'.sorter, courier := h'.courier)
    && (h'.sorter == h.sorter || (h.sorter.Resting? && h'.sorter.Gone?))
    && (h'.courier == h.courier || (h.courier.Waiting? && h'.courier.Exited?))
  }

  lemma QuietStepIsQuiet(c: Config, s: Core, a: Step)
    requires Enabled(c, s, a) && !a.Act? && !a.Submit?
    ensures Quiet(s, Next(c, s, a))
  {
  }

  lemma QuietSpares(h: Shard, h': Shard, q: Id)
    requires QuietShard(h, h')
    ensures Spares(h, h', q)
    ensures SorterHoldsLock(h'.sorter) == SorterHoldsLock(h.sorter) && h'.lock == h.lock
  {
  }

  lemma QuietKeepsRequestSound(c: Config, s: Core, t: Core, q: Id)
    requires Sound(c, s) && Quiet(s, t) && q < |s.jobs|
    ensures Known(c, t, q) && RequestSound(c, Look(c, t, q), q)
  {
    var i := s.jobs[q].index;
    assert RequestSound(c, Look(c, s, q), q);
    QuietSpares(s.shards[i], t.shards[i], q);
    SparedRequestStaysSound(c, Look(c, s, q), Look(c, t, q), q);
  }

  lemma QuietKeepsSound(c: Config, s: Core, t: Core)
    requires Sound(c, s) && Quiet(s, t)
    ensures Sound(c, t)
  {
    forall q {:trigger t.jobs[q]} | 0 <= q < |t.jobs|
      ensures t.jobs[q].index == c.shardOf(t.jobs[q].sender) && RequestSound(c, Look(c, t, q), q)
    {
      QuietKeepsRequestSound(c, s, t, q);
    }
    forall j: nat, q: Id {:trigger Concerns(t.shards[j], q)} | j < |t.shards| && Concerns(t.shards[j], q)
      ensures q < |t.jobs| && t.jobs[q].index == j
    {
      QuietSpares(s.shards[j], t.shards[j], q);
      SparedMeansConcernedBefore(s.shards[j], t.shards[j], q);
    }
    forall j {:trigger t.shards[j]} | 0 <= j < |t.shards|
      ensures t.shards[j].lock == BySorter <==> SorterHoldsLock(t.shards[j].sorter)
    {
      QuietSpares(s.shards[j], t.shards[j], 0);
    }
  }

  lemma StepKeepsSound(c: Config, s: Core, a: Step)
    requires Sound(c, s) && Enabled(c, s, a)
    ensures Sound(c, Next(c, s, a))
  {
    match a
    case Submit(sender, nonce, timestamp) => SubmitKeepsSound(c, s, sender, nonce, timestamp);
    case Act(r, op) => ActKeepsSound(c, s, r, op);
    case _ =>
      QuietStepIsQuiet(c, s, a);
      QuietKeepsSound(c, s, Next(c, s, a));
  }

  lemma InitialIsSound(c: Config, s: Core)
    requires Initial(c, s)
    ensures Sound(c, s)
  {
  }
}
