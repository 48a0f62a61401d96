/** The invariant of the whole processor, kept by every step and so true in every reachable state. */
module Runs {
  import opened Wrappers
  import opened Protocol
  import opened Conservation
  import opened History
  import opened Caches
  import opened Ordering
  import opened Evidence
  import opened Shutdown
  import opened Breaker

  ghost predicate RequestGood(p: Spot, l: Log, r: Id) {
    CacheSound(p, l, r) && OrderSound(p, l, r) && EvidenceSound(p, l)
  }

  /** What holds of a shard whether or not it ever had a request. */
  ghost predicate ShardGood(h: Shard, near: Option<Entry>, l: ShardLog, now: int) {
    && LineSound(h, l)
    && TicketsClimb(l.line)
    && CallsSound(near, l)
    && Spaced(l.nearLog)
    && Dated(near, l.nearLog, now)
  }

  /** What holds of a sender whether or not it ever submitted a request. */
  ghost predicate SenderGood(x: Address, eth: Option<Entry>, ethLog: seq<Refresh>, line: seq<Ticket>, now: int) {
    SenderSound(x, eth, ethLog, line) && Spaced(ethLog) && Dated(eth, ethLog, now)
  }

  ghost predicate RequestGoodIn(c: Config, u: State, r: Id) {
    && Known(c, u.core, r)
    && Fits(u.core, u.log)
    && RequestGood(Look(c, u.core, r), LookLog(c, u.core, u.log, r), r)
  }

  ghost predicate ShardGoodIn(c: Config, u: State, i: nat) {
    && i < |u.core.shards| == |u.log.shards| == |c.keys|
    && ShardGood(u.core.shards[i], Lookup(u.core.near, c.keys[i]), u.log.shards[i], u.core.clock)
    && TicketsKnown(u.core.jobs, u.log.shards[i].line, i)
  }

  ghost predicate SenderGoodIn(c: Config, u: State, x: Address) {
    && c.shardOf(x) < |u.log.shards|
    && SenderGood(x, Lookup(u.core.eth, x), LogOf(u.log.ethLogs, x), u.log.shards[c.shardOf(x)].line, u.core.clock)
  }

  ghost predicate Good(c: Config, u: State) {
    && Sound(c, u.core)
    && Fits(u.core, u.log)
    && (forall r: Id :: r < |u.core.jobs| ==> RequestGoodIn(c, u, r))
    && (forall i: nat :: i < |u.core.shards| ==> ShardGoodIn(c, u, i))
    && (forall x: Address :: SenderGoodIn(c, u, x))
  }

  /** The tickets of a shard are those of its own requests. */
  predicate TicketsKnown(jobs: seq<Job>, line: seq<Ticket>, i: nat) {
    forall k :: 0 <= k < |line| ==> line[k].id < |jobs| && jobs[line[k].id].index == i
  }

  // ---------------------------------------------------------------- steps of a request

  lemma OwnStaysGood(c: Config, p: Spot, l: Log, r: Id, op: Op)
    requires ValidConfig(c) && CanAct(c, p, r, op) && RequestSound(c, p, r) && RequestGood(p, l, r)
    ensures RequestGood(AfterAct(c, p, r, op), AfterLog(c, p, l, r, op), r)
  {
    ActKeepsCaches(c, p, l, r, op);
    ActKeepsOrder(c, p, l, r, op);
    ActKeepsEvidence(c, p, l, r, op);
  }

  /** Everything that the step of r means for others. */
  ghost predicate Effect(c: Config, p: Spot, l: Log, p': Spot, l': Log, r: Id) {
    && Continues(p, p')
    && RequestSound(c, p', r)
    && RequestGood(p', l', r)
    && Careful(p, l, p', l', r)
    && GrowsByOwn(p, l, l', r)
    && forall q: Id :: q != r ==> Spares(p.shard, p'.shard, q)
  }

  lemma ActHasEffect(c: Config, p: Spot, l: Log, r: Id, op: Op)
    requires ValidConfig(c) && CanAct(c, p, r, op) && RequestSound(c, p, r) && RequestGood(p, l, r)
    ensures Effect(c, p, l, AfterAct(c, p, r, op), AfterLog(c, p, l, r, op), r)
  {
    ActContinues(c, p, r, op);
    ActKeepsRequest(c, p, r, op);
    OwnStaysGood(c, p, l, r, op);
    ActIsCareful(c, p, l, r, op);
    ActGrowsByOwn(c, p, l, r, op);
    forall q: Id | q != r
      ensures Spares(p.shard, AfterAct(c, p, r, op).shard, q)
    {
      ActSpares(c, p, r, op, q);
    }
  }

  function PutState(c: Config, u: State, r: Id, p: Spot, l: Log): State
    requires Known(c, u.core, r) && Fits(u.core, u.log)
  {
    State(Put(c, u.core, r, p), PutLog(c, u.core, u.log, r, l))
  }

  lemma OtherStaysGood(c: Config, u: State, r: Id, p': Spot, l': Log, q: Id)
    requires Good(c, u) && Known(c, u.core, r) && Known(c, u.core, q) && q != r
    requires Effect(c, Look(c, u.core, r), LookLog(c, u.core, u.log, r), p', l', r)
    ensures RequestGoodIn(c, PutState(c, u, r, p', l'), q)
  {
    var s, h, w := u.core, u.log, PutState(c, u, r, p', l');
    var p, l, v, m := Look(c, s, r), LookLog(c, s, h, r), Look(c, s, q), LookLog(c, s, h, q);
    PutLookOther(c, s, r, p', q);
    PutLookLogOther(c, s, h, r, p', l', q);
    assert RequestGoodIn(c, u, q);
    assert RequestSound(c, v, q);
    assert RequestSound(c, p, r);
    var v', m' := Look(c, w.core, q), LookLog(c, w.core, w.log, q);
    assert Overlooks(v, m, v', m', p, l, p', l');
    OthersKeepCaches(c, v, m, v', m', q, p, l, p', l', r);
    OthersKeepOrder(v, m, v', m', q, p, l, p', l', r);
    OthersKeepEvidence(c, v, m, v', m', q, p, l, p', l', r);
  }

  lemma OtherSenderStaysGood(c: Config, u: State, r: Id, p': Spot, l': Log, x: Address)
    requires SenderGoodIn(c, u, x) && Known(c, u.core, r) && Fits(u.core, u.log) && x != u.core.jobs[r].sender
    requires Continues(Look(c, u.core, r), p') && GrowsByOwn(Look(c, u.core, r), LookLog(c, u.core, u.log, r), l', r)
    ensures SenderGoodIn(c, PutState(c, u, r, p', l'), x)
  {
    var w, job := PutState(c, u, r, p', l'), u.core.jobs[r];
    var line, line' := u.log.shards[job.index].line, l'.shard.line;
    assert Lookup(w.core.eth, x) == Lookup(u.core.eth, x);
    assert LogOf(w.log.ethLogs, x) == LogOf(u.log.ethLogs, x);
    if c.shardOf(x) == job.index && line' != line {
      StrangersTicket(x, Lookup(u.core.eth, x), LogOf(u.log.ethLogs, x), line, line'[|line|]);
    }
  }

  lemma SenderStaysGood(c: Config, u: State, r: Id, p': Spot, l': Log, x: Address)
    requires Good(c, u) && Known(c, u.core, r)
    requires Effect(c, Look(c, u.core, r), LookLog(c, u.core, u.log, r), p', l', r)
    ensures SenderGoodIn(c, PutState(c, u, r, p', l'), x)
  {
    var w, job := PutState(c, u, r, p', l'), u.core.jobs[r];
    assert SenderGoodIn(c, u, x);
    if x == job.sender {
      assert Lookup(w.core.eth, x) == p'.eth;
      assert LogOf(w.log.ethLogs, x) == l'.ethLog;
    } else {
      OtherSenderStaysGood(c, u, r, p', l', x);
    }
  }

  lemma OwnShardStaysGood(c: Config, u: State, r: Id, p': Spot, l': Log)
    requires Good(c, u) && Known(c, u.core, r)
    requires Effect(c, Look(c, u.core, r), LookLog(c, u.core, u.log, r), p', l', r)
    ensures ShardGood(p'.shard, p'.near, l'.shard, u.core.clock)
    ensures TicketsKnown(u.core.jobs, l'.shard.line, u.core.jobs[r].index)
  {
    assert ShardGoodIn(c, u, u.core.jobs[r].index);
    RequestShowsShard(p', l', r);
  }

  lemma RequestShowsShard(p: Spot, l: Log, r: Id)
    requires RequestGood(p, l, r)
    ensures ShardGood(p.shard, p.near, l.shard, p.now)
  {
  }

  lemma ShardStaysGood(c: Config, u: State, r: Id, p': Spot, l': Log, i: nat)
    requires Good(c, u) && Known(c, u.core, r) && i < |u.core.shards|
    requires Effect(c, Look(c, u.core, r), LookLog(c, u.core, u.log, r), p', l', r)
    ensures ShardGoodIn(c, PutState(c, u, r, p', l'), i)
  {
    OwnShardStaysGood(c, u, r, p', l');
    assert ShardGoodIn(c, u, i);
    PutShardStaysGood(c, u, r, p', l', i);
  }

  lemma PutShardStaysGood(c: Config, u: State, r: Id, p': Spot, l': Log, i: nat)
    requires ValidConfig(c) && Known(c, u.core, r) && Fits(u.core, u.log) && ShardGoodIn(c, u, i)
    requires SameIdentity(u.core.jobs[r], p'.job) && (p'.near.Some? || c.keys[u.core.jobs[r].index] !in u.core.near)
    requires ShardGood(p'.shard, p'.near, l'.shard, u.core.clock)
    requires TicketsKnown(u.core.jobs, l'.shard.line, u.core.jobs[r].index)
    ensures ShardGoodIn(c, PutState(c, u, r, p', l'), i)
  {
    var w, j := PutState(c, u, r, p', l'), u.core.jobs[r].index;
    if i == j {
      assert Lookup(w.core.near, c.keys[i]) == p'.near;
    } else {
      assert c.keys[i] != c.keys[j];
      assert Lookup(w.core.near, c.keys[i]) == Lookup(u.core.near, c.keys[i]);
    }
  }

  lemma PutStaysGood(c: Config, u: State, r: Id, p': Spot, l': Log)
    requires Good(c, u) && Known(c, u.core, r)
    requires Effect(c, Look(c, u.core, r), LookLog(c, u.core, u.log, r), p', l', r)
    ensures Good(c, PutState(c, u, r, p', l'))
  {
    var w := PutState(c, u, r, p', l');
    PutKeepsSound(c, u.core, r, p');
    PutLookOwn(c, u.core, r, p');
    PutLookLogOwn(c, u.core, u.log, r, p', l');
    forall q: Id | q < |w.core.jobs|
      ensures RequestGoodIn(c, w, q)
    {
      if q != r {
        OtherStaysGood(c, u, r, p', l', q);
      }
    }
    forall i: nat | i < |w.core.shards|
      ensures ShardGoodIn(c, w, i)
    {
      ShardStaysGood(c, u, r, p', l', i);
    }
    forall x: Address
      ensures SenderGoodIn(c, w, x)
    {
      SenderStaysGood(c, u, r, p', l', x);
    }
  }

  lemma ActStaysGood(c: Config, u: State, r: Id, op: Op)
    requires Good(c, u) && Enabled(c, u.core, Act(r, op))
    ensures Good(c, After(c, u, Act(r, op)))
  {
    var p, l := Look(c, u.core, r), LookLog(c, u.core, u.log, r);
    assert RequestSound(c, p, r);
    assert RequestGoodIn(c, u, r);
    ActHasEffect(c, p, l, r, op);
    PutStaysGood(c, u, r, AfterAct(c, p, r, op), AfterLog(c, p, l, r, op));
  }

  // ---------------------------------------------------------------- other steps

  lemma QuietKeepsCaches(p: Spot, p': Spot, l: Log, r: Id)
    requires CacheSound(p, l, r) && QuietShard(p.shard, p'.shard) && p.now <= p'.now
    requires p' == p.(now := p'.now, shard := p'.shard, open := p'.open)
    ensures CacheSound(p', l, r)
  {
  }

  lemma QuietKeepsOrder(p: Spot, p': Spot, l: Log, r: Id)
    requires OrderSound(p, l, r) && QuietShard(p.shard, p'.shard)
    requires p' == p.(now := p'.now, shard := p'.shard, open := p'.open)
    ensures OrderSound(p', l, r)
  {
    assert LineSound(p'.shard, l.shard);
  }

  lemma QuietKeepsEvidence(p: Spot, p': Spot, l: Log)
    requires EvidenceSound(p, l)
    requires p' == p.(now := p'.now, shard := p'.shard, open := p'.open)
    ensures EvidenceSound(p', l)
  {
  }

  lemma QuietKeepsRequest(p: Spot, p': Spot, l: Log, r: Id)
    requires RequestGood(p, l, r) && QuietShard(p.shard, p'.shard) && p.now <= p'.now
    requires p' == p.(now := p'.now, shard := p'.shard, open := p'.open)
    ensures RequestGood(p', l, r)
  {
    QuietKeepsCaches(p, p', l, r);
    QuietKeepsOrder(p, p', l, r);
    QuietKeepsEvidence(p, p', l);
  }

  lemma QuietKeepsShard(c: Config, u: State, w: State, i: nat)
    requires ShardGoodIn(c, u, i) && Quiet(u.core, w.core) && w.log == u.log
    ensures ShardGoodIn(c, w, i)
  {
    assert QuietShard(u.core.shards[i], w.core.shards[i]);
  }

  lemma QuietKeepsSender(c: Config, u: State, w: State, x: Address)
    requires SenderGoodIn(c, u, x) && Quiet(u.core, w.core) && w.log == u.log
    ensures SenderGoodIn(c, w, x)
  {
  }

  lemma QuietKeepsRequestIn(c: Config, u: State, w: State, r: Id)
    requires RequestGoodIn(c, u, r) && Quiet(u.core, w.core) && w.log == u.log
    ensures RequestGoodIn(c, w, r)
  {
    assert QuietShard(u.core.shards[u.core.jobs[r].index], w.core.shards[u.core.jobs[r].index]);
    QuietKeepsRequest(Look(c, u.core, r), Look(c, w.core, r), LookLog(c, u.core, u.log, r), r);
  }

  lemma QuietStaysGood(c: Config, u: State, a: Step)
    requires Good(c, u) && Enabled(c, u.core, a) && !a.Act? && !a.Submit?
    ensures Good(c, After(c, u, a))
  {
    var w := After(c, u, a);
    StepKeepsSound(c, u.core, a);
    QuietStepIsQuiet(c, u.core, a);
    assert w.log == u.log;
    forall r: Id | r < |w.core.jobs|
      ensures RequestGoodIn(c, w, r)
    {
      QuietKeepsRequestIn(c, u, w, r);
    }
    forall i: nat | i < |w.core.shards|
      ensures ShardGoodIn(c, w, i)
    {
      QuietKeepsShard(c, u, w, i);
    }
    forall x: Address
      ensures SenderGoodIn(c, w, x)
    {
      QuietKeepsSender(c, u, w, x);
    }
  }

  lemma NewRequestHasCaches(p: Spot, l: Log, r: Id)
    requires p.job.task.Listening? && p.job.inbox == [] && !Concerns(p.shard, r) && p.timers == p.flights == 0
    requires ShardGood(p.shard, p.near, l.shard, p.now)
    requires SenderGood(p.job.sender, p.eth, l.ethLog, l.shard.line, p.now)
    ensures CacheSound(p, l, r)
  {
  }

  lemma NewRequestIsInOrder(p: Spot, l: Log, r: Id)
    requires ShardGood(p.shard, p.near, l.shard, p.now)
    requires forall k :: 0 <= k < |l.shard.line| ==> l.shard.line[k].id != r
    requires SenderGood(p.job.sender, p.eth, l.ethLog, l.shard.line, p.now)
    ensures OrderSound(p, l, r)
  {
    assert TicketsTrue(p.job, r, l.shard.line);
  }

  lemma NewRequestIsGood(p: Spot, l: Log, r: Id)
    requires p.job.task.Listening? && p.job.inbox == [] && !p.job.retransmit && l.trail == []
    requires !Concerns(p.shard, r) && p.timers == p.flights == 0
    requires ShardGood(p.shard, p.near, l.shard, p.now)
    requires forall k :: 0 <= k < |l.shard.line| ==> l.shard.line[k].id != r
    requires SenderGood(p.job.sender, p.eth, l.ethLog, l.shard.line, p.now)
    ensures RequestGood(p, l, r)
  {
    NewRequestHasCaches(p, l, r);
    NewRequestIsInOrder(p, l, r);
    assert EvidenceSound(p, l);
  }

  lemma SubmittedIsGood(c: Config, u: State, a: Step)
    requires Good(c, u) && Enabled(c, u.core, a) && a.Submit? && Sound(c, After(c, u, a).core)
    ensures RequestGoodIn(c, After(c, u, a), |u.core.jobs|)
  {
    var w, n, i := After(c, u, a), |u.core.jobs|, c.shardOf(a.sender);
    assert ShardGoodIn(c, u, i);
    assert SenderGoodIn(c, u, a.sender);
    assert !Concerns(u.core.shards[i], n);
    NewRequestIsGood(Look(c, w.core, n), LookLog(c, w.core, w.log, n), n);
  }

  /** Nothing changes for requests, shards and senders that were there before. */
  lemma SubmitKeepsOthers(c: Config, u: State, a: Step)
    requires Good(c, u) && Enabled(c, u.core, a) && a.Submit?
    ensures var w := After(c, u, a);
            && (forall r: Id :: r < |u.core.jobs| ==> RequestGoodIn(c, w, r))
            && (forall i: nat :: i < |u.core.shards| ==> ShardGoodIn(c, w, i))
            && (forall x: Address :: SenderGoodIn(c, w, x))
  {
    var w := After(c, u, a);
    forall r: Id | r < |u.core.jobs|
      ensures RequestGoodIn(c, w, r)
    {
      assert RequestGoodIn(c, u, r);
      assert Look(c, w.core, r) == Look(c, u.core, r);
    }
    forall i: nat | i < |u.core.shards|
      ensures ShardGoodIn(c, w, i)
    {
      assert ShardGoodIn(c, u, i);
    }
    forall x: Address
      ensures SenderGoodIn(c, w, x)
    {
      assert SenderGoodIn(c, u, x);
    }
  }

  lemma SubmitStaysGood(c: Config, u: State, a: Step)
    requires Good(c, u) && Enabled(c, u.core, a) && a.Submit?
    ensures Good(c, After(c, u, a))
  {
    var w, n := After(c, u, a), |u.core.jobs|;
    StepKeepsSound(c, u.core, a);
    SubmittedIsGood(c, u, a);
    SubmitKeepsOthers(c, u, a);
    assert |w.core.jobs| == n + 1 && |w.core.shards| == |u.core.shards|;
    forall r: Id | r < n + 1
      ensures RequestGoodIn(c, w, r)
    {
      assert r < n || r == n;
    }
  }

  lemma StepStaysGood(c: Config, u: State, a: Step)
    requires Good(c, u) && CanStep(c, u, a)
    ensures Good(c, After(c, u, a))
  {
    match a
    case Act(r, op) => ActStaysGood(c, u, r, op);
    case Submit(_, _, _) => SubmitStaysGood(c, u, a);
    case _ => QuietStaysGood(c, u, a);
  }

  lemma InitialIsGood(c: Config, u: State)
    requires InitialState(c, u)
    ensures Good(c, u)
  {
    InitialIsSound(c, u.core);
  }

  // ---------------------------------------------------------------- runs

  ghost predicate Invariant(c: Config, u: State) {
    Good(c, u) && ClosingSound(u.core) && BreakerSound(u.core)
  }

  lemma StepKeepsInvariant(c: Config, u: State, a: Step)
    requires Invariant(c, u) && CanStep(c, u, a)
    ensures Invariant(c, After(c, u, a))
  {
    StepStaysGood(c, u, a);
    StepKeepsClosing(c, u.core, a);
    StepKeepsBreaker(c, u.core, a);
  }

  lemma InitialHasInvariant(c: Config, u: State)
    requires InitialState(c, u)
    ensures Invariant(c, u)
  {
    InitialIsGood(c, u);
    InitialIsClosingSound(c, u.core);
  }

  lemma {:induction false} StretchKeepsInvariant(c: Config, states: seq<State>, steps: seq<Step>, k: nat)
    requires IsStretch(c, states, steps) && Invariant(c, states[0]) && k < |states|
    ensures Invariant(c, states[k])
  {
    if k > 0 {
      StretchKeepsInvariant(c, states, steps, k - 1);
      StepKeepsInvariant(c, states[k - 1], steps[k - 1]);
    }
  }

  /** The invariant holds in every reachable state. */
  lemma ReachableHasInvariant(c: Config, u: State)
    requires Reachable(c, u)
    ensures Invariant(c, u)
  {
    var states, steps :| IsRun(c, states, steps) && states[|states| - 1] == u;
    InitialHasInvariant(c, states[0]);
    StretchKeepsInvariant(c, states, steps, |states| - 1);
  }

  // ---------------------------------------------------------------- the invariant piece by piece

  lemma RequestsAreGood(c: Config, u: State, r: Id)
    requires Reachable(c, u) && r < |u.core.jobs|
    ensures RequestGoodIn(c, u, r) && RequestSound(c, Look(c, u.core, r), r)
    ensures u.core.jobs[r].index == c.shardOf(u.core.jobs[r].sender)
  {
    ReachableHasInvariant(c, u);
    assert RequestGoodIn(c, u, r);
    assert RequestSound(c, Look(c, u.core, r), r);
  }

  lemma TrailsAreSound(c: Config, u: State, r: Id)
    requires Reachable(c, u) && r < |u.core.jobs|
    ensures Known(c, u.core, r) && Fits(u.core, u.log)
    ensures EvidenceSound(Look(c, u.core, r), LookLog(c, u.core, u.log, r))
  {
    RequestsAreGood(c, u, r);
  }

  lemma ShardsAreGood(c: Config, u: State, i: nat)
    requires Reachable(c, u) && (i < |u.core.shards| || i < |u.log.shards|)
    ensures i < |u.core.shards| && ShardGoodIn(c, u, i) && ShardClosing(u.core, i)
  {
    ReachableHasInvariant(c, u);
    assert ShardGoodIn(c, u, i);
  }

  lemma SendersAreGood(c: Config, u: State, x: Address)
    requires Reachable(c, u)
    ensures SenderGoodIn(c, u, x)
  {
    ReachableHasInvariant(c, u);
  }

  lemma ShardsKeepTheirRequests(c: Config, u: State, i: nat, r: Id)
    requires Reachable(c, u) && i < |u.core.shards| && Concerns(u.core.shards[i], r)
    ensures r < |u.core.jobs| && u.core.jobs[r].index == c.shardOf(u.core.jobs[r].sender) == i < |c.keys|
  {
    ReachableHasInvariant(c, u);
  }
}
