/** What holds of the transaction processor on every run. */
module Theorems {
  import opened Wrappers
  import opened TxnError
  import opened Protocol
  import opened Conservation
  import opened History
  import opened Caches
  import opened Ordering
  import opened Evidence
  import opened Breaker
  import opened Runs

  // ---------------------------------------------------------------- conservation

  /** Every submitted request is in exactly one place, and that place is not in another shard. */
  lemma EveryRequestIsInOnePlace(c: Config, u: State, r: Id)
    requires Reachable(c, u) && r < |u.core.jobs|
    ensures Known(c, u.core, r) && Places(Look(c, u.core, r), r) == 1
    ensures forall i :: 0 <= i < |u.core.shards| && i != u.core.jobs[r].index ==>
              PlacesInShard(u.core.shards[i], r) == 0
  {
    RequestsAreGood(c, u, r);
    forall i | 0 <= i < |u.core.shards| && i != u.core.jobs[r].index
      ensures PlacesInShard(u.core.shards[i], r) == 0
    {
      if Concerns(u.core.shards[i], r) {
        ShardsKeepTheirRequests(c, u, i, r);
      }
    }
  }

  /** Whoever is about to answer a request finds its channel empty: the worker that decides about it or has it in
      hand, a timer, a Near call, and `eval` when it makes up a success under the lock. So no answer ever blocks. */
  lemma AnswersNeverBlock(c: Config, u: State, r: Id)
    requires Reachable(c, u) && r < |u.core.jobs|
    ensures Known(c, u.core, r)
    ensures var p := Look(c, u.core, r);
            (|| p.shard.sorter == Deciding(r)
             || CourierAbout(p.shard.courier, r)
             || p.timers > 0
             || p.flights > 0
             || At(p.job, Comparing)) ==> InboxFree(p.job)
  {
    RequestsAreGood(c, u, r);
  }

  /** Done for good: either finished or about to finish with the made-up success. */
  predicate Settled(job: Job) {
    job.task.Finished? || MadeUp(job.task)
  }

  lemma ActKeepsSettled(c: Config, p: Spot, r: Id, op: Op)
    requires RequestSound(c, p, r) && CanAct(c, p, r, op) && Settled(p.job)
    ensures Settled(AfterAct(c, p, r, op).job) && op != Eval(Receive)
  {
    match op
    case Eval(o) => EvalKeepsSettled(c, p, r, o);
    case _ =>
  }

  lemma EvalKeepsSettled(c: Config, p: Spot, r: Id, op: EvalOp)
    requires RequestSound(c, p, r) && CanEval(c, p, op) && Settled(p.job)
    ensures Settled(AfterEval(c, p, r, op).job) && op != Receive
  {
  }

  lemma StepKeepsSettled(c: Config, s: Core, a: Step, r: Id)
    requires Sound(c, s) && Enabled(c, s, a) && r < |s.jobs| && Settled(s.jobs[r])
    ensures r < |Next(c, s, a).jobs| && Settled(Next(c, s, a).jobs[r])
    ensures a != Act(r, Eval(Receive))
  {
    assert RequestSound(c, Look(c, s, r), r);
    if a.Act? {
      var p := Look(c, s, a.r);
      if a.r == r {
        ActKeepsSettled(c, p, r, a.op);
      }
      assert Next(c, s, a).jobs == s.jobs[a.r := AfterAct(c, p, a.r, a.op).job];
    }
  }

  lemma StateKeepsSettled(c: Config, u: State, a: Step, r: Id)
    requires Invariant(c, u) && CanStep(c, u, a) && r < |u.core.jobs| && Settled(u.core.jobs[r])
    ensures r < |After(c, u, a).core.jobs| && Settled(After(c, u, a).core.jobs[r])
    ensures a != Act(r, Eval(Receive))
  {
    StepKeepsSettled(c, u.core, a, r);
  }

  /** A finished request stays finished, and the extra answer that goes with a made-up success is never received: from
      then on the goroutine takes nothing from the channel, on any continuation of the run. */
  lemma {:induction false} SettledForever(c: Config, states: seq<State>, steps: seq<Step>, r: Id, k: nat)
    requires IsStretch(c, states, steps) && Reachable(c, states[0]) && k < |states|
    requires r < |states[0].core.jobs| && Settled(states[0].core.jobs[r])
    ensures r < |states[k].core.jobs| && Settled(states[k].core.jobs[r])
    ensures k < |steps| ==> steps[k] != Act(r, Eval(Receive))
  {
    ReachableHasInvariant(c, states[0]);
    if k > 0 {
      SettledForever(c, states, steps, r, k - 1);
      StretchKeepsInvariant(c, states, steps, k - 1);
      StateKeepsSettled(c, states[k - 1], steps[k - 1], r);
    }
    if k < |steps| {
      StretchKeepsInvariant(c, states, steps, k);
      StateKeepsSettled(c, states[k], steps[k], r);
    }
  }

  // ---------------------------------------------------------------- discipline

  /** Whatever is in a shard's queues, workers or lock belongs to the shard of its sender; so all requests of a sender
      share one shard, whose index is that of a key. */
  lemma ShardsKeepToThemselves(c: Config, u: State, i: nat, r: Id)
    requires Reachable(c, u) && i < |u.core.shards| && Concerns(u.core.shards[i], r)
    ensures r < |u.core.jobs| && u.core.jobs[r].index == c.shardOf(u.core.jobs[r].sender) == i < |c.keys|
  {
    ShardsKeepTheirRequests(c, u, i, r);
  }

  /** The steps that read or write the Eth entry of the request's sender. */
  predicate UsesEth(op: Op) {
    match op
    case Sort(o) => o.Decide? || o.Check? || o.Fetch?
    case Eval(o) => o.TestEth? || o.FetchEth? || o.Compare?
    case _ => false
  }

  lemma UseNeedsLock(c: Config, p: Spot, r: Id, op: Op)
    requires RequestSound(c, p, r) && CanAct(c, p, r, op) && UsesEth(op)
    ensures p.shard.lock == ByTask(r) || (p.shard.lock == BySorter && SorterAbout(p.shard.sorter, r))
  {
  }

  /** They happen only while the shard lock is held on behalf of that request. */
  lemma EthEntryNeedsLock(c: Config, u: State, r: Id, op: Op)
    requires Reachable(c, u) && Enabled(c, u.core, Act(r, op)) && UsesEth(op)
    ensures var h := u.core.shards[u.core.jobs[r].index];
            h.lock == ByTask(r) || (h.lock == BySorter && SorterAbout(h.sorter, r))
  {
    RequestsAreGood(c, u, r);
    UseNeedsLock(c, Look(c, u.core, r), r, op);
  }

  /** All other steps neither read the entry nor write it. */
  lemma OthersIgnoreEth(c: Config, p: Spot, r: Id, op: Op, e: Option<Entry>)
    requires !UsesEth(op)
    ensures CanAct(c, p, r, op) == CanAct(c, p.(eth := e), r, op)
    ensures CanAct(c, p, r, op) ==> AfterAct(c, p.(eth := e), r, op) == AfterAct(c, p, r, op).(eth := e)
  {
    assert CanAct(c, p, r, op) == CanAct(c, p.(eth := e), r, op);
    if CanAct(c, p, r, op) {
      OthersIgnoreEthHere(c, p, r, op, e);
    }
  }

  lemma OthersIgnoreEthHere(c: Config, p: Spot, r: Id, op: Op, e: Option<Entry>)
    requires !UsesEth(op) && CanAct(c, p, r, op) && CanAct(c, p.(eth := e), r, op)
    ensures AfterAct(c, p.(eth := e), r, op) == AfterAct(c, p, r, op).(eth := e)
  {
  }

  /** And no step touches the entry of another sender. */
  lemma OtherSendersUntouched(c: Config, s: Core, a: Step, x: Address)
    requires Enabled(c, s, a) && (a.Act? ==> s.jobs[a.r].sender != x)
    ensures Lookup(Next(c, s, a).eth, x) == Lookup(s.eth, x)
  {
  }

  // ---------------------------------------------------------------- order

  /** In any epoch the matched requests of a sender are let through with consecutive Eth nonces. */
  lemma MatchedNoncesAreConsecutive(c: Config, u: State, x: Address, epoch: nat)
    requires Reachable(c, u)
    ensures c.shardOf(x) < |u.log.shards|
    ensures Consecutive(Streak(u.log.shards[c.shardOf(x)].line, x, epoch))
  {
    SendersAreGood(c, u, x);
  }

  /** Between two refreshes of a key's Near entry its calls get Near nonces that are counted up one by one. */
  lemma NearNoncesAreCountedUp(c: Config, u: State, i: nat, a: nat, b: nat)
    requires Reachable(c, u) && i < |u.log.shards|
    requires a < b < |u.log.shards[i].sends|
    requires u.log.shards[i].sends[a].epoch == u.log.shards[i].sends[b].epoch
    ensures var s, t := u.log.shards[i].sends[a], u.log.shards[i].sends[b];
            t.raw == s.raw + (b - a) && s.nonce == s.raw % WORD && t.nonce == (s.nonce + (b - a)) % WORD
  {
    ShardsAreGood(c, u, i);
    var s, t := u.log.shards[i].sends[a], u.log.shards[i].sends[b];
    AddModulo(s.raw, b - a);
  }

  lemma AddModulo(x: nat, y: nat)
    ensures (x % WORD + y) % WORD == (x + y) % WORD
  {
    assert x == WORD * (x / WORD) + x % WORD;
    DropMultiple(x / WORD, x % WORD + y);
  }

  lemma {:induction false} DropMultiple(k: nat, z: nat)
    ensures (WORD * k + z) % WORD == z % WORD
  {
    if k > 0 {
      DropMultiple(k - 1, z);
      assert WORD * k + z == WORD * (k - 1) + z + WORD;
    }
  }

  /** The step starts a Near call for its request. */
  predicate StartsCall(c: Config, s: Core, a: Step)
    requires Enabled(c, s, a)
  {
    a.Act? && Next(c, s, a).flights[a.r] > s.flights[a.r]
  }

  lemma SendIsRecorded(p: Spot, l: Log, r: Id, op: SendOp)
    requires CanSend(p, r, op) && LineSound(p.shard, l.shard)
    ensures var p', sends, sends' := AfterSend(p, r, op), l.shard.sends, AfterSendLog(p, l, r, op).shard.sends;
            if p'.flights > p.flights then
              && |sends'| == |sends| + 1 && sends' == sends + [sends'[|sends|]]
              && sends'[|sends|].id == r && p'.near.Some? && sends'[|sends|].nonce == p'.near.value.nonce
            else sends' == sends
  {
  }

  lemma ActIsRecorded(c: Config, p: Spot, l: Log, r: Id, op: Op)
    requires CanAct(c, p, r, op) && LineSound(p.shard, l.shard)
    ensures var p', sends, sends' := AfterAct(c, p, r, op), l.shard.sends, AfterLog(c, p, l, r, op).shard.sends;
            if p'.flights > p.flights then
              && |sends'| == |sends| + 1 && sends' == sends + [sends'[|sends|]]
              && sends'[|sends|].id == r && p'.near.Some? && sends'[|sends|].nonce == p'.near.value.nonce
            else sends' == sends
  {
    match op
    case Send(o) => SendIsRecorded(p, l, r, o);
    case Eval(o) => EvalStartsNoCall(c, p, r, o);
    case _ =>
  }

  lemma EvalStartsNoCall(c: Config, p: Spot, r: Id, op: EvalOp)
    requires CanEval(c, p, op)
    ensures AfterEval(c, p, r, op).flights == p.flights
  {
  }

  /** Every Near call that is started is appended to the calls of its key, with the nonce that it is given, and nothing
      else is: what is stated about these calls is stated about all of them. */
  lemma EveryCallIsRecorded(c: Config, u: State, a: Step, i: nat)
    requires Reachable(c, u) && CanStep(c, u, a) && i < |u.log.shards|
    ensures i < |After(c, u, a).log.shards|
    ensures var w := After(c, u, a);
            var sends, sends' := u.log.shards[i].sends, w.log.shards[i].sends;
            if StartsCall(c, u.core, a) && u.core.jobs[a.r].index == i then
              && |sends'| == |sends| + 1 && sends' == sends + [sends'[|sends|]]
              && sends'[|sends|].id == a.r
              && i < |c.keys| && c.keys[i] in w.core.near && sends'[|sends|].nonce == w.core.near[c.keys[i]].nonce
            else sends' == sends
  {
    if a.Act? {
      RequestsAreGood(c, u, a.r);
      ActIsRecorded(c, Look(c, u.core, a.r), LookLog(c, u.core, u.log, a.r), a.r, a.op);
    }
  }

  /** A call is made for the request with its ticket, and the ticket says the truth about that request. */
  lemma CallsBelongToTickets(c: Config, u: State, i: nat, a: nat)
    requires Reachable(c, u) && i < |u.log.shards| && a < |u.log.shards[i].sends|
    ensures var l := u.log.shards[i];
            var s := l.sends[a];
            && s.pos < |l.line| && l.line[s.pos].id == s.id < |u.core.jobs|
            && l.line[s.pos].sender == u.core.jobs[s.id].sender
            && l.line[s.pos].nonce == u.core.jobs[s.id].nonce
            && u.core.jobs[s.id].index == c.shardOf(u.core.jobs[s.id].sender)
  {
    ShardsAreGood(c, u, i);
    var s := u.log.shards[i].sends[a];
    RequestsAreGood(c, u, s.id);
  }

  /** End-to-end order: of two calls for matched requests of one sender, while neither the Eth entry nor the Near
      entry is refreshed in between, the one with the lower Eth nonce has the lower Near nonce, and conversely; on the
      wire this can only be upset by a wrap-around of the 64-bit Near nonce. */
  lemma LowerEthNonceHasLowerNearNonce(c: Config, u: State, i: nat, a: nat, b: nat)
    requires Reachable(c, u) && i < |u.log.shards|
    requires a < |u.log.shards[i].sends| && b < |u.log.shards[i].sends|
    requires var l := u.log.shards[i];
             && l.sends[a].epoch == l.sends[b].epoch
             && l.sends[a].pos < |l.line| && l.sends[b].pos < |l.line|
             && SameStreak(l.line[l.sends[a].pos], l.line[l.sends[b].pos])
    ensures var l := u.log.shards[i];
            var s, t := l.sends[a], l.sends[b];
            && (l.line[s.pos].nonce < l.line[t.pos].nonce <==> s.raw < t.raw)
            && (s.raw < WORD && t.raw < WORD ==> (l.line[s.pos].nonce < l.line[t.pos].nonce <==> s.nonce < t.nonce))
  {
    ShardsAreGood(c, u, i);
  }

  // ---------------------------------------------------------------- evidence

  /** A request that ends with a nonce status, unless it was refused its retry, ends just after a successful refresh
      whose chain nonce exceeds its own. */
  lemma GivingUpNeedsEvidence(c: Config, u: State, r: Id)
    requires Reachable(c, u) && r < |u.core.jobs|
    requires var job := u.core.jobs[r];
             job.task.Finished? && !job.task.refused && IsNonceStatus(job.task.verdict.status)
    ensures r < |u.log.trails|
    ensures var job, trail := u.core.jobs[r], u.log.trails[r];
            && EndsWithRefresh(trail, job.task.verdict)
            && trail[|trail| - 1].nonce > job.nonce
  {
    TrailsAreSound(c, u, r);
    FinishedIsUsedUp(Look(c, u.core, r), LookLog(c, u.core, u.log, r));
  }

  /** The success of a retransmit is made up exactly when a request that is marked for retransmission gives up on an Eth
      nonce error; the mark comes from an earlier answer, a timed-out call or a failed lookup of the Near nonce. */
  lemma MadeUpSuccessNeedsRetransmit(c: Config, u: State, r: Id)
    requires Reachable(c, u) && r < |u.core.jobs|
    requires u.core.jobs[r].task.Finished? && !u.core.jobs[r].task.refused
    ensures r < |u.log.trails|
    ensures var job, trail := u.core.jobs[r], u.log.trails[r];
            && (job.task.verdict.synthetic <==> job.task.verdict.status == EthNonceError && job.retransmit)
            && (job.task.verdict.synthetic ==>
                  exists k :: 0 <= k < |trail| - 2 && trail[k].Heard? && trail[k].marks
                              && (trail[k].status == NearTimeOutError || trail[k].status == NearNonceError))
  {
    TrailsAreSound(c, u, r);
    FinishedIsMarked(Look(c, u.core, r), LookLog(c, u.core, u.log, r));
  }

  /** A request is marked for retransmission exactly when one of its answers marked it. */
  lemma RetransmitMeansMarked(c: Config, u: State, r: Id)
    requires Reachable(c, u) && r < |u.core.jobs|
    ensures r < |u.log.trails|
    ensures u.core.jobs[r].retransmit <==> Marked(u.log.trails[r], |u.log.trails[r]|)
  {
    TrailsAreSound(c, u, r);
  }

  // ---------------------------------------------------------------- caches

  lemma {:induction false} SpacedAddsUp(log: seq<Refresh>, a: nat, b: nat)
    requires Spaced(log) && a <= b < |log|
    ensures log[a].time + MIN_UPDATE_INTERVAL * (b - a) <= log[b].time
  {
    if a < b {
      SpacedAddsUp(log, a, b - 1);
    }
  }

  /** The (b - a + 1) refreshes of a sender's Eth entry from the a-th to the b-th span at least 2(b - a) seconds. */
  lemma EthRefreshRate(c: Config, u: State, x: Address, a: nat, b: nat)
    requires Reachable(c, u) && a <= b < |LogOf(u.log.ethLogs, x)|
    ensures var log := LogOf(u.log.ethLogs, x); log[b].time - log[a].time >= 2 * SECOND * (b - a)
  {
    SendersAreGood(c, u, x);
    SpacedAddsUp(LogOf(u.log.ethLogs, x), a, b);
  }

  /** Likewise for the Near entry of a key. */
  lemma NearRefreshRate(c: Config, u: State, i: nat, a: nat, b: nat)
    requires Reachable(c, u) && i < |u.log.shards| && a <= b < |u.log.shards[i].nearLog|
    ensures var log := u.log.shards[i].nearLog; log[b].time - log[a].time >= 2 * SECOND * (b - a)
  {
    ShardsAreGood(c, u, i);
    SpacedAddsUp(u.log.shards[i].nearLog, a, b);
  }

  /** So a window of T seconds holds at most T / 2 + 1 refreshes of a sender's entry. */
  lemma EthRefreshesInWindow(c: Config, u: State, x: Address, a: nat, b: nat, seconds: nat)
    requires Reachable(c, u) && a <= b < |LogOf(u.log.ethLogs, x)|
    requires var log := LogOf(u.log.ethLogs, x); log[b].time <= log[a].time + seconds * SECOND
    ensures b - a + 1 <= seconds / 2 + 1
  {
    EthRefreshRate(c, u, x, a, b);
  }

  /** Likewise of a key's entry. */
  lemma NearRefreshesInWindow(c: Config, u: State, i: nat, a: nat, b: nat, seconds: nat)
    requires Reachable(c, u) && i < |u.log.shards| && a <= b < |u.log.shards[i].nearLog|
    requires var log := u.log.shards[i].nearLog; log[b].time <= log[a].time + seconds * SECOND
    ensures b - a + 1 <= seconds / 2 + 1
  {
    NearRefreshRate(c, u, i, a, b);
  }

  /** The branches that create a missing entry in the two update functions are never taken. */
  lemma ColdBranchesAreUnreachable(c: Config, u: State, r: Id)
    requires Reachable(c, u) && r < |u.core.jobs|
    ensures Known(c, u.core, r)
    ensures var p := Look(c, u.core, r);
            && (p.shard.sorter == Checking(r) ==> p.eth.Some?)
            && (At(p.job, EthCheck) && StatusAction(p.job.task.verdict.status).updateEthCache ==> p.eth.Some?)
            && (At(p.job, NearCheck) && StatusAction(p.job.task.verdict.status).updateNearCache ==> p.near.Some?)
  {
    RequestsAreGood(c, u, r);
  }

  /** The first unexpired `sort` of a request puts its sender into the cache, and no step ever takes one out. */
  lemma SortedSendersStayCached(c: Config, s: Core, a: Step, x: Address)
    requires Enabled(c, s, a)
    ensures x in s.eth ==> x in Next(c, s, a).eth
    ensures a.Act? && a.op == Op.Sort(Decide) && !Expired(s.jobs[a.r], s.clock) ==>
              s.jobs[a.r].sender in Next(c, s, a).eth
  {
    if a.Act? {
      ActContinues(c, Look(c, s, a.r), a.r, a.op);
    }
  }

  // ---------------------------------------------------------------- breaker and shutdown

  /** A breaker is on only while some `eval` of its shard is between switching it on and switching it off. */
  lemma BreakerNeverSticks(c: Config, u: State, i: nat)
    requires Reachable(c, u) && i < |u.core.shards| && u.core.shards[i].breaker
    ensures exists r: Id :: IsInWindow(u.core, r, i)
  {
    ReachableHasInvariant(c, u);
    assert BreakerExplained(u.core, i);
  }

  /** `sort` never pushes onto a closed ordered queue. */
  lemma SortPushesOntoOpenQueue(c: Config, u: State, i: nat)
    requires Reachable(c, u) && i < |u.core.shards| && !u.core.shards[i].sorter.Gone?
    ensures OrderedOpen(u.core, i)
  {
    ShardsAreGood(c, u, i);
  }

  /** When the last `send` worker has left, `Close` is through: every worker has left, every queue is empty, and every
      request that was let through has been taken by its `send` worker. */
  lemma CloseDrainsEverything(c: Config, u: State, i: nat)
    requires Reachable(c, u) && i < |u.core.shards|
    requires u.core.closing == 2 * |u.core.shards| && u.core.shards[|u.core.shards| - 1].courier.Exited?
    ensures var h := u.core.shards[i];
            h.sorter.Gone? && h.courier.Exited? && h.unordered == [] && h.ordered == []
    ensures i < |u.log.shards| && TakenFrom(u.core.shards[i], u.log.shards[i]) == |u.log.shards[i].line|
  {
    ShardsAreGood(c, u, i);
  }

  /** No queue ever holds more than its capacity. */
  lemma QueuesAreBounded(c: Config, u: State, i: nat)
    requires Reachable(c, u) && i < |u.core.shards|
    ensures |u.core.shards[i].unordered| <= QUEUE_CAPACITY && |u.core.shards[i].ordered| <= QUEUE_CAPACITY
  {
    ShardsAreGood(c, u, i);
  }
}
