/** `sort`, `send` and `eval` of account/txnProcessor.go as methods that run from their first to their last line. Each
    is proved to do exactly what the steps of the transition system do one after the other, and so to keep the
    invariants of the processor; the transition system lets other steps happen in between. */
module ProcessorCode {
  import opened Wrappers
  import opened TxnError
  import opened TxnReqResp
  import opened Protocol
  import opened Conservation
  import opened History
  import opened Runs

  // ---------------------------------------------------------------- calls as sequences of steps

  /** What a call for one request sees, with the history that concerns it. */
  datatype Scene = Scene(p: Spot, l: Log)

  function Play(c: Config, x: Scene, r: Id, op: Op): Scene
    requires CanAct(c, x.p, r, op)
  {
    Scene(AfterAct(c, x.p, r, op), AfterLog(c, x.p, x.l, r, op))
  }

  /** Conservation and locking, the caches, the order and the evidence, as far as they concern one request. */
  ghost predicate SceneSound(c: Config, x: Scene, r: Id) {
    ValidConfig(c) && RequestSound(c, x.p, r) && RequestGood(x.p, x.l, r)
  }

  lemma PlayKeepsSound(c: Config, x: Scene, r: Id, op: Op)
    requires SceneSound(c, x, r) && CanAct(c, x.p, r, op)
    ensures SceneSound(c, Play(c, x, r, op), r)
  {
    ActKeepsRequest(c, x.p, r, op);
    OwnStaysGood(c, x.p, x.l, r, op);
  }

  /** The lock is free, and neither the ordered queue nor the response channel makes `sort` wait. */
  predicate SortCallPossible(p: Spot, r: Id) {
    CanSort(p, r, Lock) && InboxFree(p.job) && HasRoom(p.shard.ordered)
  }

  /** The first half of `sort`: from taking the lock to the decision. */
  function SortDecision(c: Config, x: Scene, r: Id): (y: Scene)
    requires SortCallPossible(x.p, r)
    ensures HasRoom(y.p.shard.ordered) && (y.p.shard.sorter.Pushing? ==> y.p.shard.sorter.id == r)
    ensures y.p.shard.sorter.Pushing? || y.p.shard.sorter == Checking(r) || y.p.shard.sorter == Leaving(r)
  {
    Play(c, Play(c, x, r, Op.Sort(Lock)), r, Op.Sort(Decide))
  }

  /** The refresh of the Eth entry in `sort`. */
  function SortRefresh(c: Config, x: Scene, r: Id, got: Fetched): (y: Scene)
    requires x.p.shard.sorter == Checking(r)
    ensures y.p.shard.sorter == Leaving(r)
  {
    var checked := Play(c, x, r, Op.Sort(Check));
    if checked.p.shard.sorter.Fetching? then Play(c, checked, r, Op.Sort(SortOp.Fetch(got))) else checked
  }

  /** What follows from the decision, still under the lock. */
  function SortFollow(c: Config, x: Scene, r: Id, got: Fetched): (y: Scene)
    requires x.p.shard.sorter.Pushing? ==> x.p.shard.sorter.id == r && HasRoom(x.p.shard.ordered)
    requires x.p.shard.sorter.Checking? ==> x.p.shard.sorter.id == r
    requires !x.p.shard.sorter.Pushing? && !x.p.shard.sorter.Checking? ==> x.p.shard.sorter == Leaving(r)
    ensures y.p.shard.sorter == Leaving(r)
  {
    if x.p.shard.sorter.Pushing? then Play(c, x, r, Op.Sort(Push))
    else if x.p.shard.sorter.Checking? then SortRefresh(c, x, r, got)
    else x
  }

  /** `sort` from taking the lock to releasing it. `got` is what the node answers if the cache is to be refreshed. */
  function SortCall(c: Config, x: Scene, r: Id, got: Fetched): Scene
    requires SortCallPossible(x.p, r)
  {
    Play(c, SortFollow(c, SortDecision(c, x, r), r, got), r, Op.Sort(Unlock))
  }

  lemma SortDecisionKeepsSound(c: Config, x: Scene, r: Id)
    requires SceneSound(c, x, r) && SortCallPossible(x.p, r)
    ensures SceneSound(c, SortDecision(c, x, r), r)
  {
    PlayKeepsSound(c, x, r, Op.Sort(Lock));
    PlayKeepsSound(c, Play(c, x, r, Op.Sort(Lock)), r, Op.Sort(Decide));
  }

  lemma SortCallKeepsSound(c: Config, x: Scene, r: Id, got: Fetched)
    requires SceneSound(c, x, r) && SortCallPossible(x.p, r)
    ensures SceneSound(c, SortCall(c, x, r, got), r)
  {
    var decided := SortDecision(c, x, r);
    SortDecisionKeepsSound(c, x, r);
    if decided.p.shard.sorter.Pushing? {
      PlayKeepsSound(c, decided, r, Op.Sort(Push));
    } else if decided.p.shard.sorter.Checking? {
      SortRefreshKeepsSound(c, decided, r, got);
    }
    PlayKeepsSound(c, SortFollow(c, decided, r, got), r, Op.Sort(Unlock));
  }

  lemma SortRefreshKeepsSound(c: Config, x: Scene, r: Id, got: Fetched)
    requires SceneSound(c, x, r) && x.p.shard.sorter == Checking(r)
    ensures SceneSound(c, SortRefresh(c, x, r, got), r)
  {
    var checked := Play(c, x, r, Op.Sort(Check));
    PlayKeepsSound(c, x, r, Op.Sort(Check));
    if checked.p.shard.sorter.Fetching? {
      PlayKeepsSound(c, checked, r, Op.Sort(SortOp.Fetch(got)));
    }
  }

  /** Submitted at most sixty seconds ago. */
  predicate IsYoung(p: Spot) {
    p.now <= (p.job.timestamp + 60) * 1_000_000_000
  }

  /** One `sort` disposes of the request in exactly one way: it is answered, queued or given to a timer. Apart from that
      it changes nothing but the Eth entry. */
  lemma SortCallDisposes(c: Config, x: Scene, r: Id, got: Fetched)
    requires SortCallPossible(x.p, r)
    ensures var p, q := x.p, SortCall(c, x, r, got).p;
            var tooLow := p.eth.Some? && !p.job.retransmit && p.eth.value.nonce > p.job.nonce;
            var queued := IsYoung(p) && (p.eth.None? || p.eth.value.nonce == p.job.nonce || p.job.retransmit);
            var answered := !IsYoung(p) || tooLow;
            && q.job.inbox == p.job.inbox + (if !IsYoung(p) then [Own(TimeOutError3)]
                                             else if tooLow then [Own(EthNonceTooLow)] else [])
            && q.shard.ordered == p.shard.ordered + (if queued then [r] else [])
            && q.timers == p.timers + (if !answered && !queued then 1 else 0)
            && !(answered && queued)
            && q == p.(shard := p.shard.(lock := Free, sorter := Resting, ordered := q.shard.ordered),
                       job := p.job.(inbox := q.job.inbox), eth := q.eth, timers := q.timers)
  {
  }

  /** What the Eth entry is after one `sort`: the first request of a sender makes it, a match moves it on by one, a
      request that waits refreshes it if it is at least two seconds old, and nothing else touches it. */
  lemma SortCallLeavesEntry(c: Config, x: Scene, r: Id, got: Fetched)
    requires SortCallPossible(x.p, r)
    ensures var p, eth := x.p, SortCall(c, x, r, got).p.eth;
            && (!IsYoung(p) ==> eth == p.eth)
            && (IsYoung(p) && p.eth.None? ==> eth == Some(Entry(p.job.nonce + 1, p.now - 2_000_000_000)))
            && (IsYoung(p) && p.eth.Some? ==>
                  var e := p.eth.value;
                  var waits := !p.job.retransmit && e.nonce < p.job.nonce;
                  && (e.nonce == p.job.nonce ==> eth == Some(Entry(e.nonce + 1, e.updateTime)))
                  && (waits && got.Got? && p.now >= e.updateTime + 2_000_000_000 ==>
                        eth == Some(Entry(got.nonce % 0x1_0000_0000_0000_0000, p.now)))
                  && (waits && (got.Failed? || p.now < e.updateTime + 2_000_000_000) ==> eth == p.eth)
                  && (e.nonce != p.job.nonce && !waits ==> eth == p.eth))
  {
  }

  /** `send` for a request that has passed the breaker. */
  function GoCall(c: Config, x: Scene, r: Id, got: Fetched): Scene
    requires x.p.shard.courier == Passed(r) && InboxFree(x.p.job)
  {
    var gone := Play(c, x, r, Op.Send(Go));
    if gone.p.shard.courier.Asking? then Play(c, gone, r, Op.Send(Ask(got))) else gone
  }

  /** `send` for a request that was just taken. */
  function SendCall(c: Config, x: Scene, r: Id, got: Fetched): Scene
    requires x.p.shard.courier == Taken(r) && InboxFree(x.p.job)
  {
    var tested := Play(c, x, r, Op.Send(TestBreaker));
    if tested.p.shard.courier.Passed? then GoCall(c, tested, r, got) else tested
  }

  /** One `send` either answers the request, for one of three reasons, or starts a call for it: with the breaker on, it
      goes back for reordering and the Near entry is left alone. Nothing else changes. */
  lemma SendCallDisposes(c: Config, x: Scene, r: Id, got: Fetched)
    requires x.p.shard.courier == Taken(r) && InboxFree(x.p.job)
    ensures var p, q := x.p, SendCall(c, x, r, got).p;
            var noNonce := p.near.None? && got.Failed?;
            && q.job.inbox == p.job.inbox + (if p.shard.breaker then [Own(Reorder)]
                                             else if !IsYoung(p) then [Own(TimeOutError3)]
                                             else if noNonce then [Own(NearNonceError)] else [])
            && q.flights == p.flights + (if p.shard.breaker || !IsYoung(p) || noNonce then 0 else 1)
            && (q.near != p.near ==> !p.shard.breaker && IsYoung(p) && !noNonce)
            && (q.flights > p.flights && p.near.Some? ==>
                  q.near == Some(Entry((p.near.value.nonce + 1) % 0x1_0000_0000_0000_0000, p.near.value.updateTime)))
            && (q.flights > p.flights && p.near.None? && got.Got? ==>
                  q.near == Some(Entry((got.nonce + 1) % 0x1_0000_0000_0000_0000, p.now - 2_000_000_000)))
            && q == p.(shard := p.shard.(courier := Waiting), job := p.job.(inbox := q.job.inbox), near := q.near,
                       flights := q.flights)
  {
  }

  lemma GoCallKeepsSound(c: Config, x: Scene, r: Id, got: Fetched)
    requires SceneSound(c, x, r) && x.p.shard.courier == Passed(r) && InboxFree(x.p.job)
    ensures SceneSound(c, GoCall(c, x, r, got), r)
  {
    var gone := Play(c, x, r, Op.Send(Go));
    PlayKeepsSound(c, x, r, Op.Send(Go));
    if gone.p.shard.courier.Asking? {
      PlayKeepsSound(c, gone, r, Op.Send(Ask(got)));
    }
  }

  lemma SendCallKeepsSound(c: Config, x: Scene, r: Id, got: Fetched)
    requires SceneSound(c, x, r) && x.p.shard.courier == Taken(r) && InboxFree(x.p.job)
    ensures SceneSound(c, SendCall(c, x, r, got), r)
  {
    var tested := Play(c, x, r, Op.Send(TestBreaker));
    PlayKeepsSound(c, x, r, Op.Send(TestBreaker));
    if tested.p.shard.courier.Passed? {
      GoCallKeepsSound(c, tested, r, got);
    }
  }

  /** The refresh of the Near entry in `eval`. */
  function NearCall(c: Config, x: Scene, r: Id, got: Fetched): (y: Scene)
    requires At(x.p.job, NearCheck)
    ensures At(y.p.job, EthCheck) && y.p.job.inbox == x.p.job.inbox && y.p.open == x.p.open
  {
    var tested := Play(c, x, r, Eval(TestNear));
    if At(tested.p.job, NearFetch) then Play(c, tested, r, Eval(FetchNear(got))) else tested
  }

  /** The refresh of the Eth entry in `eval`. */
  function EthRefresh(c: Config, x: Scene, r: Id, got: Fetched): (y: Scene)
    requires At(x.p.job, EthCheck)
    ensures At(y.p.job, Unlocking) || (At(y.p.job, Comparing) && y.p.eth.Some?)
    ensures y.p.job.inbox == x.p.job.inbox && y.p.open == x.p.open
  {
    var tested := Play(c, x, r, Eval(TestEth));
    if At(tested.p.job, EthFetch) then Play(c, tested, r, Eval(FetchEth(got))) else tested
  }

  /** That refresh and the decision that it leads to. */
  function EthCall(c: Config, x: Scene, r: Id, got: Fetched): (y: Scene)
    requires At(x.p.job, EthCheck) && InboxFree(x.p.job)
    ensures At(y.p.job, Unlocking) && y.p.open == x.p.open
  {
    var fetched := EthRefresh(c, x, r, got);
    if At(fetched.p.job, Comparing) then Play(c, fetched, r, Eval(Compare)) else fetched
  }

  /** Taking the lock and switching the breaker on. */
  function EnterCall(c: Config, x: Scene, r: Id): (y: Scene)
    requires At(x.p.job, Locking) && x.p.shard.lock == Free
    ensures At(y.p.job, NearCheck) && y.p.job.inbox == x.p.job.inbox && y.p.open == x.p.open
  {
    Play(c, Play(c, x, r, Eval(TakeLock)), r, Eval(Trip))
  }

  /** Releasing the lock and switching the breaker off. */
  function LeaveCall(c: Config, x: Scene, r: Id): (y: Scene)
    requires At(x.p.job, Unlocking)
    ensures At(y.p.job, Concluding) && y.p.open == x.p.open
  {
    Play(c, Play(c, x, r, Eval(ReleaseLock)), r, Eval(Clear))
  }

  /** The part of `eval` between taking the lock and switching the breaker off. */
  function LockedCall(c: Config, x: Scene, r: Id, gotNear: Fetched, gotEth: Fetched): (y: Scene)
    requires At(x.p.job, Locking) && x.p.shard.lock == Free && InboxFree(x.p.job)
    ensures At(y.p.job, Concluding) && y.p.open == x.p.open
  {
    LeaveCall(c, EthCall(c, NearCall(c, EnterCall(c, x, r), r, gotNear), r, gotEth), r)
  }

  predicate EvalCallPossible(c: Config, p: Spot) {
    CanEval(c, p, Receive) && |p.job.inbox| == 1 && p.shard.lock == Free
  }

  /** `eval` on the answer that is waiting, up to its return. */
  function EvalCall(c: Config, x: Scene, r: Id, gotNear: Fetched, gotEth: Fetched): (y: Scene)
    requires EvalCallPossible(c, x.p)
    ensures At(y.p.job, Concluding) && y.p.open == x.p.open
  {
    var received := Play(c, x, r, Eval(Receive));
    if At(received.p.job, Locking) then LockedCall(c, received, r, gotNear, gotEth) else received
  }

  lemma NearCallKeepsSound(c: Config, x: Scene, r: Id, got: Fetched)
    requires SceneSound(c, x, r) && At(x.p.job, NearCheck)
    ensures SceneSound(c, NearCall(c, x, r, got), r)
  {
    var tested := Play(c, x, r, Eval(TestNear));
    PlayKeepsSound(c, x, r, Eval(TestNear));
    if At(tested.p.job, NearFetch) {
      PlayKeepsSound(c, tested, r, Eval(FetchNear(got)));
    }
  }

  lemma EthRefreshKeepsSound(c: Config, x: Scene, r: Id, got: Fetched)
    requires SceneSound(c, x, r) && At(x.p.job, EthCheck)
    ensures SceneSound(c, EthRefresh(c, x, r, got), r)
  {
    var tested := Play(c, x, r, Eval(TestEth));
    PlayKeepsSound(c, x, r, Eval(TestEth));
    if At(tested.p.job, EthFetch) {
      PlayKeepsSound(c, tested, r, Eval(FetchEth(got)));
    }
  }

  lemma EthCallKeepsSound(c: Config, x: Scene, r: Id, got: Fetched)
    requires SceneSound(c, x, r) && At(x.p.job, EthCheck) && InboxFree(x.p.job)
    ensures SceneSound(c, EthCall(c, x, r, got), r)
  {
    var fetched := EthRefresh(c, x, r, got);
    EthRefreshKeepsSound(c, x, r, got);
    if At(fetched.p.job, Comparing) {
      PlayKeepsSound(c, fetched, r, Eval(Compare));
    }
  }

  lemma EnterCallKeepsSound(c: Config, x: Scene, r: Id)
    requires SceneSound(c, x, r) && At(x.p.job, Locking) && x.p.shard.lock == Free
    ensures SceneSound(c, EnterCall(c, x, r), r)
  {
    PlayKeepsSound(c, x, r, Eval(TakeLock));
    PlayKeepsSound(c, Play(c, x, r, Eval(TakeLock)), r, Eval(Trip));
  }

  lemma LeaveCallKeepsSound(c: Config, x: Scene, r: Id)
    requires SceneSound(c, x, r) && At(x.p.job, Unlocking)
    ensures SceneSound(c, LeaveCall(c, x, r), r)
  {
    PlayKeepsSound(c, x, r, Eval(ReleaseLock));
    PlayKeepsSound(c, Play(c, x, r, Eval(ReleaseLock)), r, Eval(Clear));
  }

  lemma EvalCallKeepsSound(c: Config, x: Scene, r: Id, gotNear: Fetched, gotEth: Fetched)
    requires SceneSound(c, x, r) && EvalCallPossible(c, x.p)
    ensures SceneSound(c, EvalCall(c, x, r, gotNear, gotEth), r)
  {
    var received := Play(c, x, r, Eval(Receive));
    PlayKeepsSound(c, x, r, Eval(Receive));
    if At(received.p.job, Locking) {
      var entered := EnterCall(c, received, r);
      EnterCallKeepsSound(c, received, r);
      NearCallKeepsSound(c, entered, r, gotNear);
      EthCallKeepsSound(c, NearCall(c, entered, r, gotNear), r, gotEth);
      LeaveCallKeepsSound(c, EthCall(c, NearCall(c, entered, r, gotNear), r, gotEth), r);
    }
  }

  // ---------------------------------------------------------------- what the refreshes of eval come to

  /** An entry after an attempt to refresh it: nothing happens to a recent one, and a missing one appears. */
  function Refreshed(entry: Option<Entry>, now: int, got: Fetched, nonce: nat): Option<Entry> {
    if entry.Some? && TooSoon(entry.value, now) then entry
    else if got.Got? then Some(Entry(nonce, now))
    else if entry.None? then Some(NewEntry(0, now))
    else entry
  }

  predicate Updated(entry: Option<Entry>, now: int, got: Fetched) {
    !(entry.Some? && TooSoon(entry.value, now)) && got.Got?
  }

  function NonceGot(got: Fetched): nat {
    if got.Got? then got.nonce else 0
  }

  function NearAfter(act: Action, near: Option<Entry>, now: int, got: Fetched): Option<Entry> {
    if act.updateNearCache then Refreshed(near, now, got, (NonceGot(got) + QUEUE_CAPACITY) % WORD) else near
  }

  function EthAfter(act: Action, eth: Option<Entry>, now: int, got: Fetched): Option<Entry> {
    if act.updateEthCache then Refreshed(eth, now, got, NonceGot(got) % WORD) else eth
  }

  /** A refresh went through and has passed the request by. */
  predicate PassedBy(act: Action, eth: Option<Entry>, now: int, got: Fetched, nonce: nat) {
    act.updateEthCache && Updated(eth, now, got) && NonceGot(got) % WORD > nonce
  }

  /** A refresh that is wanted and does not go through forces a retry; one that passes the request by ends it. */
  predicate RetriesAfter(act: Action, eth: Option<Entry>, now: int, got: Fetched, nonce: nat, retry: bool) {
    if act.updateEthCache && !Updated(eth, now, got) then true else !PassedBy(act, eth, now, got, nonce) && retry
  }

  lemma NearCallRefreshes(c: Config, x: Scene, r: Id, got: Fetched)
    requires At(x.p.job, NearCheck)
    ensures NearCall(c, x, r, got).p == x.p.(
              job := ToPoint(x.p.job, EthCheck),
              near := NearAfter(StatusAction(x.p.job.task.verdict.status), x.p.near, x.p.now, got))
  {
  }

  /** A refresh of the Near entry that is wanted, with its history. */
  lemma NearCallWanted(c: Config, x: Scene, r: Id, got: Fetched)
    requires At(x.p.job, NearCheck) && StatusAction(x.p.job.task.verdict.status).updateNearCache
    ensures var due := x.p.near.None? || !TooSoon(x.p.near.value, x.p.now);
            NearCall(c, x, r, got) == Scene(
              x.p.(job := ToPoint(x.p.job, EthCheck),
                   near := Refreshed(x.p.near, x.p.now, got, (NonceGot(got) + QUEUE_CAPACITY) % WORD)),
              if due then AfterEvalLog(c, x.p, x.l, FetchNear(got)) else x.l)
  {
  }

  /** A refresh of the Eth entry that is wanted, with its history. */
  lemma EthRefreshWanted(c: Config, x: Scene, r: Id, got: Fetched)
    requires At(x.p.job, EthCheck) && StatusAction(x.p.job.task.verdict.status).updateEthCache
    ensures var updated := Updated(x.p.eth, x.p.now, got);
            EthRefresh(c, x, r, got) == Scene(
              x.p.(job := if updated then ToPoint(x.p.job, Comparing) else ToExit(x.p.job, true, false),
                   eth := Refreshed(x.p.eth, x.p.now, got, NonceGot(got) % WORD)),
              if updated then AfterEvalLog(c, x.p, x.l, FetchEth(got)) else x.l)
  {
  }

  lemma EthCallDecides(c: Config, x: Scene, r: Id, got: Fetched)
    requires At(x.p.job, EthCheck) && InboxFree(x.p.job) && !x.p.job.task.verdict.synthetic
    ensures var p := x.p;
            var v, act := p.job.task.verdict, StatusAction(p.job.task.verdict.status);
            var synthetic :=
              PassedBy(act, p.eth, p.now, got, p.job.nonce) && p.job.retransmit && v.status == EthNonceError;
            var left := ToExit(p.job, RetriesAfter(act, p.eth, p.now, got, p.job.nonce, v.retry), synthetic);
            EthCall(c, x, r, got).p == p.(
              job := left.(inbox := if synthetic then p.job.inbox + [Own(AnyStatus)] else p.job.inbox),
              eth := EthAfter(act, p.eth, p.now, got))
  {
  }

  /** Under the lock, the entries are refreshed as the table asks for, and the refresh decides about the retry. */
  lemma LockedCallComesTo(c: Config, x: Scene, r: Id, gotNear: Fetched, gotEth: Fetched)
    requires At(x.p.job, Locking) && x.p.shard.lock == Free && InboxFree(x.p.job) && !x.p.job.task.verdict.synthetic
    ensures var p, q := x.p, LockedCall(c, x, r, gotNear, gotEth).p;
            var v, act := p.job.task.verdict, StatusAction(p.job.task.verdict.status);
            && At(q.job, Concluding)
            && q.job.task.verdict.status == v.status && q.job.task.verdict.success == v.success
            && q == p.(shard := p.shard.(breaker := false), job := p.job.(task := q.job.task, inbox := q.job.inbox),
                       near := NearAfter(act, p.near, p.now, gotNear), eth := EthAfter(act, p.eth, p.now, gotEth))
            && q.job.task.verdict.retry == RetriesAfter(act, p.eth, p.now, gotEth, p.job.nonce, v.retry)
  {
    var entered := EnterCall(c, x, r);
    var near := NearCall(c, entered, r, gotNear);
    NearCallRefreshes(c, entered, r, gotNear);
    EthCallDecides(c, near, r, gotEth);
    LeaveCallLeaves(c, EthCall(c, near, r, gotEth), r);
  }

  lemma LeaveCallLeaves(c: Config, x: Scene, r: Id)
    requires At(x.p.job, Unlocking)
    ensures LeaveCall(c, x, r).p
         == x.p.(shard := x.p.shard.(lock := Free, breaker := false), job := ToPoint(x.p.job, Concluding))
  {
  }

  /** What the receive of a judged answer leaves. */
  lemma ReceiveJudges(c: Config, x: Scene, r: Id)
    requires CanEval(c, x.p, Receive) && |x.p.job.inbox| == 1
    ensures var p, q, j := x.p, Play(c, x, r, Eval(Receive)).p, c.judge(x.p.job.inbox[0]);
            var status := if j.Judged? then j.status else AnyStatus;
            var act := StatusAction(status);
            q == p.(job := p.job.(
              inbox := [], retransmit := p.job.retransmit || (j.Judged? && j.marks),
              task := Evaluating(if act.TakesLock() then Locking else Concluding,
                                 Verdict(status, j.Succeeds?, act.retry, false))))
  {
  }

  /** One `eval` ends with the lock free, the breaker off if it took the lock, the entries refreshed as the table asks
      for, and a retry as the table and the refresh decide; the status is that of the judgement, which alone can say
      that the call succeeded. Nothing else changes. */
  lemma EvalCallComesTo(c: Config, x: Scene, r: Id, gotNear: Fetched, gotEth: Fetched)
    requires EvalCallPossible(c, x.p)
    ensures var p, q, j := x.p, EvalCall(c, x, r, gotNear, gotEth).p, c.judge(x.p.job.inbox[0]);
            var status := if j.Judged? then j.status else AnyStatus;
            var act, v := StatusAction(status), q.job.task.verdict;
            && At(q.job, Concluding) && v.status == status && v.success == j.Succeeds?
            && v.retry == RetriesAfter(act, p.eth, p.now, gotEth, p.job.nonce, act.retry)
            && q == p.(shard := p.shard.(breaker := p.shard.breaker && !act.TakesLock()),
                       job := p.job.(task := q.job.task, inbox := q.job.inbox,
                                     retransmit := p.job.retransmit || (j.Judged? && j.marks)),
                       near := NearAfter(act, p.near, p.now, gotNear),
                       eth := EthAfter(act, p.eth, p.now, gotEth))
            && (!act.TakesLock() ==> q.job.inbox == [])
  {
    var received := Play(c, x, r, Eval(Receive));
    ReceiveJudges(c, x, r);
    if At(received.p.job, Locking) {
      LockedCallComesTo(c, received, r, gotNear, gotEth);
    }
  }

  // ---------------------------------------------------------------- one round of a request

  /** `eval` and what the goroutine of `Submit` does with its result. */
  function RoundCall(c: Config, x: Scene, r: Id, gotNear: Fetched, gotEth: Fetched): Scene
    requires EvalCallPossible(c, x.p) && x.p.open
  {
    Play(c, EvalCall(c, x, r, gotNear, gotEth), r, Eval(Conclude))
  }

  lemma RoundCallKeepsSound(c: Config, x: Scene, r: Id, gotNear: Fetched, gotEth: Fetched)
    requires SceneSound(c, x, r) && EvalCallPossible(c, x.p) && x.p.open
    ensures SceneSound(c, RoundCall(c, x, r, gotNear, gotEth), r)
  {
    EvalCallKeepsSound(c, x, r, gotNear, gotEth);
    PlayKeepsSound(c, EvalCall(c, x, r, gotNear, gotEth), r, Eval(Conclude));
  }

  /** Whether an answer with this status is a reason to try again: out of order or timed out, always; with a look at
      the chain, if that look is not possible now, or if it shows that the nonce is still good and a nonce was the
      trouble. */
  predicate IsWorthRetrying(status: Status, eth: Option<Entry>, now: int, got: Fetched, nonce: nat) {
    var looks := || IsNonceStatus(status) || status.UnhandledError? || status.AuroraContractPanicked?
                 || status.TimeOutError1? || status.TimeOutError2?;
    || status.Reorder?
    || status.NearTimeOutError?
    || (looks && (got.Failed? || (eth.Some? && now < eth.value.updateTime + 2_000_000_000)))
    || (IsNonceStatus(status) && got.Got? && got.nonce % 0x1_0000_0000_0000_0000 <= nonce)
  }

  lemma RetryingIsWorthIt(status: Status, eth: Option<Entry>, now: int, got: Fetched, nonce: nat)
    ensures RetriesAfter(StatusAction(status), eth, now, got, nonce, StatusAction(status).retry)
       <==> IsWorthRetrying(status, eth, now, got, nonce)
  {
    WhatStatusesAskFor(status);
  }

  /** The end of a round, for the value that `eval` returned. */
  lemma ConcludeComesTo(c: Config, x: Scene, r: Id)
    requires At(x.p.job, Concluding) && x.p.open
    ensures var p, q := x.p, Play(c, x, r, Eval(Conclude)).p;
            var v := p.job.task.verdict;
            if v.retry && |p.shard.unordered| < 100 then
              q == p.(shard := p.shard.(unordered := p.shard.unordered + [r]), job := p.job.(task := Listening))
            else q == p.(job := p.job.(task := Finished(v, v.retry)))
  {
  }

  /** One round: the request goes back to the end of the unordered queue if and only if its answer is a reason to try
      again and there is room; otherwise it is finished, as refused if it would have gone back. */
  lemma RoundComesTo(c: Config, x: Scene, r: Id, gotNear: Fetched, gotEth: Fetched)
    requires EvalCallPossible(c, x.p) && x.p.open
    ensures var p, q, j := x.p, RoundCall(c, x, r, gotNear, gotEth).p, c.judge(x.p.job.inbox[0]);
            var again := j.Judged? && IsWorthRetrying(j.status, p.eth, p.now, gotEth, p.job.nonce);
            && (q.job.task == Listening <==> again && |p.shard.unordered| < 100)
            && q.shard.unordered == p.shard.unordered + (if again && |p.shard.unordered| < 100 then [r] else [])
            && (q.job.task != Listening ==>
                  q.job.task.Finished? && q.job.task.refused == again && q.job.task.verdict.success == j.Succeeds?)
  {
    var j := c.judge(x.p.job.inbox[0]);
    EvalCallComesTo(c, x, r, gotNear, gotEth);
    ConcludeComesTo(c, EvalCall(c, x, r, gotNear, gotEth), r);
    RetryingIsWorthIt(if j.Judged? then j.status else AnyStatus, x.p.eth, x.p.now, gotEth, x.p.job.nonce);
  }

  /** A request that was sent out of order, or whose call timed out, goes back whenever there is room, without a look at
      the chain and without the lock; the time-out marks it for retransmission. */
  lemma ReorderedAndTimedOutGoBack(c: Config, x: Scene, r: Id, gotNear: Fetched, gotEth: Fetched)
    requires EvalCallPossible(c, x.p) && x.p.open && |x.p.shard.unordered| < 100
    requires var j := c.judge(x.p.job.inbox[0]); j.Judged? && (j.status.Reorder? || j.status.NearTimeOutError?)
    ensures var p, q, j := x.p, RoundCall(c, x, r, gotNear, gotEth).p, c.judge(x.p.job.inbox[0]);
            q == p.(shard := p.shard.(unordered := p.shard.unordered + [r]),
                    job := p.job.(inbox := [], task := Listening, retransmit := p.job.retransmit || j.marks))
  {
    var j, q := c.judge(x.p.job.inbox[0]), EvalCall(c, x, r, gotNear, gotEth).p;
    WhatStatusesAskFor(j.status);
    EvalCallComesTo(c, x, r, gotNear, gotEth);
    assert q == x.p.(job := x.p.job.(inbox := [], task := q.job.task, retransmit := x.p.job.retransmit || j.marks));
    ConcludeComesTo(c, EvalCall(c, x, r, gotNear, gotEth), r);
  }

  // ---------------------------------------------------------------- the code

  /** The part of the processor that a call for one request reaches: the fields of its shard, the cache entries of its
      sender and its key, and the request itself. `sorter`, `courier` and `task` stand for how far the two workers and
      the goroutine of the request have got. */
  class Reach {
    const id: Id
    var now: int
    const open: bool

    var retryMutex: Owner
    var circuitBreaker: bool
    var unordered: seq<Id>
    var ordered: seq<Id>
    var sorter: Sorter
    var courier: Courier
    var ethNonce: Option<Entry>
    var nearNonce: Option<Entry>

    const index: nat
    const timestamp: nat
    const nonce: nat
    const sender: Address
    var retransmit: bool
    var respChan: seq<Answer>
    var task: Task

    var submitting: nat
    var timers: nat
    var flights: nat
    ghost var log: Log

    ghost function View(): Spot
      reads this
    {
      Spot(now, Shard(retryMutex, circuitBreaker, unordered, ordered, sorter, courier),
           Job(index, timestamp, nonce, sender, retransmit, respChan, task), ethNonce, nearNonce,
           submitting, timers, flights, open)
    }

    ghost function Seen(): Scene
      reads this
    {
      Scene(View(), log)
    }

    /** Takes a request into view. */
    constructor (p: Spot, r: Id, ghost l: Log)
      ensures Seen() == Scene(p, l) && id == r
    {
      log := l;
      id, now, open := r, p.now, p.open;
      retryMutex, circuitBreaker := p.shard.lock, p.shard.breaker;
      unordered, ordered := p.shard.unordered, p.shard.ordered;
      sorter, courier, ethNonce, nearNonce := p.shard.sorter, p.shard.courier, p.eth, p.near;
      index, timestamp, nonce, sender := p.job.index, p.job.timestamp, p.job.nonce, p.job.sender;
      retransmit, respChan, task := p.job.retransmit, p.job.inbox, p.job.task;
      submitting, timers, flights := p.submitting, p.timers, p.flights;
    }

    predicate IsExpired()
      reads this
    {
      now > timestamp * SECOND + TIMEOUT
    }

    /** Pushes onto the response channel, which has to be free for that. */
    method RespondWithStatus(status: Status)
      requires |respChan| < 1
      modifies this`respChan
      ensures respChan == old(respChan) + [Own(status)]
    {
      respChan := respChan + [Own(status)];
    }

    /** `updateEthNonceCache`: whether the entry was updated, and whether the node failed. An entry is refreshed if
        and only if it is at least two seconds old and the node answers. */
    method UpdateEthNonceCache(got: Fetched) returns (updated: bool, err: bool)
      modifies this`ethNonce
      ensures var due := old(ethNonce).None? || !TooSoon(old(ethNonce).value, now);
              && updated == (due && got.Got?)
              && err == (due && got.Failed?)
              && (updated ==> ethNonce == Some(Entry(got.nonce % WORD, now)))
              && (!updated ==> ethNonce == if old(ethNonce).None? then Some(NewEntry(0, now)) else old(ethNonce))
    {
      if ethNonce.Some? {
        if now < ethNonce.value.updateTime + MIN_UPDATE_INTERVAL {
          return false, false;
        }
      } else {
        ethNonce := Some(Entry(0, now - MIN_UPDATE_INTERVAL));
      }
      if got.Failed? {
        return false, true;
      }
      ethNonce := Some(Entry(got.nonce % WORD, now));
      return true, false;
    }

    /** `updateNearNonceCache`; its caller ignores the error. */
    method UpdateNearNonceCache(got: Fetched)
      modifies this`nearNonce
      ensures var due := old(nearNonce).None? || !TooSoon(old(nearNonce).value, now);
              if due && got.Got? then nearNonce == Some(Entry((got.nonce + QUEUE_CAPACITY) % WORD, now))
              else nearNonce == if old(nearNonce).None? then Some(NewEntry(0, now)) else old(nearNonce)
    {
      if nearNonce.Some? {
        if now < nearNonce.value.updateTime + MIN_UPDATE_INTERVAL {
          return;
        }
      } else {
        nearNonce := Some(Entry(0, now - MIN_UPDATE_INTERVAL));
      }
      if got.Got? {
        nearNonce := Some(Entry((got.nonce + QUEUE_CAPACITY) % WORD, now));
      }
    }

    /** `nextNearNonce`: the next nonce, or nothing if it is not cached and the node fails. Every call that succeeds
        leaves its own result in the cache, so that the next one yields the successor. */
    method NextNearNonce(got: Fetched) returns (next: Option<nat>)
      modifies this`nearNonce
      ensures next.None? <==> old(nearNonce).None? && got.Failed?
      ensures next.None? ==> nearNonce == old(nearNonce)
      ensures next.Some? ==> nearNonce.Some? && nearNonce.value.nonce == next.value < WORD
      ensures old(nearNonce).Some? ==> nearNonce == Some(NextNear(old(nearNonce).value))
      ensures old(nearNonce).None? && got.Got? ==> nearNonce == Some(NewEntry((got.nonce + 1) % WORD, now))
    {
      if nearNonce.None? {
        if got.Failed? {
          return None;
        }
        nearNonce := Some(Entry((got.nonce + 1) % WORD, now - MIN_UPDATE_INTERVAL));
      } else {
        nearNonce := Some(Entry((nearNonce.value.nonce + 1) % WORD, nearNonce.value.updateTime));
      }
      return Some(nearNonce.value.nonce);
    }

    /** The refresh that `sort` triggers for a request whose nonce is high; its outcome is ignored. */
    method TriggerUpdate(ghost c: Config, got: Fetched)
      requires sorter == Checking(id)
      modifies this`ethNonce, this`sorter, this`log
      ensures Seen() == SortRefresh(c, old(Seen()), id, got)
    {
      var updated, err := UpdateEthNonceCache(got);
      log := if updated then AfterSortLog(View(), log, id, SortOp.Fetch(got)) else log;
      sorter := Leaving(id);
    }

    /** The decision of `sort`. All three branches that let the request through lead to the same push, and to that
        alone. */
    method Decide(ghost c: Config)
      requires sorter == Deciding(id) && |respChan| < 1
      modifies this`sorter, this`ethNonce, this`respChan, this`timers, this`log
      ensures Seen() == Play(c, old(Seen()), id, Op.Sort(SortOp.Decide))
      ensures sorter == Leaving(id) || sorter == Checking(id) || (sorter.Pushing? && sorter.id == id)
    {
      log := AfterSortLog(View(), log, id, SortOp.Decide);
      if IsExpired() {
        RespondWithStatus(TimeOutError3);
        sorter := Leaving(id);
      } else if ethNonce.None? {
        ethNonce := Some(NewEntry(nonce + 1, now));
        sorter := Pushing(id, true);
      } else if ethNonce.value.nonce == nonce {
        ethNonce := Some(Entry(ethNonce.value.nonce + 1, ethNonce.value.updateTime));
        sorter := Pushing(id, true);
      } else if retransmit {
        sorter := Pushing(id, false);
      } else if ethNonce.value.nonce > nonce {
        RespondWithStatus(EthNonceTooLow);
        sorter := Leaving(id);
      } else {
        timers := timers + 1;
        sorter := Checking(id);
      }
    }

    /** The push and the refresh that follow from the decision. */
    method Follow(ghost c: Config, got: Fetched)
      requires sorter == Leaving(id) || sorter == Checking(id) || (sorter.Pushing? && sorter.id == id)
      requires HasRoom(ordered)
      modifies this`sorter, this`ordered, this`ethNonce, this`log
      ensures Seen() == SortFollow(c, old(Seen()), id, got)
      ensures sorter == Leaving(id)
    {
      if sorter.Pushing? {
        ordered, sorter := ordered + [id], Leaving(id);
      } else if sorter.Checking? {
        TriggerUpdate(c, got);
      }
    }

    method LockForSort(ghost c: Config)
      requires retryMutex == Free && sorter == Wanting(id)
      modifies this`retryMutex, this`sorter
      ensures Seen() == Play(c, old(Seen()), id, Op.Sort(SortOp.Lock))
      ensures sorter == Deciding(id)
    {
      retryMutex, sorter := BySorter, Deciding(id);
    }

    method UnlockAfterSort(ghost c: Config)
      requires sorter == Leaving(id)
      modifies this`retryMutex, this`sorter
      ensures Seen() == Play(c, old(Seen()), id, Op.Sort(SortOp.Unlock))
    {
      retryMutex, sorter := Free, Resting;
    }

    /** `sort`. */
    method Sort(ghost c: Config, got: Fetched)
      requires SortCallPossible(View(), id)
      modifies this`retryMutex, this`sorter, this`ordered, this`ethNonce, this`respChan, this`timers, this`log
      ensures Seen() == SortCall(c, old(Seen()), id, got)
      ensures old(SceneSound(c, Seen(), id)) ==> SceneSound(c, Seen(), id)
      ensures var young, e := now <= (timestamp + 60) * 1_000_000_000, old(ethNonce);
              var tooLow := e.Some? && !retransmit && e.value.nonce > nonce;
              var queued := young && (e.None? || e.value.nonce == nonce || retransmit);
              && respChan == old(respChan) + (if !young then [Own(TimeOutError3)]
                                              else if tooLow then [Own(EthNonceTooLow)] else [])
              && ordered == old(ordered) + (if queued then [id] else [])
              && timers == old(timers) + (if young && !tooLow && !queued then 1 else 0)
    {
      ghost var x := Seen();
      LockForSort(c);
      Decide(c);
      Follow(c, got);
      UnlockAfterSort(c);
      assert Seen() == SortCall(c, x, id, got);
      SortCallDisposes(c, x, id, got);
      if SceneSound(c, x, id) {
        SortCallKeepsSound(c, x, id, got);
      }
    }

    /** The end of `send`: the next Near nonce and the call, or an answer if there is none. */
    method CallNear(ghost c: Config, got: Fetched)
      requires |respChan| < 1 && !IsExpired()
      requires if nearNonce.None? then courier == Asking(id) else courier == Passed(id)
      modifies this`courier, this`nearNonce, this`respChan, this`flights, this`log
      ensures Seen() == Play(c, old(Seen()), id, Op.Send(if old(nearNonce).None? then Ask(got) else Go))
    {
      if nearNonce.None? {
        log := AfterSendLog(View(), log, id, Ask(got));
      } else {
        log := AfterSendLog(View(), log, id, Go);
      }
      var next := NextNearNonce(got);
      courier := Waiting;
      if next.None? {
        RespondWithStatus(NearNonceError);
        return;
      }
      flights := flights + 1;
    }

    /** `send` after the look at the breaker. */
    method SendUnbroken(ghost c: Config, got: Fetched)
      requires courier == Passed(id) && |respChan| < 1
      modifies this`courier, this`nearNonce, this`respChan, this`flights, this`log
      ensures Seen() == GoCall(c, old(Seen()), id, got)
    {
      if IsExpired() {
        RespondWithStatus(TimeOutError3);
        courier := Waiting;
        return;
      }
      if nearNonce.None? {
        courier := Asking(id);
      }
      CallNear(c, got);
    }

    /** `send`. */
    method Send(ghost c: Config, got: Fetched)
      requires courier == Taken(id) && |respChan| < 1
      modifies this`courier, this`nearNonce, this`respChan, this`flights, this`log
      ensures Seen() == SendCall(c, old(Seen()), id, got)
      ensures old(SceneSound(c, Seen(), id)) ==> SceneSound(c, Seen(), id)
      ensures var young := now <= (timestamp + 60) * 1_000_000_000;
              var noNonce := old(nearNonce).None? && got.Failed?;
              && respChan == old(respChan) + (if circuitBreaker then [Own(Reorder)]
                                              else if !young then [Own(TimeOutError3)]
                                              else if noNonce then [Own(NearNonceError)] else [])
              && flights == old(flights) + (if circuitBreaker || !young || noNonce then 0 else 1)
    {
      ghost var x := Seen();
      if circuitBreaker {
        RespondWithStatus(Reorder);
        courier := Waiting;
      } else {
        courier := Passed(id);
        SendUnbroken(c, got);
      }
      assert Seen() == SendCall(c, x, id, got);
      SendCallDisposes(c, x, id, got);
      if SceneSound(c, x, id) {
        SendCallKeepsSound(c, x, id, got);
      }
    }

    /** The receive and the first half of `eval`. `judge` stands for the reading of the answer, which `Judge` spells
        out. */
    method Receive(c: Config) returns (act: Action)
      requires CanEval(c, View(), EvalOp.Receive) && |respChan| == 1
      modifies this`respChan, this`retransmit, this`task, this`log
      ensures Seen() == Play(c, old(Seen()), id, Op.Eval(EvalOp.Receive))
      ensures respChan == [] && task.Evaluating? && act == StatusAction(task.verdict.status)
      ensures task.point == if act.TakesLock() then Locking else Concluding
    {
      log := AfterEvalLog(c, View(), log, EvalOp.Receive);
      var answer := respChan[0];
      respChan := [];
      match c.judge(answer) {
        case Succeeds =>
          act := StatusAction(AnyStatus);
          task := Evaluating(Concluding, Verdict(AnyStatus, true, act.retry, false));
        case Judged(status, marks) =>
          if marks {
            retransmit := true;
          }
          act := StatusAction(status);
          task := Evaluating(if act.TakesLock() then Locking else Concluding, Verdict(status, false, act.retry, false));
      }
    }

    /** The refresh of the Near entry in `eval` where it is wanted. */
    method RefreshWantedNear(ghost c: Config, got: Fetched)
      requires task.Evaluating? && task.point.NearCheck? && StatusAction(task.verdict.status).updateNearCache
      modifies this`nearNonce, this`task, this`log
      ensures Seen() == NearCall(c, old(Seen()), id, got)
      ensures task == Evaluating(EthCheck, old(task.verdict))
    {
      NearCallWanted(c, Seen(), id, got);
      if nearNonce.None? || !TooSoon(nearNonce.value, now) {
        log := AfterEvalLog(c, View(), log, FetchNear(got));
      }
      UpdateNearNonceCache(got);
      task := Evaluating(EthCheck, task.verdict);
    }

    /** The refresh of the Near entry in `eval`. */
    method RefreshNear(ghost c: Config, act: Action, got: Fetched)
      requires task.Evaluating? && task.point.NearCheck? && act == StatusAction(task.verdict.status)
      modifies this`nearNonce, this`task, this`log
      ensures Seen() == NearCall(c, old(Seen()), id, got)
      ensures task == Evaluating(EthCheck, old(task.verdict))
    {
      if act.updateNearCache {
        RefreshWantedNear(c, got);
      } else {
        task := Evaluating(EthCheck, task.verdict);
      }
    }

    /** The refresh of the Eth entry in `eval` where it is wanted: whether it went through. */
    method RefreshWantedEth(ghost c: Config, got: Fetched) returns (updated: bool)
      requires task.Evaluating? && task.point.EthCheck? && StatusAction(task.verdict.status).updateEthCache
      modifies this`ethNonce, this`task, this`log
      ensures Seen() == EthRefresh(c, old(Seen()), id, got)
      ensures task.Evaluating? && task.point == if updated then Comparing else Unlocking
      ensures updated ==> ethNonce.Some?
    {
      EthRefreshWanted(c, Seen(), id, got);
      var v, err := task.verdict, false;
      updated, err := UpdateEthNonceCache(got);
      if err || !updated {
        task := Evaluating(Unlocking, Verdict(v.status, v.success, true, false));
      } else {
        log := AfterEvalLog(c, View(), log, FetchEth(got));
        task := Evaluating(Comparing, v);
      }
    }

    /** The refresh of the Eth entry in `eval`: whether its outcome is to be compared with the request. A refresh that
        is wanted and does not go through forces a retry. */
    method RefreshEth(ghost c: Config, act: Action, got: Fetched) returns (compare: bool)
      requires task.Evaluating? && task.point.EthCheck? && act == StatusAction(task.verdict.status)
      modifies this`ethNonce, this`task, this`log
      ensures Seen() == EthRefresh(c, old(Seen()), id, got)
      ensures task.Evaluating? && task.point == if compare then Comparing else Unlocking
      ensures compare ==> ethNonce.Some?
    {
      if act.updateEthCache {
        compare := RefreshWantedEth(c, got);
      } else {
        var v := task.verdict;
        task := Evaluating(Unlocking, Verdict(v.status, v.success, v.retry, false));
        compare := false;
      }
    }

    /** What follows from a refresh that went through: a request that it has passed by gives up, and succeeds after all
        if it was retransmitted and the answer was an Eth nonce error. */
    method CompareNonces(ghost c: Config) returns (retry: bool)
      requires task.Evaluating? && task.point.Comparing? && ethNonce.Some? && respChan == []
      modifies this`respChan, this`task
      ensures Seen() == Play(c, old(Seen()), id, Op.Eval(Compare))
      ensures task.Evaluating? && task.point.Unlocking? && retry == task.verdict.retry
    {
      var v, synthetic := task.verdict, false;
      retry := v.retry;
      if ethNonce.value.nonce > nonce {
        if retransmit && v.status == EthNonceError {
          RespondWithStatus(AnyStatus);
          synthetic := true;
        }
        retry := false;
      }
      task := Evaluating(Unlocking, Verdict(v.status, v.success, retry, synthetic));
    }

    /** The refresh of the Eth entry in `eval` and what follows from it. */
    method RefreshAndDecide(ghost c: Config, act: Action, got: Fetched) returns (retry: bool)
      requires task.Evaluating? && task.point.EthCheck? && act == StatusAction(task.verdict.status) && respChan == []
      modifies this`ethNonce, this`respChan, this`task, this`log
      ensures Seen() == EthCall(c, old(Seen()), id, got)
      ensures task.Evaluating? && task.point.Unlocking? && retry == task.verdict.retry
    {
      var compare := RefreshEth(c, act, got);
      retry := task.verdict.retry;
      if compare {
        retry := CompareNonces(c);
      }
    }

    /** Taking the lock in `eval`. */
    method Enter(ghost c: Config)
      requires task.Evaluating? && task.point.Locking? && retryMutex == Free
      modifies this`retryMutex, this`circuitBreaker, this`task
      ensures Seen() == EnterCall(c, old(Seen()), id)
      ensures task == Evaluating(NearCheck, old(task.verdict))
    {
      retryMutex := ByTask(id);
      circuitBreaker := true;
      task := Evaluating(NearCheck, task.verdict);
    }

    method Release(ghost c: Config)
      requires task.Evaluating? && task.point.Unlocking?
      modifies this`retryMutex, this`task
      ensures Seen() == Play(c, old(Seen()), id, Op.Eval(ReleaseLock))
      ensures task == Evaluating(Clearing, old(task.verdict))
    {
      retryMutex := Free;
      task := Evaluating(Clearing, task.verdict);
    }

    method ClearBreaker(ghost c: Config)
      requires task.Evaluating? && task.point.Clearing?
      modifies this`circuitBreaker, this`task
      ensures Seen() == Play(c, old(Seen()), id, Op.Eval(Clear))
      ensures task == Evaluating(Concluding, old(task.verdict))
    {
      circuitBreaker := false;
      task := Evaluating(Concluding, task.verdict);
    }

    /** The deferred function of `eval`. */
    method Leave(ghost c: Config)
      requires task.Evaluating? && task.point.Unlocking?
      modifies this`retryMutex, this`circuitBreaker, this`task
      ensures Seen() == LeaveCall(c, old(Seen()), id)
      ensures task == Evaluating(Concluding, old(task.verdict))
    {
      Release(c);
      ClearBreaker(c);
    }

    /** The second half of `eval`, for an action that takes the lock. */
    method EvalLocked(ghost c: Config, act: Action, gotNear: Fetched, gotEth: Fetched) returns (retry: bool)
      requires task.Evaluating? && task.point.Locking? && act == StatusAction(task.verdict.status)
      requires retryMutex == Free && respChan == []
      modifies this`retryMutex, this`circuitBreaker, this`nearNonce, this`ethNonce, this`respChan, this`task, this`log
      ensures Seen() == LockedCall(c, old(Seen()), id, gotNear, gotEth)
      ensures task.Evaluating? && retry == task.verdict.retry
    {
      Enter(c);
      RefreshNear(c, act, gotNear);
      retry := RefreshAndDecide(c, act, gotEth);
      Leave(c);
    }

    /** `eval`, with the receive before it. */
    method Eval(c: Config, gotNear: Fetched, gotEth: Fetched) returns (retry: bool)
      requires EvalCallPossible(c, View())
      modifies this`retryMutex, this`circuitBreaker, this`nearNonce, this`ethNonce, this`retransmit, this`respChan,
        this`task, this`log
      ensures Seen() == EvalCall(c, old(Seen()), id, gotNear, gotEth)
      ensures task.Evaluating? && task.point.Concluding? && retry == task.verdict.retry
      ensures old(SceneSound(c, Seen(), id)) ==> SceneSound(c, Seen(), id)
    {
      ghost var x := Seen();
      var act := Receive(c);
      if act.updateNearCache || act.updateEthCache || act.backoffMs != 0 {
        retry := EvalLocked(c, act, gotNear, gotEth);
      } else {
        retry := act.retry;
      }
      assert Seen() == EvalCall(c, x, id, gotNear, gotEth);
      assert SceneSound(c, x, id) ==> SceneSound(c, Seen(), id) by {
        if SceneSound(c, x, id) {
          EvalCallKeepsSound(c, x, id, gotNear, gotEth);
        }
      }
    }

    /** The push onto the unordered queue that does not wait. */
    method TryEnqueue() returns (ok: bool)
      modifies this`unordered
      ensures ok <==> |old(unordered)| < 100
      ensures unordered == old(unordered) + (if ok then [id] else [])
    {
      ok := |unordered| < QUEUE_CAPACITY;
      if ok {
        unordered := unordered + [id];
      }
    }

    /** What the goroutine of `Submit` does with the result of `eval`: whether it goes on listening. It tries to put the
        request back if there is to be a retry; a full queue refuses it. */
    method Finish(ghost c: Config, retry: bool) returns (again: bool)
      requires task.Evaluating? && task.point.Concluding? && retry == task.verdict.retry && open
      modifies this`unordered, this`task
      ensures Seen() == Play(c, old(Seen()), id, Op.Eval(Conclude))
      ensures again <==> task == Listening
      ensures again <==> retry && |old(unordered)| < 100
      ensures unordered == old(unordered) + (if again then [id] else [])
    {
      again := false;
      if retry {
        again := TryEnqueue();
      }
      task := if again then Listening else Finished(task.verdict, retry);
    }

    /** One round of the goroutine that `Submit` starts: whether it goes on listening. */
    method Round(c: Config, gotNear: Fetched, gotEth: Fetched) returns (again: bool)
      requires EvalCallPossible(c, View()) && open
      modifies this`retryMutex, this`circuitBreaker, this`unordered, this`nearNonce, this`ethNonce, this`retransmit,
        this`respChan, this`task, this`log
      ensures Seen() == RoundCall(c, old(Seen()), id, gotNear, gotEth)
      ensures old(SceneSound(c, Seen(), id)) ==> SceneSound(c, Seen(), id)
      ensures again <==> task == Listening
      ensures var j := c.judge(old(respChan[0]));
              var worth := j.Judged? && IsWorthRetrying(j.status, old(ethNonce), now, gotEth, nonce);
              && (again <==> worth && |old(unordered)| < 100)
              && unordered == old(unordered) + (if again then [id] else [])
    {
      ghost var x := Seen();
      RoundComesTo(c, x, id, gotNear, gotEth);
      var retry := Eval(c, gotNear, gotEth);
      again := Finish(c, retry);
      assert Seen() == RoundCall(c, x, id, gotNear, gotEth);
      if SceneSound(c, x, id) {
        RoundCallKeepsSound(c, x, id, gotNear, gotEth);
      }
    }
  }
}
