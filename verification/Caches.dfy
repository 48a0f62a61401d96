/** The two nonce caches: entries exist when they are needed, and no entry is refreshed twice within two seconds. */
module Caches {
  import opened Wrappers
  import opened TxnError
  import opened TxnReqResp
  import opened Protocol
  import opened Conservation
  import opened History

  /** A request that has passed an unexpired `sort` shows it by where it is or by the answer it got. */
  predicate PassedSort(p: Spot, r: Id) {
    || p.timers > 0
    || (SorterAbout(p.shard.sorter, r)
        && (p.shard.sorter.Pushing? || p.shard.sorter.Checking? || p.shard.sorter.Fetching?))
    || multiset(p.shard.ordered)[r] > 0
    || HeldByCourier(p.shard.courier, r) > 0
    || p.flights > 0
    || (p.job.task.Listening? && p.job.inbox != [] && p.job.inbox[0] != Own(TimeOutError3))
    || (p.job.task.Evaluating? && p.job.task.verdict.status != TimeOutError3)
  }

  /** A request whose answer may ask for a refresh of the Near entry. */
  predicate WasSent(p: Spot) {
    || p.flights > 0
    || (p.job.task.Listening? && p.job.inbox != [] && p.job.inbox[0].Node?)
    || (p.job.task.Evaluating?
        && (StatusAction(p.job.task.verdict.status).updateNearCache || p.job.task.point.NearFetch?))
  }

  predicate Spaced(log: seq<Refresh>) {
    forall k :: 0 < k < |log| ==> log[k - 1].time + MIN_UPDATE_INTERVAL <= log[k].time
  }

  /** The entry carries the time of the last refresh. */
  predicate Dated(entry: Option<Entry>, log: seq<Refresh>, now: int) {
    && (entry.None? ==> log == [])
    && (log != [] && entry.Some? ==> entry.value.updateTime == log[|log| - 1].time)
    && (entry.Some? ==> entry.value.updateTime <= now)
  }

  /** A refresh under way is one that the last refresh allows. */
  predicate Due(entry: Option<Entry>, now: int) {
    entry.Some? && !TooSoon(entry.value, now)
  }

  /** The entries are there when a request needs them. */
  predicate Present(p: Spot, r: Id) {
    && (PassedSort(p, r) ==> p.eth.Some?)
    && (WasSent(p) ==> p.near.Some?)
    && (p.shard.courier == Asking(r) ==> p.near.None?)
  }

  /** Refreshes of the sender's Eth entry keep their distance. */
  predicate EthRated(p: Spot, l: Log, r: Id) {
    && Spaced(l.ethLog) && Dated(p.eth, l.ethLog, p.now)
    && (p.shard.sorter == Fetching(r) ==> Due(p.eth, p.now))
    && (At(p.job, EthFetch) ==> Due(p.eth, p.now))
  }

  /** Refreshes of the key's Near entry keep their distance. */
  predicate NearRated(p: Spot, l: Log) {
    && Spaced(l.shard.nearLog) && Dated(p.near, l.shard.nearLog, p.now)
    && (At(p.job, NearFetch) ==> Due(p.near, p.now))
  }

  predicate CacheSound(p: Spot, l: Log, r: Id) {
    Present(p, r) && EthRated(p, l, r) && NearRated(p, l)
  }

  /** What a step of r may do to what other requests see: the Eth entry of its sender only with the shard lock, the Near
      entry only by counting up, unless it holds the lock or is the first send of all. */
  predicate Careful(p: Spot, l: Log, p': Spot, l': Log, r: Id) {
    && (p.shard.lock == ByTask(r) || (p.shard.lock == BySorter && SorterAbout(p.shard.sorter, r))
        || (p'.eth == p.eth && l'.ethLog == l.ethLog))
    && (p.near.Some? && p.shard.lock != ByTask(r) ==>
          && p'.near.Some?
          && p'.near.value.updateTime == p.near.value.updateTime
          && l'.shard.nearLog == l.shard.nearLog)
    && (p.near.None? && p'.near.Some? ==> p.shard.courier == Asking(r))
  }

  lemma SortKeepsPresence(p: Spot, r: Id, op: SortOp)
    requires CanSort(p, r, op) && Present(p, r)
    ensures Present(AfterSort(p, r, op), r)
  {
    if op.Take? {
      PopSplits(p.shard.unordered);
    }
  }

  lemma SortKeepsRate(c: Config, p: Spot, l: Log, r: Id, op: SortOp)
    requires CanSort(p, r, op) && RequestSound(c, p, r) && EthRated(p, l, r) && NearRated(p, l)
    ensures EthRated(AfterSort(p, r, op), AfterSortLog(p, l, r, op), r)
    ensures NearRated(AfterSort(p, r, op), AfterSortLog(p, l, r, op))
  {
  }

  lemma SendKeepsPresence(p: Spot, r: Id, op: SendOp)
    requires CanSend(p, r, op) && Present(p, r)
    ensures Present(AfterSend(p, r, op), r)
  {
    if op.Pop? {
      PopSplits(p.shard.ordered);
    }
  }

  lemma SendKeepsRate(p: Spot, l: Log, r: Id, op: SendOp)
    requires CanSend(p, r, op) && Present(p, r) && EthRated(p, l, r) && NearRated(p, l)
    ensures EthRated(AfterSend(p, r, op), AfterSendLog(p, l, r, op), r)
    ensures NearRated(AfterSend(p, r, op), AfterSendLog(p, l, r, op))
  {
  }

  lemma ReceiveKeepsPresence(c: Config, p: Spot, r: Id)
    requires ValidConfig(c) && CanEval(c, p, Receive) && RequestSound(c, p, r) && Present(p, r)
    ensures Present(AfterReceive(c, p), r)
  {
  }

  lemma ConcludeKeepsPresence(c: Config, p: Spot, r: Id)
    requires CanEval(c, p, Conclude) && RequestSound(c, p, r) && Present(p, r)
    ensures Present(AfterConclude(p, r), r)
  {
  }

  lemma EvalKeepsPresence(c: Config, p: Spot, r: Id, op: EvalOp)
    requires ValidConfig(c) && CanEval(c, p, op) && RequestSound(c, p, r) && Present(p, r)
    ensures Present(AfterEval(c, p, r, op), r)
  {
    match op
    case Receive => ReceiveKeepsPresence(c, p, r);
    case Conclude => ConcludeKeepsPresence(c, p, r);
    case _ =>
      var h := AfterEval(c, p, r, op).shard;
      assert h == p.shard.(lock := h.lock, breaker := h.breaker);
  }

  lemma EvalKeepsEthRate(c: Config, p: Spot, l: Log, r: Id, op: EvalOp)
    requires CanEval(c, p, op) && RequestSound(c, p, r) && EthRated(p, l, r)
    ensures EthRated(AfterEval(c, p, r, op), AfterEvalLog(c, p, l, op), r)
  {
  }

  lemma EvalKeepsNearRate(c: Config, p: Spot, l: Log, r: Id, op: EvalOp)
    requires CanEval(c, p, op) && Present(p, r) && NearRated(p, l)
    ensures NearRated(AfterEval(c, p, r, op), AfterEvalLog(c, p, l, op))
  {
  }

  lemma ActKeepsCaches(c: Config, p: Spot, l: Log, r: Id, op: Op)
    requires ValidConfig(c) && CanAct(c, p, r, op) && RequestSound(c, p, r) && CacheSound(p, l, r)
    ensures CacheSound(AfterAct(c, p, r, op), AfterLog(c, p, l, r, op), r)
  {
    match op
    case Sort(o) => SortKeepsPresence(p, r, o); SortKeepsRate(c, p, l, r, o);
    case Send(o) => SendKeepsPresence(p, r, o); SendKeepsRate(p, l, r, o);
    case Eval(o) => EvalKeepsPresence(c, p, r, o); EvalKeepsEthRate(c, p, l, r, o); EvalKeepsNearRate(c, p, l, r, o);
    case _ =>
  }

  lemma SortIsCareful(c: Config, p: Spot, l: Log, r: Id, op: SortOp)
    requires CanSort(p, r, op) && RequestSound(c, p, r)
    ensures Careful(p, l, AfterSort(p, r, op), AfterSortLog(p, l, r, op), r)
  {
  }

  lemma SendIsCareful(p: Spot, l: Log, r: Id, op: SendOp)
    requires CanSend(p, r, op) && CacheSound(p, l, r)
    ensures Careful(p, l, AfterSend(p, r, op), AfterSendLog(p, l, r, op), r)
  {
  }

  lemma EvalIsCareful(c: Config, p: Spot, l: Log, r: Id, op: EvalOp)
    requires ValidConfig(c) && CanEval(c, p, op) && RequestSound(c, p, r) && CacheSound(p, l, r)
    ensures Careful(p, l, AfterEval(c, p, r, op), AfterEvalLog(c, p, l, op), r)
  {
  }

  lemma ActIsCareful(c: Config, p: Spot, l: Log, r: Id, op: Op)
    requires ValidConfig(c) && CanAct(c, p, r, op) && RequestSound(c, p, r) && CacheSound(p, l, r)
    ensures Careful(p, l, AfterAct(c, p, r, op), AfterLog(c, p, l, r, op), r)
  {
    match op
    case Sort(o) => SortIsCareful(c, p, l, r, o);
    case Send(o) => SendIsCareful(p, l, r, o);
    case Eval(o) => EvalIsCareful(c, p, l, r, o);
    case _ =>
  }

  /** What request q sees before and after a step of another request r that saw p and l and left p' and l'. */
  predicate Overlooks(v: Spot, m: Log, v': Spot, m': Log, p: Spot, l: Log, p': Spot, l': Log) {
    var sameShard := v.job.index == p.job.index;
    && v' == v.(shard := v'.shard, eth := v'.eth, near := v'.near)
    && m' == m.(shard := m'.shard, ethLog := m'.ethLog)
    && v.now == p.now == p'.now
    && (v.job.sender == p.job.sender ==> sameShard)
    && (if sameShard then
          v.shard == p.shard && v'.shard == p'.shard && m.shard == l.shard && m'.shard == l'.shard
          && v.near == p.near && v'.near == p'.near
        else v'.shard == v.shard && m'.shard == m.shard && v'.near == v.near)
    && (if v.job.sender == p.job.sender then
          v.eth == p.eth && v'.eth == p'.eth && m.ethLog == l.ethLog && m'.ethLog == l'.ethLog
        else v'.eth == v.eth && m'.ethLog == m.ethLog)
  }

  lemma OthersKeepCaches(
    c: Config, v: Spot, m: Log, v': Spot, m': Log, q: Id, p: Spot, l: Log, p': Spot, l': Log, r: Id)
    requires RequestSound(c, v, q) && CacheSound(v, m, q) && q != r
    requires CacheSound(p', l', r) && Careful(p, l, p', l', r) && Continues(p, p')
    requires Spares(p.shard, p'.shard, q) && Overlooks(v, m, v', m', p, l, p', l')
    ensures CacheSound(v', m', q)
  {
  }
}
