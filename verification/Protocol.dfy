/** The transaction processor of account/txnProcessor.go as a transition system.

    A state holds what the Go program holds: the clock, the two nonce caches, and for each Near key a shard with a
    lock, a breaker, the two bounded queues and their workers. A job is a submitted request together with its response
    channel and the goroutine that `Submit` started for it; jobs are numbered in the order of submission. Timers and
    Near calls under way are bags of job numbers, so that a duplicate would show.

    A step is one atomic action of one of these actors. Everything that the program does not decide (answers of the
    node, the clock, the schedule) is a parameter of the step. */
module Protocol {
  import opened Wrappers
  import opened TxnError
  import opened TxnMapper
  import opened TxnFailure
  import opened TxnReqResp

  type Id = nat
  type Address = nat
  type Key = nat

  const QUEUE_CAPACITY := 100
  const SECOND := 1_000_000_000
  const TIMEOUT := 60 * SECOND
  const MIN_UPDATE_INTERVAL := 2 * SECOND
  const WORD: nat := 0x1_0000_0000_0000_0000

  // ---------------------------------------------------------------- configuration

  /** The verified access keys, the key index of each sender, and how an answer is judged. */
  datatype Config = Config(keys: seq<Key>, shardOf: Address -> nat, judge: Answer -> Judgement)

  ghost predicate ValidConfig(c: Config) {
    && |c.keys| > 0
    && (forall i, j :: 0 <= i < j < |c.keys| ==> c.keys[i] != c.keys[j])
    && (forall x :: c.shardOf(x) < |c.keys|)
    && SoundJudge(c.judge)
  }

  /** The configuration of the program: the CRC32 mapper, for an arbitrary checksum, and the judgement of `eval`. */
  function RealConfig(keys: seq<Key>, checksum: Address -> nat): Config
    requires 0 < |keys| < 0x1_0000_0000
  {
    Config(keys, x => Crc32Map(checksum(x), |keys|), Judge)
  }

  lemma RealConfigIsValid(keys: seq<Key>, checksum: Address -> nat)
    requires 0 < |keys| < 0x1_0000_0000
    requires forall i, j :: 0 <= i < j < |keys| ==> keys[i] != keys[j]
    ensures ValidConfig(RealConfig(keys, checksum))
  {
    JudgeIsSound();
    forall x ensures RealConfig(keys, checksum).shardOf(x) < |keys| {
      assert RealConfig(keys, checksum).shardOf(x) == Crc32Map(checksum(x), |keys|);
    }
  }

  /** It uses the checksum of the sender: every key gets the senders with the right one. */
  lemma RealConfigSpreads(keys: seq<Key>, checksum: Address -> nat, x: Address)
    requires checksum(x) < |keys| < 0x1_0000_0000
    ensures RealConfig(keys, checksum).shardOf(x) == checksum(x)
  {
    EveryKeyIsUsed(checksum(x), |keys|);
  }

  // ---------------------------------------------------------------- state

  datatype Entry = Entry(nonce: nat, updateTime: int)

  datatype Owner = Free | BySorter | ByTask(id: Id)

  /** The `sort` worker with the request it was called for. From `Deciding` to `Leaving` it holds the shard lock. From
      `Checking` on the request is no longer in its hands: it has been answered, queued or given to a timer. */
  datatype Sorter =
    | Resting
    | Wanting(id: Id)
    | Deciding(id: Id)
    | Pushing(id: Id, matched: bool)
    | Checking(id: Id)
    | Fetching(id: Id)
    | Leaving(id: Id)
    | Gone

  /** The `send` worker. */
  datatype Courier =
    | Waiting
    | Taken(id: Id)
    | Passed(id: Id)
    | Asking(id: Id)
    | Exited

  datatype Shard = Shard(
    lock: Owner, breaker: bool, unordered: seq<Id>, ordered: seq<Id>, sorter: Sorter, courier: Courier)

  /** Program points of `eval` after the answer was judged. The lock is held from `Tripping` to `Unlocking`; the
      breaker is this task's doing from `NearCheck` to `Clearing`. */
  datatype Point =
    | Locking
    | Tripping
    | NearCheck
    | NearFetch
    | EthCheck
    | EthFetch
    | Comparing
    | Unlocking
    | Clearing
    | Concluding

  /** `retry` is the result of `eval` so far, `synthetic` says that the success of a retransmit was made up. */
  datatype Verdict = Verdict(status: Status, success: bool, retry: bool, synthetic: bool)

  /** The goroutine of `Submit`. */
  datatype Task =
    | Listening
    | Evaluating(point: Point, verdict: Verdict)
    | Finished(verdict: Verdict, refused: bool)

  datatype Job = Job(
    index: nat, timestamp: nat, nonce: nat, sender: Address, retransmit: bool, inbox: seq<Answer>, task: Task)

  datatype Core = Core(
    clock: int,
    eth: map<Address, Entry>,
    near: map<Key, Entry>,
    shards: seq<Shard>,
    jobs: seq<Job>,
    submitting: multiset<Id>,
    timers: multiset<Id>,
    flights: multiset<Id>,
    closing: nat)

  // ---------------------------------------------------------------- steps

  /** What a view call to the node returns. */
  datatype Fetched = Failed | Got(nonce: nat)

  /** Steps of a `sort` worker. */
  datatype SortOp = Take | Lock | Decide | Push | Check | Fetch(got: Fetched) | Unlock

  /** Steps of a `send` worker. */
  datatype SendOp = Pop | TestBreaker | Go | Ask(got: Fetched)

  /** Steps of the goroutine of a job; all but the first and the last are lines of `eval`. */
  datatype EvalOp =
    | Receive
    | TakeLock
    | Trip
    | TestNear
    | FetchNear(got: Fetched)
    | TestEth
    | FetchEth(got: Fetched)
    | Compare
    | ReleaseLock
    | Clear
    | Conclude

  /** Steps that concern one request: its first push by `Submit`, the steps of the two workers, a timer going off, an
      answer of the node arriving, and the steps of its goroutine. */
  datatype Op =
    | Enqueue
    | Sort(sortOp: SortOp)
    | Fire
    | Send(sendOp: SendOp)
    | Arrive(resp: Json, err: Option<string>)
    | Eval(evalOp: EvalOp)

  datatype Step =
    | Tick(elapsed: nat)
    | Submit(sender: Address, nonce: nat, timestamp: nat)
    | Act(r: Id, op: Op)
    | CloseNext
    | SorterQuits(i: nat)
    | CourierQuits(i: nat)

  // ---------------------------------------------------------------- what one step sees

  /** All that a step concerning a request can read or write: the clock, the request's shard, its job, the two cache
      entries of its sender and its key, how often it is with its submitter, with a timer and with the node, and whether
      the unordered queue is still open. */
  datatype Spot = Spot(
    now: int, shard: Shard, job: Job, eth: Option<Entry>, near: Option<Entry>,
    submitting: nat, timers: nat, flights: nat, open: bool)

  predicate Expired(job: Job, now: int) {
    now > job.timestamp * SECOND + TIMEOUT
  }

  predicate TooSoon(e: Entry, now: int) {
    now < e.updateTime + MIN_UPDATE_INTERVAL
  }

  /** The entry that the cold branches create: immediately refreshable. */
  function NewEntry(nonce: nat, now: int): Entry {
    Entry(nonce, now - MIN_UPDATE_INTERVAL)
  }

  predicate HasRoom(q: seq<Id>) {
    |q| < QUEUE_CAPACITY
  }

  /** The response channel has capacity one; a push onto a full one blocks. */
  predicate InboxFree(job: Job) {
    |job.inbox| < 1
  }

  /** A job with an answer pushed onto its response channel. */
  function Answered(job: Job, a: Answer): Job {
    job.(inbox := job.inbox + [a])
  }

  // ---------------------------------------------------------------- sort

  /** What `sort` does with a request. */
  datatype Choice = Reply(status: Status) | First | Match | Again | Delay

  function SortChoice(p: Spot): Choice {
    if Expired(p.job, p.now) then Reply(TimeOutError3)
    else if p.eth.None? then First
    else if p.eth.value.nonce == p.job.nonce then Match
    else if p.job.retransmit then Again
    else if p.eth.value.nonce > p.job.nonce then Reply(EthNonceTooLow)
    else Delay
  }

  predicate CanSort(p: Spot, r: Id, op: SortOp) {
    match op
    case Take => p.shard.sorter == Resting && p.shard.unordered != [] && p.shard.unordered[0] == r
    case Lock => p.shard.sorter == Wanting(r) && p.shard.lock == Free
    case Decide => p.shard.sorter == Deciding(r) && (SortChoice(p).Reply? ==> InboxFree(p.job))
    case Push => p.shard.sorter.Pushing? && p.shard.sorter.id == r && HasRoom(p.shard.ordered)
    case Check => p.shard.sorter == Checking(r)
    case Fetch(_) => p.shard.sorter == Fetching(r)
    case Unlock => p.shard.sorter == Leaving(r)
  }

  function AfterDecide(p: Spot, r: Id): Spot {
    var choice := SortChoice(p);
    p.(shard := p.shard.(
         sorter :=
           match choice
           case Reply(_) => Leaving(r)
           case First => Pushing(r, true)
           case Match => Pushing(r, true)
           case Again => Pushing(r, false)
           case Delay => Checking(r)),
       job := if choice.Reply? then Answered(p.job, Own(choice.status)) else p.job,
       eth :=
         if choice.First? then Some(NewEntry(p.job.nonce + 1, p.now))
         else if choice.Match? && p.eth.Some? then Some(Entry(p.eth.value.nonce + 1, p.eth.value.updateTime))
         else p.eth,
       timers := if choice.Delay? then p.timers + 1 else p.timers)
  }

  /** The first half of `updateEthNonceCache`, up to the call to the node. */
  function AfterCheck(p: Spot, r: Id): Spot {
    p.(shard := p.shard.(sorter := if p.eth.Some? && TooSoon(p.eth.value, p.now) then Leaving(r) else Fetching(r)),
       eth := if p.eth.None? then Some(NewEntry(0, p.now)) else p.eth)
  }

  function AfterSort(p: Spot, r: Id, op: SortOp): Spot
    requires CanSort(p, r, op)
  {
    match op
    case Take => p.(shard := p.shard.(unordered := p.shard.unordered[1..], sorter := Wanting(r)))
    case Lock => p.(shard := p.shard.(lock := BySorter, sorter := Deciding(r)))
    case Decide => AfterDecide(p, r)
    case Push => p.(shard := p.shard.(ordered := p.shard.ordered + [r], sorter := Leaving(r)))
    case Check => AfterCheck(p, r)
    case Fetch(got) =>
      p.(shard := p.shard.(sorter := Leaving(r)),
         eth := if got.Got? then Some(Entry(got.nonce % WORD, p.now)) else p.eth)
    case Unlock => p.(shard := p.shard.(lock := Free, sorter := Resting))
  }

  // ---------------------------------------------------------------- send

  predicate CanSend(p: Spot, r: Id, op: SendOp) {
    match op
    case Pop => p.shard.courier == Waiting && p.shard.ordered != [] && p.shard.ordered[0] == r
    case TestBreaker => p.shard.courier == Taken(r) && (p.shard.breaker ==> InboxFree(p.job))
    case Go => p.shard.courier == Passed(r) && (Expired(p.job, p.now) ==> InboxFree(p.job))
    case Ask(got) => p.shard.courier == Asking(r) && (got.Failed? ==> InboxFree(p.job))
  }

  /** `nextNearNonce` on a hit, for an unsigned 64-bit word. */
  function NextNear(e: Entry): Entry {
    e.(nonce := (e.nonce + 1) % WORD)
  }

  function AfterGo(p: Spot, r: Id): Spot {
    var expired := Expired(p.job, p.now);
    p.(shard := p.shard.(courier := if !expired && p.near.None? then Asking(r) else Waiting),
       job := if expired then Answered(p.job, Own(TimeOutError3)) else p.job,
       near := if !expired && p.near.Some? then Some(NextNear(p.near.value)) else p.near,
       flights := if !expired && p.near.Some? then p.flights + 1 else p.flights)
  }

  function AfterSend(p: Spot, r: Id, op: SendOp): Spot
    requires CanSend(p, r, op)
  {
    match op
    case Pop => p.(shard := p.shard.(ordered := p.shard.ordered[1..], courier := Taken(r)))
    case TestBreaker =>
      p.(shard := p.shard.(courier := if p.shard.breaker then Waiting else Passed(r)),
         job := if p.shard.breaker then Answered(p.job, Own(Reorder)) else p.job)
    case Go => AfterGo(p, r)
    case Ask(got) =>
      p.(shard := p.shard.(courier := Waiting),
         job := if got.Failed? then Answered(p.job, Own(NearNonceError)) else p.job,
         near := if got.Got? then Some(NewEntry((got.nonce + 1) % WORD, p.now)) else p.near,
         flights := if got.Got? then p.flights + 1 else p.flights)
  }

  // ---------------------------------------------------------------- eval

  predicate At(job: Job, point: Point) {
    job.task.Evaluating? && job.task.point == point
  }

  /** The refreshed cache has passed this request by although its answer was a nonce error after a retransmit. */
  predicate MakesUpSuccess(p: Spot) {
    && p.job.task.Evaluating?
    && p.eth.Some?
    && p.eth.value.nonce > p.job.nonce
    && p.job.retransmit
    && p.job.task.verdict.status == EthNonceError
  }

  predicate CanEval(c: Config, p: Spot, op: EvalOp) {
    match op
    case Receive => p.job.task == Listening && p.job.inbox != [] && !c.judge(p.job.inbox[0]).Panics?
    case TakeLock => At(p.job, Locking) && p.shard.lock == Free
    case Trip => At(p.job, Tripping)
    case TestNear => At(p.job, NearCheck)
    case FetchNear(_) => At(p.job, NearFetch)
    case TestEth => At(p.job, EthCheck)
    case FetchEth(_) => At(p.job, EthFetch)
    case Compare => At(p.job, Comparing) && p.eth.Some? && (MakesUpSuccess(p) ==> InboxFree(p.job))
    case ReleaseLock => At(p.job, Unlocking)
    case Clear => At(p.job, Clearing)
    case Conclude => At(p.job, Concluding) && (p.job.task.verdict.retry ==> p.open)
  }

  function ToPoint(job: Job, point: Point): Job
    requires job.task.Evaluating?
  {
    job.(task := Evaluating(point, job.task.verdict))
  }

  /** To the unlocking, with the value that `eval` will return. */
  function ToExit(job: Job, retry: bool, synthetic: bool): Job
    requires job.task.Evaluating?
  {
    job.(task := Evaluating(Unlocking, Verdict(job.task.verdict.status, job.task.verdict.success, retry, synthetic)))
  }

  /** The first half of `eval`, up to taking the lock. */
  function AfterReceive(c: Config, p: Spot): Spot
    requires CanEval(c, p, Receive)
  {
    var judgement := c.judge(p.job.inbox[0]);
    var act := if judgement.Judged? then StatusAction(judgement.status) else StatusAction(AnyStatus);
    p.(job := p.job.(
         inbox := p.job.inbox[1..],
         retransmit := p.job.retransmit || (judgement.Judged? && judgement.marks),
         task := Evaluating(
           if act.TakesLock() then Locking else Concluding,
           Verdict(if judgement.Judged? then judgement.status else AnyStatus, judgement.Succeeds?, act.retry, false))))
  }

  /** The first half of `updateNearNonceCache`. */
  function AfterTestNear(p: Spot): Spot
    requires At(p.job, NearCheck)
  {
    var wanted := StatusAction(p.job.task.verdict.status).updateNearCache;
    var recent := p.near.Some? && TooSoon(p.near.value, p.now);
    p.(job := ToPoint(p.job, if wanted && !recent then NearFetch else EthCheck),
       near := if wanted && p.near.None? then Some(NewEntry(0, p.now)) else p.near)
  }

  /** The first half of `updateEthNonceCache`; a cache that is too fresh forces a retry. */
  function AfterTestEth(p: Spot): Spot
    requires At(p.job, EthCheck)
  {
    var wanted := StatusAction(p.job.task.verdict.status).updateEthCache;
    var recent := p.eth.Some? && TooSoon(p.eth.value, p.now);
    p.(job :=
         if wanted && !recent then ToPoint(p.job, EthFetch)
         else ToExit(p.job, wanted || p.job.task.verdict.retry, false),
       eth := if wanted && p.eth.None? then Some(NewEntry(0, p.now)) else p.eth)
  }

  function AfterCompare(p: Spot): Spot
    requires At(p.job, Comparing) && p.eth.Some?
  {
    var left := ToExit(p.job, p.eth.value.nonce <= p.job.nonce && p.job.task.verdict.retry, MakesUpSuccess(p));
    p.(job := if MakesUpSuccess(p) then Answered(left, Own(AnyStatus)) else left)
  }

  function AfterConclude(p: Spot, r: Id): Spot
    requires At(p.job, Concluding)
  {
    var v := p.job.task.verdict;
    var again := v.retry && HasRoom(p.shard.unordered);
    p.(shard := p.shard.(unordered := if again then p.shard.unordered + [r] else p.shard.unordered),
       job := p.job.(task := if again then Listening else Finished(v, v.retry)))
  }

  function AfterEval(c: Config, p: Spot, r: Id, op: EvalOp): Spot
    requires CanEval(c, p, op)
  {
    match op
    case Receive => AfterReceive(c, p)
    case TakeLock => p.(shard := p.shard.(lock := ByTask(r)), job := ToPoint(p.job, Tripping))
    case Trip => p.(shard := p.shard.(breaker := true), job := ToPoint(p.job, NearCheck))
    case TestNear => AfterTestNear(p)
    case FetchNear(got) =>
      p.(job := ToPoint(p.job, EthCheck),
         near := if got.Got? then Some(Entry((got.nonce + QUEUE_CAPACITY) % WORD, p.now)) else p.near)
    case TestEth => AfterTestEth(p)
    case FetchEth(got) =>
      p.(job := if got.Got? then ToPoint(p.job, Comparing) else ToExit(p.job, true, false),
         eth := if got.Got? then Some(Entry(got.nonce % WORD, p.now)) else p.eth)
    case Compare => AfterCompare(p)
    case ReleaseLock => p.(shard := p.shard.(lock := Free), job := ToPoint(p.job, Clearing))
    case Clear => p.(shard := p.shard.(breaker := false), job := ToPoint(p.job, Concluding))
    case Conclude => AfterConclude(p, r)
  }

  // ---------------------------------------------------------------- a step in place

  predicate CanAct(c: Config, p: Spot, r: Id, op: Op) {
    match op
    case Enqueue => p.submitting > 0 && p.open && HasRoom(p.shard.unordered)
    case Sort(sortOp) => CanSort(p, r, sortOp)
    case Fire => p.timers > 0 && p.open && (!HasRoom(p.shard.unordered) ==> InboxFree(p.job))
    case Send(sendOp) => CanSend(p, r, sendOp)
    case Arrive(resp, err) => p.flights > 0 && InboxFree(p.job) && !c.judge(Node(resp, err)).Panics?
    case Eval(evalOp) => CanEval(c, p, evalOp)
  }

  /** The end of a timer: a push that does not wait, and an answer if there is no room. */
  function AfterFire(p: Spot, r: Id): Spot
    requires p.timers > 0
  {
    var room := HasRoom(p.shard.unordered);
    p.(timers := p.timers - 1,
       shard := p.shard.(unordered := if room then p.shard.unordered + [r] else p.shard.unordered),
       job := if room then p.job else Answered(p.job, Own(Exhausted)))
  }

  function AfterAct(c: Config, p: Spot, r: Id, op: Op): Spot
    requires CanAct(c, p, r, op)
  {
    match op
    case Enqueue => p.(submitting := p.submitting - 1, shard := p.shard.(unordered := p.shard.unordered + [r]))
    case Sort(sortOp) => AfterSort(p, r, sortOp)
    case Fire => AfterFire(p, r)
    case Send(sendOp) => AfterSend(p, r, sendOp)
    case Arrive(resp, err) => p.(flights := p.flights - 1, job := Answered(p.job, Node(resp, err)))
    case Eval(evalOp) => AfterEval(c, p, r, evalOp)
  }

  predicate Known(c: Config, s: Core, r: Id) {
    r < |s.jobs| && s.jobs[r].index < |s.shards| == |c.keys|
  }

  function Lookup<K, V>(m: map<K, V>, k: K): Option<V> {
    if k in m then Some(m[k]) else None
  }

  function Store<K, V>(m: map<K, V>, k: K, v: Option<V>): map<K, V> {
    if v.Some? then m[k := v.value] else m
  }

  function Look(c: Config, s: Core, r: Id): Spot
    requires Known(c, s, r)
  {
    var job := s.jobs[r];
    Spot(s.clock, s.shards[job.index], job, Lookup(s.eth, job.sender), Lookup(s.near, c.keys[job.index]),
         s.submitting[r], s.timers[r], s.flights[r], UnorderedOpen(s, job.index))
  }

  function Put(c: Config, s: Core, r: Id, p: Spot): Core
    requires Known(c, s, r)
  {
    var job := s.jobs[r];
    s.(shards := s.shards[job.index := p.shard],
       jobs := s.jobs[r := p.job],
       eth := Store(s.eth, job.sender, p.eth),
       near := Store(s.near, c.keys[job.index], p.near),
       submitting := s.submitting[r := p.submitting],
       timers := s.timers[r := p.timers],
       flights := s.flights[r := p.flights])
  }

  /** The queues are closed in order, first all the unordered ones, then all the ordered ones. */
  predicate UnorderedOpen(s: Core, i: nat) {
    s.closing <= i
  }

  predicate OrderedOpen(s: Core, i: nat) {
    s.closing <= |s.shards| + i
  }

  predicate Enabled(c: Config, s: Core, a: Step) {
    match a
    case Tick(_) => true
    case Submit(_, nonce, _) => nonce < WORD - 1
    case Act(r, op) => Known(c, s, r) && CanAct(c, Look(c, s, r), r, op)
    case CloseNext =>
      && s.closing < 2 * |s.shards|
      && (0 < s.closing <= |s.shards| ==> s.shards[s.closing - 1].sorter == Gone)
      && (|s.shards| < s.closing ==> s.shards[s.closing - 1 - |s.shards|].courier == Exited)
    case SorterQuits(i) =>
      i < |s.shards| && s.shards[i].sorter == Resting && s.shards[i].unordered == [] && !UnorderedOpen(s, i)
    case CourierQuits(i) =>
      i < |s.shards| && s.shards[i].courier == Waiting && s.shards[i].ordered == [] && !OrderedOpen(s, i)
  }

  function AfterSubmit(c: Config, s: Core, sender: Address, nonce: nat, timestamp: nat): Core {
    s.(jobs := s.jobs + [Job(c.shardOf(sender), timestamp, nonce, sender, false, [], Listening)],
       submitting := s.submitting[|s.jobs| := s.submitting[|s.jobs|] + 1])
  }

  function Next(c: Config, s: Core, a: Step): Core
    requires Enabled(c, s, a)
  {
    match a
    case Tick(elapsed) => s.(clock := s.clock + elapsed)
    case Submit(sender, nonce, timestamp) => AfterSubmit(c, s, sender, nonce, timestamp)
    case Act(r, op) => Put(c, s, r, AfterAct(c, Look(c, s, r), r, op))
    case CloseNext => s.(closing := s.closing + 1)
    case SorterQuits(i) => s.(shards := s.shards[i := s.shards[i].(sorter := Gone)])
    case CourierQuits(i) => s.(shards := s.shards[i := s.shards[i].(courier := Exited)])
  }

  ghost predicate Initial(c: Config, s: Core) {
    && ValidConfig(c)
    && s.eth == map[] && s.near == map[]
    && s.shards == seq(|c.keys|, _ => Shard(Free, false, [], [], Resting, Waiting))
    && s.jobs == []
    && s.submitting == s.timers == s.flights == multiset{}
    && s.closing == 0
  }
}
