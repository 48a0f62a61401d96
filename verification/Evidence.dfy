/** Why requests end: a request that gives up on a nonce error does so right after a refresh that shows its nonce to be
    used up, and a success is only made up for a request that was retransmitted. */
module Evidence {
  import opened TxnError
  import opened Protocol
  import opened Conservation
  import opened History
  import opened Caches

  predicate Marked(trail: seq<Note>, upTo: int) {
    exists k | 0 <= k < upTo && k < |trail| :: trail[k].Heard? && trail[k].marks
  }

  /** The trail ends with the answer that the verdict is about. */
  predicate EndsWithAnswer(trail: seq<Note>, v: Verdict) {
    && trail != []
    && var last := trail[|trail| - 1];
       last.Heard? && last.status == v.status && last.success == v.success
  }

  /** The trail ends with that answer and a refresh that followed it. */
  predicate EndsWithRefresh(trail: seq<Note>, v: Verdict) {
    && |trail| >= 2
    && trail[|trail| - 1].Refreshed?
    && EndsWithAnswer(trail[..|trail| - 1], v)
  }

  /** The answer said that a nonce was wrong, and the chain then said that this nonce is used up. */
  predicate UsedUp(job: Job, trail: seq<Note>, v: Verdict) {
    EndsWithRefresh(trail, v) && trail[|trail| - 1].nonce % WORD > job.nonce
  }

  /** What must have happened for `eval` to end with this verdict. */
  predicate Justified(job: Job, trail: seq<Note>, v: Verdict) {
    && (IsNonceStatus(v.status) && !v.retry ==> UsedUp(job, trail, v))
    && (v.synthetic <==> v.status == EthNonceError && !v.retry && job.retransmit)
    && (v.synthetic ==> Marked(trail, |trail| - 2))
    && (v.success ==> EndsWithAnswer(trail, v))
  }

  predicate EvidenceSound(p: Spot, l: Log) {
    var job, trail := p.job, l.trail;
    && (job.retransmit <==> Marked(trail, |trail|))
    && (forall k {:trigger trail[k]} :: 0 <= k < |trail| && trail[k].Heard? && trail[k].marks ==>
          trail[k].status == NearNonceError || trail[k].status == NearTimeOutError)
    && (job.task.Evaluating? ==>
          var v := job.task.verdict;
          match job.task.point
          case Unlocking => Justified(job, trail, v)
          case Clearing => Justified(job, trail, v)
          case Concluding => Justified(job, trail, v)
          case Comparing =>
            && EndsWithRefresh(trail, v) && v.retry == StatusAction(v.status).retry && !v.success
            && p.eth.Some? && p.eth.value.nonce == trail[|trail| - 1].nonce % WORD
          case _ => EndsWithAnswer(trail, v) && v.retry == StatusAction(v.status).retry && !v.success)
    && (job.task.Finished? && !job.task.refused ==> Justified(job, trail, job.task.verdict))
    && (job.task.Finished? ==> job.task.refused == job.task.verdict.retry)
  }

  lemma MarkedOfLonger(trail: seq<Note>, note: Note)
    ensures Marked(trail + [note], |trail| + 1) <==> Marked(trail, |trail|) || (note.Heard? && note.marks)
  {
    assert forall k :: 0 <= k < |trail| ==> (trail + [note])[k] == trail[k];
    assert (trail + [note])[|trail|] == note;
  }

  lemma NonceStatusesRetry(status: Status)
    ensures IsNonceStatus(status) ==> StatusAction(status).retry && StatusAction(status).updateEthCache
  {
  }

  lemma ReceiveKeepsEvidence(c: Config, p: Spot, l: Log)
    requires ValidConfig(c) && CanEval(c, p, Receive) && GoodAnswer(c, p.job.inbox[0]) && EvidenceSound(p, l)
    ensures EvidenceSound(AfterReceive(c, p), AfterEvalLog(c, p, l, Receive))
  {
    var note := AfterEvalLog(c, p, l, Receive).trail[|l.trail|];
    MarkedOfLonger(l.trail, note);
    NonceStatusesRetry(AfterReceive(c, p).job.task.verdict.status);
  }

  lemma RefreshKeepsEvidence(c: Config, p: Spot, l: Log, r: Id, got: Fetched)
    requires CanEval(c, p, FetchEth(got)) && EvidenceSound(p, l)
    ensures EvidenceSound(AfterEval(c, p, r, FetchEth(got)), AfterEvalLog(c, p, l, FetchEth(got)))
  {
    if got.Got? {
      MarkedOfLonger(l.trail, Refreshed(got.nonce));
      assert (l.trail + [Refreshed(got.nonce)])[..|l.trail|] == l.trail;
    }
  }

  lemma CompareKeepsEvidence(c: Config, p: Spot, l: Log)
    requires CanEval(c, p, Compare) && EvidenceSound(p, l)
    ensures EvidenceSound(AfterCompare(p), l)
  {
    var trail := l.trail;
    NonceStatusesRetry(p.job.task.verdict.status);
    if MakesUpSuccess(p) {
      // the mark is neither the refresh nor the answer just judged
      var k :| 0 <= k < |trail| && trail[k].Heard? && trail[k].marks;
      assert trail[|trail| - 2] == trail[..|trail| - 1][|trail| - 2];
      assert k < |trail| - 2;
    }
  }

  lemma TestEthKeepsEvidence(p: Spot, l: Log)
    requires At(p.job, EthCheck) && EvidenceSound(p, l)
    ensures EvidenceSound(AfterTestEth(p), l)
  {
    NonceStatusesRetry(p.job.task.verdict.status);
  }

  lemma ConcludeKeepsEvidence(p: Spot, l: Log, r: Id)
    requires At(p.job, Concluding) && EvidenceSound(p, l)
    ensures EvidenceSound(AfterConclude(p, r), l)
  {
  }

  /** The steps of `eval` that only move it on, and the refresh of the Near entry. */
  predicate OnlyMovesOn(op: EvalOp) {
    op.TakeLock? || op.Trip? || op.TestNear? || op.FetchNear? || op.ReleaseLock? || op.Clear?
  }

  lemma MoveKeepsEvidence(c: Config, p: Spot, l: Log, r: Id, op: EvalOp)
    requires CanEval(c, p, op) && OnlyMovesOn(op) && EvidenceSound(p, l)
    ensures EvidenceSound(AfterEval(c, p, r, op), AfterEvalLog(c, p, l, op))
  {
    var p' := AfterEval(c, p, r, op);
    assert p'.job == ToPoint(p.job, p'.job.task.point) && AfterEvalLog(c, p, l, op).trail == l.trail;
  }

  lemma EvalKeepsEvidence(c: Config, p: Spot, l: Log, r: Id, op: EvalOp)
    requires ValidConfig(c) && CanEval(c, p, op) && RequestSound(c, p, r) && EvidenceSound(p, l)
    ensures EvidenceSound(AfterEval(c, p, r, op), AfterEvalLog(c, p, l, op))
  {
    match op
    case Receive => ReceiveKeepsEvidence(c, p, l);
    case FetchEth(got) => RefreshKeepsEvidence(c, p, l, r, got);
    case Compare => CompareKeepsEvidence(c, p, l);
    case TestEth => TestEthKeepsEvidence(p, l);
    case Conclude => ConcludeKeepsEvidence(p, l, r);
    case _ => MoveKeepsEvidence(c, p, l, r, op);
  }

  lemma SortKeepsEvidence(c: Config, p: Spot, l: Log, r: Id, op: SortOp)
    requires CanSort(p, r, op) && RequestSound(c, p, r) && EvidenceSound(p, l)
    ensures EvidenceSound(AfterSort(p, r, op), AfterSortLog(p, l, r, op))
  {
    var p' := AfterSort(p, r, op);
    assert p'.job == p.job.(inbox := p'.job.inbox);
  }

  lemma SendKeepsEvidence(p: Spot, l: Log, r: Id, op: SendOp)
    requires CanSend(p, r, op) && EvidenceSound(p, l)
    ensures EvidenceSound(AfterSend(p, r, op), AfterSendLog(p, l, r, op))
  {
    var p' := AfterSend(p, r, op);
    assert p'.job == p.job.(inbox := p'.job.inbox);
  }

  lemma ActKeepsEvidence(c: Config, p: Spot, l: Log, r: Id, op: Op)
    requires ValidConfig(c) && CanAct(c, p, r, op) && RequestSound(c, p, r) && EvidenceSound(p, l)
    ensures EvidenceSound(AfterAct(c, p, r, op), AfterLog(c, p, l, r, op))
  {
    match op
    case Sort(o) => SortKeepsEvidence(c, p, l, r, o);
    case Send(o) => SendKeepsEvidence(p, l, r, o);
    case Eval(o) => EvalKeepsEvidence(c, p, l, r, o);
    case _ =>
  }

  lemma OthersKeepEvidence(
    c: Config, v: Spot, m: Log, v': Spot, m': Log, q: Id, p: Spot, l: Log, p': Spot, l': Log, r: Id)
    requires RequestSound(c, v, q) && EvidenceSound(v, m) && q != r
    requires Careful(p, l, p', l', r) && Overlooks(v, m, v', m', p, l, p', l')
    ensures EvidenceSound(v', m')
  {
  }

  // ---------------------------------------------------------------- at the end

  lemma FinishedIsUsedUp(p: Spot, l: Log)
    requires EvidenceSound(p, l)
    requires p.job.task.Finished? && !p.job.task.refused && IsNonceStatus(p.job.task.verdict.status)
    ensures EndsWithRefresh(l.trail, p.job.task.verdict)
    ensures l.trail[|l.trail| - 1].nonce > p.job.nonce
  {
    var n := l.trail[|l.trail| - 1].nonce;
    assert n % WORD <= n;
  }

  lemma FinishedIsMarked(p: Spot, l: Log)
    requires EvidenceSound(p, l) && p.job.task.Finished? && !p.job.task.refused
    ensures var v := p.job.task.verdict;
            && (v.synthetic <==> v.status == EthNonceError && p.job.retransmit)
            && (v.synthetic ==>
                  exists k :: 0 <= k < |l.trail| - 2 && l.trail[k].Heard? && l.trail[k].marks
                              && (l.trail[k].status == NearTimeOutError || l.trail[k].status == NearNonceError))
  {
  }
}
