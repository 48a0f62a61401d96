/** What happened so far, recorded beside the program state. Steps never read it; it only serves to state properties of
    whole runs. */
module History {
  import opened TxnError
  import opened TxnReqResp
  import opened Protocol
  import opened Conservation

  /** A request that `sort` let through to the ordered queue; `matched` unless it was let through as a retransmit. The
      epoch counts the refreshes of the sender's Eth entry before. */
  datatype Ticket = Ticket(id: Id, sender: Address, nonce: nat, matched: bool, epoch: nat)

  /** A Near call under way for the request with the ticket at `pos` of the line. `raw` is the Near nonce without the
      wrap-around of 64-bit words; the epoch counts the refreshes of the key's Near entry before. */
  datatype Sent = Sent(id: Id, pos: nat, raw: nat, nonce: nat, epoch: nat)

  /** A successful refresh, with the nonce that the chain reported. */
  datatype Refresh = Refresh(time: int, nonce: nat)

  /** The life of a request as its goroutine sees it: an answer judged, or a refresh made on its behalf in `eval`. */
  datatype Note = Heard(status: Status, success: bool, marks: bool) | Refreshed(nonce: nat)

  datatype ShardLog = ShardLog(line: seq<Ticket>, sends: seq<Sent>, nearLog: seq<Refresh>, raw: nat)

  datatype History = History(shards: seq<ShardLog>, ethLogs: map<Address, seq<Refresh>>, trails: seq<seq<Note>>)

  /** The part of the history that concerns one request. */
  datatype Log = Log(shard: ShardLog, ethLog: seq<Refresh>, trail: seq<Note>)

  function Through(choice: Choice): bool {
    choice.First? || choice.Match? || choice.Again?
  }

  function AfterSortLog(p: Spot, l: Log, r: Id, op: SortOp): Log {
    match op
    case Decide =>
      var choice := SortChoice(p);
      l.(shard := l.shard.(
           line := if !Through(choice) then l.shard.line
                   else l.shard.line + [Ticket(r, p.job.sender, p.job.nonce, !choice.Again?, |l.ethLog|)]))
    case Fetch(got) => l.(ethLog := if got.Got? then l.ethLog + [Refresh(p.now, got.nonce)] else l.ethLog)
    case _ => l
  }

  /** The position in line of the request that the `send` worker has in hand. */
  function InHand(h: Shard, l: ShardLog): int {
    |l.line| - |h.ordered| - (if h.sorter.Pushing? then 1 else 0) - 1
  }

  function RecordSend(p: Spot, l: ShardLog, r: Id, raw: nat, nonce: nat): ShardLog {
    if InHand(p.shard, l) < 0 then l
    else l.(raw := raw, sends := l.sends + [Sent(r, InHand(p.shard, l), raw, nonce, |l.nearLog|)])
  }

  function AfterSendLog(p: Spot, l: Log, r: Id, op: SendOp): Log {
    match op
    case Go =>
      l.(shard := if Expired(p.job, p.now) || p.near.None? then l.shard
                  else RecordSend(p, l.shard, r, l.shard.raw + 1, NextNear(p.near.value).nonce))
    case Ask(got) =>
      l.(shard := if got.Got? then RecordSend(p, l.shard, r, got.nonce + 1, (got.nonce + 1) % WORD) else l.shard)
    case _ => l
  }

  function AfterEvalLog(c: Config, p: Spot, l: Log, op: EvalOp): Log {
    match op
    case Receive =>
      var judgement := if p.job.inbox == [] then Panics else c.judge(p.job.inbox[0]);
      l.(trail := l.trail + [Heard(
           if judgement.Judged? then judgement.status else AnyStatus, judgement.Succeeds?,
           judgement.Judged? && judgement.marks)])
    case FetchNear(got) =>
      l.(shard := l.shard.(
           nearLog := if got.Got? then l.shard.nearLog + [Refresh(p.now, got.nonce)] else l.shard.nearLog,
           raw := if got.Got? then got.nonce + QUEUE_CAPACITY else l.shard.raw))
    case FetchEth(got) =>
      l.(ethLog := if got.Got? then l.ethLog + [Refresh(p.now, got.nonce)] else l.ethLog,
         trail := if got.Got? then l.trail + [Refreshed(got.nonce)] else l.trail)
    case _ => l
  }

  function AfterLog(c: Config, p: Spot, l: Log, r: Id, op: Op): Log {
    match op
    case Sort(sortOp) => AfterSortLog(p, l, r, sortOp)
    case Send(sendOp) => AfterSendLog(p, l, r, sendOp)
    case Eval(evalOp) => AfterEvalLog(c, p, l, evalOp)
    case _ => l
  }

  // ---------------------------------------------------------------- in place

  predicate Fits(s: Core, h: History) {
    |h.shards| == |s.shards| && |h.trails| == |s.jobs|
  }

  function LogOf(m: map<Address, seq<Refresh>>, x: Address): seq<Refresh> {
    if x in m then m[x] else []
  }

  function LookLog(c: Config, s: Core, h: History, r: Id): Log
    requires Known(c, s, r) && Fits(s, h)
  {
    Log(h.shards[s.jobs[r].index], LogOf(h.ethLogs, s.jobs[r].sender), h.trails[r])
  }

  function PutLog(c: Config, s: Core, h: History, r: Id, l: Log): History
    requires Known(c, s, r) && Fits(s, h)
  {
    h.(shards := h.shards[s.jobs[r].index := l.shard],
       ethLogs := h.ethLogs[s.jobs[r].sender := l.ethLog],
       trails := h.trails[r := l.trail])
  }

  datatype State = State(core: Core, log: History)

  ghost predicate InitialState(c: Config, u: State) {
    && Initial(c, u.core)
    && u.log == History(seq(|c.keys|, _ => ShardLog([], [], [], 0)), map[], [])
  }

  predicate CanStep(c: Config, u: State, a: Step) {
    Fits(u.core, u.log) && Enabled(c, u.core, a)
  }

  function After(c: Config, u: State, a: Step): State
    requires CanStep(c, u, a)
  {
    State(
      Next(c, u.core, a),
      match a
      case Act(r, op) =>
        PutLog(c, u.core, u.log, r, AfterLog(c, Look(c, u.core, r), LookLog(c, u.core, u.log, r), r, op))
      case Submit(_, _, _) => u.log.(trails := u.log.trails + [[]])
      case _ => u.log)
  }

  /** A stretch of a run: states with the steps between them. */
  ghost predicate IsStretch(c: Config, states: seq<State>, steps: seq<Step>) {
    && |states| == |steps| + 1
    && forall k :: 0 <= k < |steps| ==>
         CanStep(c, states[k], steps[k]) && states[k + 1] == After(c, states[k], steps[k])
  }

  ghost predicate IsRun(c: Config, states: seq<State>, steps: seq<Step>) {
    IsStretch(c, states, steps) && InitialState(c, states[0])
  }

  ghost predicate Reachable(c: Config, u: State) {
    exists states, steps :: IsRun(c, states, steps) && states[|states| - 1] == u
  }

  lemma PutLookLogOwn(c: Config, s: Core, h: History, r: Id, p: Spot, l: Log)
    requires Known(c, s, r) && Fits(s, h) && Continues(Look(c, s, r), p)
    ensures var t, g := Put(c, s, r, p), PutLog(c, s, h, r, l);
            Known(c, t, r) && Fits(t, g) && LookLog(c, t, g, r) == l
  {
  }

  lemma PutLookLogOther(c: Config, s: Core, h: History, r: Id, p: Spot, l: Log, q: Id)
    requires Known(c, s, r) && Fits(s, h) && Continues(Look(c, s, r), p) && Known(c, s, q) && q != r
    ensures var t, g := Put(c, s, r, p), PutLog(c, s, h, r, l);
            && Known(c, t, q) && Fits(t, g)
            && LookLog(c, t, g, q) == LookLog(c, s, h, q).(
                 shard := if s.jobs[q].index == s.jobs[r].index then l.shard else h.shards[s.jobs[q].index],
                 ethLog :=
                   if s.jobs[q].sender == s.jobs[r].sender then l.ethLog else LogOf(h.ethLogs, s.jobs[q].sender))
  {
  }
}
