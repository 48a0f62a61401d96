/** Order: the line in which `sort` lets requests through is the order in which they are sent; within an epoch the Eth
    nonces of a sender come through one after the other, and the Near nonces of a key are counted up one by one. */
module Ordering {
  import opened Wrappers
  import opened Protocol
  import opened Conservation
  import opened History
  import opened Caches

  // ---------------------------------------------------------------- the line of a shard

  predicate CourierBusy(w: Courier) {
    w.Taken? || w.Passed? || w.Asking?
  }

  /** How many requests the `send` worker has taken from the line so far. */
  function TakenFrom(h: Shard, l: ShardLog): int {
    InHand(h, l) + 1
  }

  /** The ordered queue holds the tail of the line, but for the request that is waiting for room in it; the `send`
      worker holds the one before; and the calls so far belong to earlier ones, in order. */
  predicate LineSound(h: Shard, l: ShardLog) {
    var taken := TakenFrom(h, l);
    && 0 <= taken
    && (forall k {:trigger h.ordered[k]} :: 0 <= k < |h.ordered| ==> l.line[taken + k].id == h.ordered[k])
    && (h.sorter.Pushing? ==> l.line[|l.line| - 1].id == h.sorter.id)
    && (CourierBusy(h.courier) ==> 0 < taken && l.line[taken - 1].id == h.courier.id)
    && (forall a {:trigger l.sends[a]} :: 0 <= a < |l.sends| ==>
          && l.sends[a].pos < (if CourierBusy(h.courier) then taken - 1 else taken)
          && l.line[l.sends[a].pos].id == l.sends[a].id)
    && (forall a, b :: 0 <= a < b < |l.sends| ==> l.sends[a].pos < l.sends[b].pos)
  }

  predicate SameStreak(t: Ticket, u: Ticket) {
    t.matched && u.matched && t.sender == u.sender && t.epoch == u.epoch
  }

  /** Within an epoch, later matched tickets of a sender carry higher Eth nonces. */
  predicate TicketsClimb(line: seq<Ticket>) {
    forall a, b :: 0 <= a < b < |line| && SameStreak(line[a], line[b]) ==> line[a].nonce < line[b].nonce
  }

  /** The Eth nonces of the matched tickets of a sender in one epoch, in the order of the line. */
  function Streak(line: seq<Ticket>, x: Address, epoch: nat): seq<nat> {
    if line == [] then []
    else
      var t := line[|line| - 1];
      Streak(line[..|line| - 1], x, epoch) + if t.matched && t.sender == x && t.epoch == epoch then [t.nonce] else []
  }

  predicate Consecutive(nonces: seq<nat>) {
    forall k :: 0 < k < |nonces| ==> nonces[k] == nonces[k - 1] + 1
  }

  /** What the tickets of a sender have to do with its Eth entry. */
  ghost predicate SenderSound(x: Address, eth: Option<Entry>, ethLog: seq<Refresh>, line: seq<Ticket>) {
    && (forall k {:trigger line[k]} :: 0 <= k < |line| && line[k].sender == x ==>
          && line[k].epoch <= |ethLog|
          && (line[k].matched ==> eth.Some?)
          && (line[k].matched && line[k].epoch == |ethLog| ==> line[k].nonce < eth.value.nonce))
    && (forall e :: Consecutive(Streak(line, x, e)))
    && var current := Streak(line, x, |ethLog|);
       current != [] ==> eth.Some? && eth.value.nonce == current[|current| - 1] + 1
  }

  predicate TicketsTrue(job: Job, r: Id, line: seq<Ticket>) {
    forall k {:trigger line[k]} :: 0 <= k < |line| && line[k].id == r ==>
      line[k].sender == job.sender && line[k].nonce == job.nonce
  }

  // ---------------------------------------------------------------- the calls of a key

  predicate CallsSound(near: Option<Entry>, l: ShardLog) {
    && (near.None? ==> l.sends == [] && l.nearLog == [])
    && (near.Some? ==> near.value.nonce == l.raw % WORD)
    && (forall a {:trigger l.sends[a]} :: 0 <= a < |l.sends| ==>
          && l.sends[a].nonce == l.sends[a].raw % WORD
          && l.sends[a].epoch <= |l.nearLog|
          && (l.sends[a].epoch == |l.nearLog| ==> l.raw - l.sends[a].raw == |l.sends| - 1 - a))
    && (forall a, b {:trigger l.sends[a], l.sends[b]} :: 0 <= a < b < |l.sends| ==>
          && l.sends[a].epoch <= l.sends[b].epoch
          && (l.sends[a].epoch == l.sends[b].epoch ==> l.sends[b].raw - l.sends[a].raw == b - a))
  }

  ghost predicate OrderSound(p: Spot, l: Log, r: Id) {
    && LineSound(p.shard, l.shard)
    && TicketsClimb(l.shard.line)
    && SenderSound(p.job.sender, p.eth, l.ethLog, l.shard.line)
    && TicketsTrue(p.job, r, l.shard.line)
    && CallsSound(p.near, l.shard)
  }

  ghost predicate RequestLine(p: Spot, l: Log, r: Id) {
    && TicketsClimb(l.shard.line)
    && SenderSound(p.job.sender, p.eth, l.ethLog, l.shard.line)
    && TicketsTrue(p.job, r, l.shard.line)
  }

  // ---------------------------------------------------------------- steps of sort

  lemma StreakOfLonger(line: seq<Ticket>, t: Ticket, x: Address, epoch: nat)
    ensures Streak(line + [t], x, epoch)
         == Streak(line, x, epoch) + if t.matched && t.sender == x && t.epoch == epoch then [t.nonce] else []
  {
    assert (line + [t])[..|line|] == line;
  }

  lemma {:induction false} NoStreakYet(line: seq<Ticket>, x: Address, epoch: nat)
    requires forall k {:trigger line[k]} :: 0 <= k < |line| && line[k].sender == x ==> line[k].epoch < epoch
    ensures Streak(line, x, epoch) == []
  {
    if line != [] {
      NoStreakYet(line[..|line| - 1], x, epoch);
    }
  }

  lemma {:induction false} NoMatchNoStreak(line: seq<Ticket>, x: Address, epoch: nat)
    requires forall k {:trigger line[k]} :: 0 <= k < |line| && line[k].sender == x ==> !line[k].matched
    ensures Streak(line, x, epoch) == []
  {
    if line != [] {
      NoMatchNoStreak(line[..|line| - 1], x, epoch);
    }
  }

  lemma SortKeepsLine(p: Spot, l: Log, r: Id, op: SortOp)
    requires CanSort(p, r, op) && LineSound(p.shard, l.shard)
    ensures LineSound(AfterSort(p, r, op).shard, AfterSortLog(p, l, r, op).shard)
  {
  }

  /** A ticket that may be added to the line when the Eth entry goes from eth to e: a matched one carries the nonce that
      the entry expects (or there was no entry), and the entry moves on by one. */
  predicate Continuing(t: Ticket, eth: Option<Entry>, e: Entry, ethLog: seq<Refresh>) {
    && t.epoch == |ethLog|
    && (if t.matched then (eth.Some? ==> eth.value.nonce == t.nonce) && e.nonce == t.nonce + 1 else eth == Some(e))
  }

  lemma NewTicketClimbs(x: Address, eth: Option<Entry>, e: Entry, ethLog: seq<Refresh>, line: seq<Ticket>, t: Ticket)
    requires SenderSound(x, eth, ethLog, line) && t.sender == x && Continuing(t, eth, e, ethLog) && TicketsClimb(line)
    ensures TicketsClimb(line + [t])
  {
    forall a | 0 <= a < |line| && SameStreak(line[a], t)
      ensures line[a].nonce < t.nonce
    {
    }
  }

  lemma NewTicketContinuesStreak(
    x: Address, eth: Option<Entry>, e: Entry, ethLog: seq<Refresh>, line: seq<Ticket>, t: Ticket, epoch: nat)
    requires SenderSound(x, eth, ethLog, line) && t.sender == x && Continuing(t, eth, e, ethLog)
    ensures Consecutive(Streak(line + [t], x, epoch))
    ensures t.epoch == epoch && Streak(line + [t], x, epoch) != [] ==>
              e.nonce == Streak(line + [t], x, epoch)[|Streak(line + [t], x, epoch)| - 1] + 1
  {
    var old' := Streak(line, x, epoch);
    assert Consecutive(old');
    StreakOfLonger(line, t, x, epoch);
    if eth.None? {
      NoMatchNoStreak(line, x, epoch);
    }
  }

  /** The request that `sort` lets through continues the streak of its sender. */
  lemma NewTicketKeepsSender(
    x: Address, eth: Option<Entry>, e: Entry, ethLog: seq<Refresh>, line: seq<Ticket>, t: Ticket)
    requires SenderSound(x, eth, ethLog, line) && t.sender == x && Continuing(t, eth, e, ethLog)
    ensures SenderSound(x, Some(e), ethLog, line + [t])
  {
    forall epoch: nat
      ensures Consecutive(Streak(line + [t], x, epoch))
    {
      NewTicketContinuesStreak(x, eth, e, ethLog, line, t, epoch);
    }
    NewTicketContinuesStreak(x, eth, e, ethLog, line, t, |ethLog|);
  }

  lemma DecideKeepsSender(p: Spot, l: Log, r: Id)
    requires CanSort(p, r, Decide) && RequestLine(p, l, r)
    ensures RequestLine(AfterDecide(p, r), AfterSortLog(p, l, r, Decide), r)
  {
    var choice := SortChoice(p);
    var e := AfterDecide(p, r).eth;
    if Through(choice) {
      var t := Ticket(r, p.job.sender, p.job.nonce, !choice.Again?, |l.ethLog|);
      NewTicketKeepsSender(p.job.sender, p.eth, e.value, l.ethLog, l.shard.line, t);
      NewTicketClimbs(p.job.sender, p.eth, e.value, l.ethLog, l.shard.line, t);
    }
  }

  lemma RefreshKeepsSender(
    x: Address, eth: Option<Entry>, e: Entry, ethLog: seq<Refresh>, f: Refresh, line: seq<Ticket>)
    requires SenderSound(x, eth, ethLog, line)
    ensures SenderSound(x, Some(e), ethLog + [f], line)
  {
    NoStreakYet(line, x, |ethLog| + 1);
  }

  lemma SortKeepsSender(p: Spot, l: Log, r: Id, op: SortOp)
    requires CanSort(p, r, op) && RequestLine(p, l, r)
    ensures RequestLine(AfterSort(p, r, op), AfterSortLog(p, l, r, op), r)
  {
    match op
    case Decide => DecideKeepsSender(p, l, r);
    case Fetch(Got(n)) =>
      RefreshKeepsSender(p.job.sender, p.eth, Entry(n % WORD, p.now), l.ethLog, Refresh(p.now, n), l.shard.line);
    case Check =>
      EntryAppears(p.job.sender, p.eth, AfterCheck(p, r).eth, l.ethLog, l.shard.line);
    case _ =>
  }

  /** An entry that a cold branch creates leaves nothing to contradict. */
  lemma EntryAppears(x: Address, eth: Option<Entry>, eth': Option<Entry>, ethLog: seq<Refresh>, line: seq<Ticket>)
    requires SenderSound(x, eth, ethLog, line) && (eth.Some? ==> eth' == eth)
    ensures SenderSound(x, eth', ethLog, line)
  {
  }

  // ---------------------------------------------------------------- steps of send and eval

  lemma PopKeepsLine(p: Spot, l: Log, r: Id)
    requires CanSend(p, r, Pop) && LineSound(p.shard, l.shard)
    ensures LineSound(AfterSend(p, r, Pop).shard, l.shard)
  {
  }

  /** Calling the node for the request in hand. */
  lemma CallKeepsLine(h: Shard, h': Shard, p: Spot, l: ShardLog, r: Id, raw: nat, nonce: nat)
    requires LineSound(h, l) && CourierBusy(h.courier) && h.courier.id == r && p.shard == h
    requires h' == h.(courier := Waiting)
    ensures LineSound(h', RecordSend(p, l, r, raw, nonce)) && LineSound(h', l)
  {
  }

  lemma TestKeepsLine(p: Spot, l: Log, r: Id)
    requires CanSend(p, r, TestBreaker) && LineSound(p.shard, l.shard)
    ensures LineSound(AfterSend(p, r, TestBreaker).shard, l.shard)
  {
  }

  lemma GoKeepsLine(p: Spot, l: Log, r: Id)
    requires CanSend(p, r, Go) && LineSound(p.shard, l.shard)
    ensures LineSound(AfterGo(p, r).shard, AfterSendLog(p, l, r, Go).shard)
  {
    if !Expired(p.job, p.now) && p.near.None? {
      AskingKeepsLine(p.shard, l.shard, r);
    } else {
      var h' := p.shard.(courier := Waiting);
      var nonce := if p.near.Some? then NextNear(p.near.value).nonce else 0;
      CallKeepsLine(p.shard, h', p, l.shard, r, l.shard.raw + 1, nonce);
    }
  }

  lemma AskingKeepsLine(h: Shard, l: ShardLog, r: Id)
    requires LineSound(h, l) && h.courier == Passed(r)
    ensures LineSound(h.(courier := Asking(r)), l)
  {
  }

  lemma AskKeepsLine(p: Spot, l: Log, r: Id, got: Fetched)
    requires CanSend(p, r, Ask(got)) && LineSound(p.shard, l.shard)
    ensures LineSound(AfterSend(p, r, Ask(got)).shard, AfterSendLog(p, l, r, Ask(got)).shard)
  {
    var h' := p.shard.(courier := Waiting);
    var n := if got.Got? then got.nonce else 0;
    CallKeepsLine(p.shard, h', p, l.shard, r, n + 1, (n + 1) % WORD);
  }

  lemma SendKeepsLine(p: Spot, l: Log, r: Id, op: SendOp)
    requires CanSend(p, r, op) && LineSound(p.shard, l.shard)
    ensures LineSound(AfterSend(p, r, op).shard, AfterSendLog(p, l, r, op).shard)
  {
    match op
    case Pop => PopKeepsLine(p, l, r);
    case TestBreaker => TestKeepsLine(p, l, r);
    case Go => GoKeepsLine(p, l, r);
    case Ask(got) => AskKeepsLine(p, l, r, got);
  }

  lemma SendKeepsCalls(p: Spot, l: Log, r: Id, op: SendOp)
    requires CanSend(p, r, op) && LineSound(p.shard, l.shard) && CallsSound(p.near, l.shard) && Present(p, r)
    ensures CallsSound(AfterSend(p, r, op).near, AfterSendLog(p, l, r, op).shard)
  {
  }

  /** `send` changes neither the line nor the Eth entry. */
  lemma SendKeepsSender(p: Spot, l: Log, r: Id, op: SendOp)
    requires CanSend(p, r, op) && RequestLine(p, l, r)
    ensures RequestLine(AfterSend(p, r, op), AfterSendLog(p, l, r, op), r)
  {
    var p', l' := AfterSend(p, r, op), AfterSendLog(p, l, r, op);
    assert p'.eth == p.eth && l'.ethLog == l.ethLog && l'.shard.line == l.shard.line;
  }

  lemma EvalKeepsLine(c: Config, p: Spot, l: Log, r: Id, op: EvalOp)
    requires CanEval(c, p, op) && LineSound(p.shard, l.shard)
    ensures LineSound(AfterEval(c, p, r, op).shard, AfterEvalLog(c, p, l, op).shard)
  {
    var h, h', m, m' := p.shard, AfterEval(c, p, r, op).shard, l.shard, AfterEvalLog(c, p, l, op).shard;
    assert h' == h.(unordered := h'.unordered, lock := h'.lock, breaker := h'.breaker);
    assert m' == m.(nearLog := m'.nearLog, raw := m'.raw);
  }

  lemma EvalKeepsCalls(c: Config, p: Spot, l: Log, r: Id, op: EvalOp)
    requires CanEval(c, p, op) && CallsSound(p.near, l.shard) && Present(p, r)
    ensures CallsSound(AfterEval(c, p, r, op).near, AfterEvalLog(c, p, l, op).shard)
  {
  }

  lemma EvalKeepsSender(c: Config, p: Spot, l: Log, r: Id, op: EvalOp)
    requires CanEval(c, p, op) && RequestLine(p, l, r)
    ensures RequestLine(AfterEval(c, p, r, op), AfterEvalLog(c, p, l, op), r)
  {
    var p', l' := AfterEval(c, p, r, op), AfterEvalLog(c, p, l, op);
    assert SameIdentity(p.job, p'.job) && l'.shard.line == l.shard.line;
    if op.FetchEth? && op.got.Got? {
      var n := op.got.nonce;
      RefreshKeepsSender(p.job.sender, p.eth, Entry(n % WORD, p.now), l.ethLog, Refresh(p.now, n), l.shard.line);
    } else {
      assert l'.ethLog == l.ethLog;
      assert p.eth.Some? ==> p'.eth == p.eth;
      EntryAppears(p.job.sender, p.eth, p'.eth, l.ethLog, l.shard.line);
    }
  }

  // ---------------------------------------------------------------- a step

  /** Steps that touch neither worker, line nor caches. */
  lemma BagStepsKeepOrder(c: Config, p: Spot, l: Log, r: Id, op: Op)
    requires CanAct(c, p, r, op) && OrderSound(p, l, r) && (op.Enqueue? || op.Fire? || op.Arrive?)
    ensures OrderSound(AfterAct(c, p, r, op), l, r)
  {
    var h, h' := p.shard, AfterAct(c, p, r, op).shard;
    assert h' == h.(unordered := h'.unordered);
    assert LineSound(h', l.shard);
  }

  lemma SortKeepsOrder(p: Spot, l: Log, r: Id, op: SortOp)
    requires CanSort(p, r, op) && OrderSound(p, l, r)
    ensures OrderSound(AfterSort(p, r, op), AfterSortLog(p, l, r, op), r)
  {
    SortKeepsLine(p, l, r, op);
    SortKeepsSender(p, l, r, op);
    SortKeepsCalls(p, l, r, op);
  }

  lemma SendKeepsOrder(p: Spot, l: Log, r: Id, op: SendOp)
    requires CanSend(p, r, op) && OrderSound(p, l, r) && Present(p, r)
    ensures OrderSound(AfterSend(p, r, op), AfterSendLog(p, l, r, op), r)
  {
    SendKeepsLine(p, l, r, op);
    SendKeepsSender(p, l, r, op);
    SendKeepsCalls(p, l, r, op);
  }

  lemma EvalKeepsOrder(c: Config, p: Spot, l: Log, r: Id, op: EvalOp)
    requires CanEval(c, p, op) && OrderSound(p, l, r) && Present(p, r)
    ensures OrderSound(AfterEval(c, p, r, op), AfterEvalLog(c, p, l, op), r)
  {
    EvalKeepsLine(c, p, l, r, op);
    EvalKeepsSender(c, p, l, r, op);
    EvalKeepsCalls(c, p, l, r, op);
  }

  lemma ActKeepsOrder(c: Config, p: Spot, l: Log, r: Id, op: Op)
    requires CanAct(c, p, r, op) && OrderSound(p, l, r) && Present(p, r)
    ensures OrderSound(AfterAct(c, p, r, op), AfterLog(c, p, l, r, op), r)
  {
    match op
    case Sort(o) => SortKeepsOrder(p, l, r, o);
    case Send(o) => SendKeepsOrder(p, l, r, o);
    case Eval(o) => EvalKeepsOrder(c, p, l, r, o);
    case _ => BagStepsKeepOrder(c, p, l, r, op);
  }

  lemma SortKeepsCalls(p: Spot, l: Log, r: Id, op: SortOp)
    requires CanSort(p, r, op) && CallsSound(p.near, l.shard)
    ensures CallsSound(AfterSort(p, r, op).near, AfterSortLog(p, l, r, op).shard)
  {
    var m, m' := l.shard, AfterSortLog(p, l, r, op).shard;
    assert AfterSort(p, r, op).near == p.near && m' == m.(line := m'.line);
  }

  // ---------------------------------------------------------------- other requests

  /** The line grows at most by a ticket of the acting request, and the rest of the entry and its log is left alone
      unless it belongs to the same sender. */
  predicate GrowsByOwn(p: Spot, l: Log, l': Log, r: Id) {
    || l'.shard.line == l.shard.line
    || (&& |l'.shard.line| == |l.shard.line| + 1
        && l'.shard.line == l.shard.line + [l'.shard.line[|l.shard.line|]]
        && l'.shard.line[|l.shard.line|].id == r
        && l'.shard.line[|l.shard.line|].sender == p.job.sender)
  }

  lemma ActGrowsByOwn(c: Config, p: Spot, l: Log, r: Id, op: Op)
    requires CanAct(c, p, r, op)
    ensures GrowsByOwn(p, l, AfterLog(c, p, l, r, op), r)
  {
  }

  lemma StrangersTicket(x: Address, eth: Option<Entry>, ethLog: seq<Refresh>, line: seq<Ticket>, t: Ticket)
    requires SenderSound(x, eth, ethLog, line) && t.sender != x
    ensures SenderSound(x, eth, ethLog, line + [t])
  {
    forall e: nat
      ensures Streak(line + [t], x, e) == Streak(line, x, e)
    {
      StreakOfLonger(line, t, x, e);
    }
  }

  lemma OthersKeepOrder(
    v: Spot, m: Log, v': Spot, m': Log, q: Id, p: Spot, l: Log, p': Spot, l': Log, r: Id)
    requires OrderSound(v, m, q) && OrderSound(p', l', r) && q != r
    requires Overlooks(v, m, v', m', p, l, p', l') && Continues(p, p') && GrowsByOwn(p, l, l', r)
    ensures OrderSound(v', m', q)
  {
    if v.job.index == p.job.index && v.job.sender != p.job.sender && l'.shard.line != l.shard.line {
      StrangersTicket(v.job.sender, v.eth, m.ethLog, l.shard.line, l'.shard.line[|l.shard.line|]);
    }
  }
}
