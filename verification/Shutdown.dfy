/** Closing: the queues are closed one after the other, each only after the worker of the one before has left, so
    `sort` never pushes onto a closed queue; a worker that has left leaves nothing behind; and no queue ever exceeds
    its capacity. */
module Shutdown {
  import opened Protocol

  ghost predicate ShardClosing(s: Core, i: nat)
    requires i < |s.shards|
  {
    var h, n := s.shards[i], |s.shards|;
    && (i + 1 < s.closing ==> h.sorter.Gone?)
    && (n + i + 1 < s.closing ==> h.courier.Exited?)
    && (h.sorter.Gone? ==> i < s.closing && h.unordered == [])
    && (h.courier.Exited? ==> n + i < s.closing && h.ordered == [])
    && |h.unordered| <= QUEUE_CAPACITY
    && |h.ordered| <= QUEUE_CAPACITY
  }

  ghost predicate ClosingSound(s: Core) {
    && s.closing <= 2 * |s.shards|
    && forall i :: 0 <= i < |s.shards| ==> ShardClosing(s, i)
  }

  /** A step of a request pushes nothing onto the closed unordered queue and revives no worker. */
  predicate RespectsClose(p: Spot, p': Spot) {
    && (p.shard.sorter.Gone? ==> p'.shard.sorter.Gone?)
    && (p.shard.courier.Exited? ==> p'.shard.courier.Exited?)
    && (p'.shard.sorter.Gone? ==> p.shard.sorter.Gone?)
    && (p'.shard.courier.Exited? ==> p.shard.courier.Exited?)
    && (!p.open && p.shard.unordered == [] ==> p'.shard.unordered == [])
    && (!p.shard.sorter.Pushing? && p.shard.ordered == [] ==> p'.shard.ordered == [])
    && (|p.shard.unordered| <= QUEUE_CAPACITY ==> |p'.shard.unordered| <= QUEUE_CAPACITY)
    && (|p.shard.ordered| <= QUEUE_CAPACITY ==> |p'.shard.ordered| <= QUEUE_CAPACITY)
  }

  lemma SortRespectsClose(p: Spot, r: Id, op: SortOp)
    requires CanSort(p, r, op)
    ensures RespectsClose(p, AfterSort(p, r, op))
  {
  }

  lemma EvalRespectsClose(c: Config, p: Spot, r: Id, op: EvalOp)
    requires CanEval(c, p, op)
    ensures RespectsClose(p, AfterEval(c, p, r, op))
  {
  }

  lemma ActRespectsClose(c: Config, p: Spot, r: Id, op: Op)
    requires CanAct(c, p, r, op)
    ensures RespectsClose(p, AfterAct(c, p, r, op))
  {
    match op
    case Sort(o) => SortRespectsClose(p, r, o);
    case Eval(o) => EvalRespectsClose(c, p, r, o);
    case _ =>
  }

  lemma PutKeepsClosing(c: Config, s: Core, r: Id, p: Spot)
    requires ClosingSound(s) && Known(c, s, r) && RespectsClose(Look(c, s, r), p)
    ensures ClosingSound(Put(c, s, r, p))
  {
    var t := Put(c, s, r, p);
    forall i | 0 <= i < |t.shards|
      ensures ShardClosing(t, i)
    {
      assert ShardClosing(s, i);
    }
  }

  lemma StepKeepsClosing(c: Config, s: Core, a: Step)
    requires ClosingSound(s) && Enabled(c, s, a)
    ensures ClosingSound(Next(c, s, a))
  {
    if a.Act? {
      ActRespectsClose(c, Look(c, s, a.r), a.r, a.op);
      PutKeepsClosing(c, s, a.r, AfterAct(c, Look(c, s, a.r), a.r, a.op));
    } else {
      QuietKeepsClosing(c, s, a);
    }
  }

  lemma QuietKeepsClosing(c: Config, s: Core, a: Step)
    requires ClosingSound(s) && Enabled(c, s, a) && !a.Act?
    ensures ClosingSound(Next(c, s, a))
  {
    var t := Next(c, s, a);
    forall i | 0 <= i < |t.shards|
      ensures ShardClosing(t, i)
    {
      assert ShardClosing(s, i);
    }
  }

  lemma InitialIsClosingSound(c: Config, s: Core)
    requires Initial(c, s)
    ensures ClosingSound(s)
  {
  }
}
