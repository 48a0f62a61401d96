/** Runs of the indexer: gap-free indexing, the jump after re-indexing, the retry budget and the folder arithmetic. */
module IndexerRuns {
  import opened Wrappers
  import opened Indexer

  // ---------------------------------------------------------------- the plan of a run

  /** The height of the k-th insertion of a run that was created with configuration c0: from the first block on
      without a gap, and after re-indexing up to the bound from the block after the latest one. */
  function Planned(c0: Config, jump: Option<nat>, k: nat): int {
    if jump.None? || k <= c0.toBlock - c0.fromBlock then c0.fromBlock + k
    else jump.value + k - (c0.toBlock - c0.fromBlock)
  }

  /** The block of the current height has yet to be inserted, or has been. */
  predicate Before(phase: Phase) {
    phase.Reading? || phase.Inserting?
  }

  predicate Past(phase: Phase) {
    phase.Publishing? || phase.RemovingFile? || phase.RemovingFolder? || phase.Incrementing?
  }

  predicate Ascending(s: seq<nat>) {
    forall i, j :: 0 <= i < j < |s| ==> s[i] < s[j]
  }

  /** The derived fields agree with the height, and the retries with their limit. */
  predicate FieldsSound(c0: Config, m: Machine) {
    && m.batchSize == c0.subFolderBatchSize > 0
    && m.subBlock == Batch(m.currBlock, m.batchSize)
    && m.subBlockPath == m.subBlock
    && m.filePath == FileOf(m.currBlock, m.batchSize)
    && m.retryCount <= m.c.retryCountOnFailure
    && m.c == c0.(toBlock := m.c.toBlock)
    && (Past(m.phase) || m.phase.Inserting? ==> m.block == Some(m.currBlock))
    && (m.phase.RemovingFolder? ==> m.currBlock + 1 == m.subBlock + m.batchSize)
  }

  /** The insertions follow the plan and the machine is where the plan says. */
  predicate PlanSound(c0: Config, m: Machine, t: Trace) {
    && (forall k {:trigger t.inserted[k]} :: 0 <= k < |t.inserted| ==> t.inserted[k] == Planned(c0, t.jump, k))
    && (Before(m.phase) ==> m.currBlock == Planned(c0, t.jump, |t.inserted|) && m.totalBlocksIndexed == |t.inserted|)
    && (Past(m.phase) ==>
          && t.inserted != []
          && m.currBlock == Planned(c0, t.jump, |t.inserted| - 1)
          && m.totalBlocksIndexed == |t.inserted| - 1)
    && (c0.toBlock > 0 ==> c0.fromBlock < c0.toBlock)
    && (t.jump.None? ==> m.c.toBlock == c0.toBlock)
    && (t.jump.None? && c0.toBlock > 0 ==> m.currBlock <= c0.toBlock && |t.inserted| <= c0.toBlock - c0.fromBlock + 1)
    && (t.jump.Some? ==>
          c0.forceReindex && c0.toBlock > 0 && m.c.toBlock == 0 && c0.toBlock <= t.jump.value
          && c0.toBlock - c0.fromBlock < |t.inserted|
          && (Past(m.phase) ==> c0.toBlock - c0.fromBlock + 1 < |t.inserted|))
    && (t.byBound ==>
          !c0.forceReindex && c0.toBlock > 0 && t.jump.None? && |t.inserted| == c0.toBlock - c0.fromBlock + 1
          && !Before(m.phase) && !Past(m.phase))
  }

  /** Published heads are inserted heights, in ascending order, none above the current height. */
  predicate HeadsSound(m: Machine, t: Trace) {
    && Ascending(t.heads)
    && (forall k {:trigger t.heads[k]} :: 0 <= k < |t.heads| ==> t.heads[k] in t.inserted && t.heads[k] <= m.currBlock)
    && (Before(m.phase) || m.phase.Publishing? ==>
          forall k {:trigger t.heads[k]} :: 0 <= k < |t.heads| ==> t.heads[k] < m.currBlock)
  }

  predicate StoreSound(w: World, t: Trace) {
    forall k {:trigger t.inserted[k]} :: 0 <= k < |t.inserted| ==> t.inserted[k] in w.store
  }

  /** Kept files are never touched; otherwise every block that was counted had its file removed or given up, in order.
      */
  predicate RemovalsSound(m: Machine, t: Trace) {
    && (m.c.keepFiles ==> t.removals == [] && !m.phase.RemovingFile? && !m.phase.RemovingFolder?)
    && |t.removals| <= |t.inserted|
    && (forall k {:trigger t.removals[k]} :: 0 <= k < |t.removals| ==> t.removals[k].height == t.inserted[k])
    && (!m.c.keepFiles && Before(m.phase) ==> |t.removals| == |t.inserted|)
    && (!m.c.keepFiles && (m.phase.Publishing? || m.phase.RemovingFile?) ==> |t.removals| == |t.inserted| - 1)
    && (!m.c.keepFiles && (m.phase.RemovingFolder? || m.phase.Incrementing?) ==> |t.removals| == |t.inserted|)
  }

  ghost predicate LifeSound(c0: Config, life: Life) {
    && FieldsSound(c0, life.m)
    && PlanSound(c0, life.m, life.t)
    && HeadsSound(life.m, life.t)
    && StoreSound(life.w, life.t)
    && RemovalsSound(life.m, life.t)
  }

  lemma NewIsSound(config: Config, latest: Option<nat>, w: World)
    requires New(config, latest).Created?
    ensures var m := New(config, latest).m; LifeSound(m.c, Life(m, w, NO_TRACE))
  {
  }

  lemma WorkKeepsFields(c0: Config, m: Machine, w: World, e: Event)
    requires CanWork(m, w, e) && FieldsSound(c0, m)
    ensures FieldsSound(c0, AfterWork(m, w, e))
  {
  }

  lemma InsertKeepsPlan(c0: Config, m: Machine, w: World, t: Trace)
    requires CanWork(m, w, Inserts) && FieldsSound(c0, m) && PlanSound(c0, m, t)
    ensures PlanSound(c0, AfterWork(m, w, Inserts), TraceAfter(m, w, t, Inserts))
  {
  }

  lemma IncrementKeepsPlan(c0: Config, m: Machine, w: World, t: Trace, latest: Option<nat>)
    requires CanWork(m, w, Increments(latest)) && FieldsSound(c0, m) && PlanSound(c0, m, t) && StoreSound(w, t)
    ensures PlanSound(c0, AfterIncrement(m, latest), TraceAfter(m, w, t, Increments(latest)))
  {
    assert t.inserted[|t.inserted| - 1] in w.store;
  }

  lemma WorkKeepsPlan(c0: Config, m: Machine, w: World, t: Trace, e: Event)
    requires CanWork(m, w, e) && FieldsSound(c0, m) && PlanSound(c0, m, t) && StoreSound(w, t)
    ensures PlanSound(c0, AfterWork(m, w, e), TraceAfter(m, w, t, e))
  {
    match e
    case Inserts => InsertKeepsPlan(c0, m, w, t);
    case Increments(latest) => IncrementKeepsPlan(c0, m, w, t, latest);
    case _ =>
  }

  lemma PublishKeepsHeads(c0: Config, m: Machine, w: World, t: Trace, head: bool)
    requires CanWork(m, w, Publishes(head)) && FieldsSound(c0, m) && PlanSound(c0, m, t) && HeadsSound(m, t)
    ensures HeadsSound(AfterWork(m, w, Publishes(head)), TraceAfter(m, w, t, Publishes(head)))
  {
    assert t.inserted[|t.inserted| - 1] == m.block.value;
  }

  lemma IncrementKeepsHeads(c0: Config, m: Machine, w: World, t: Trace, latest: Option<nat>)
    requires CanWork(m, w, Increments(latest)) && PlanSound(c0, m, t) && HeadsSound(m, t) && StoreSound(w, t)
    ensures HeadsSound(AfterIncrement(m, latest), TraceAfter(m, w, t, Increments(latest)))
  {
    assert t.inserted[|t.inserted| - 1] in w.store;
  }

  lemma WorkKeepsHeads(c0: Config, life: Life, e: Event)
    requires CanWork(life.m, life.w, e) && LifeSound(c0, life)
    ensures HeadsSound(AfterWork(life.m, life.w, e), TraceAfter(life.m, life.w, life.t, e))
  {
    match e
    case Publishes(head) => PublishKeepsHeads(c0, life.m, life.w, life.t, head);
    case Increments(latest) => IncrementKeepsHeads(c0, life.m, life.w, life.t, latest);
    case _ =>
  }

  lemma RemovalKeepsRemovals(c0: Config, m: Machine, w: World, t: Trace, e: Event)
    requires CanWork(m, w, e) && FieldsSound(c0, m) && PlanSound(c0, m, t) && RemovalsSound(m, t)
    requires e.RemoveFails? || e.Removes?
    ensures RemovalsSound(AfterWork(m, w, e), TraceAfter(m, w, t, e))
  {
    assert t.inserted[|t.inserted| - 1] == m.currBlock;
  }

  lemma WorkKeepsRemovals(c0: Config, m: Machine, w: World, t: Trace, e: Event)
    requires CanWork(m, w, e) && FieldsSound(c0, m) && PlanSound(c0, m, t) && RemovalsSound(m, t)
    ensures RemovalsSound(AfterWork(m, w, e), TraceAfter(m, w, t, e))
  {
    match e
    case RemoveFails => RemovalKeepsRemovals(c0, m, w, t, e);
    case Removes(_) => RemovalKeepsRemovals(c0, m, w, t, e);
    case _ =>
  }

  lemma WorkKeepsLife(c0: Config, life: Life, e: Event)
    requires CanWork(life.m, life.w, e) && LifeSound(c0, life)
    ensures LifeSound(c0, AfterEvent(life, e))
  {
    WorkKeepsFields(c0, life.m, life.w, e);
    WorkKeepsPlan(c0, life.m, life.w, life.t, e);
    WorkKeepsHeads(c0, life, e);
    WorkKeepsRemovals(c0, life.m, life.w, life.t, e);
  }

  lemma PlanAscends(c0: Config, m: Machine, t: Trace)
    requires PlanSound(c0, m, t)
    ensures Ascending(t.inserted)
  {
  }

  // ---------------------------------------------------------------- retries

  predicate Working(phase: Phase) {
    Before(phase) || phase.Publishing? || phase.RemovingFile? || phase.RemovingFolder?
  }

  function PhaseRank(phase: Phase): nat {
    match phase
    case Reading => 5
    case Inserting => 4
    case Publishing => 3
    case RemovingFile => 2
    case RemovingFolder => 1
    case _ => 0
  }

  /** The retries that are left and the phases that lie ahead. */
  function Budget(m: Machine): int {
    m.c.retryCountOnFailure - m.retryCount + PhaseRank(m.phase)
  }

  /** Every step on a block but the wait for its file uses up some of the budget; the retries are shared by all
      phases. */
  lemma WorkUsesBudget(m: Machine, w: World, e: Event)
    requires CanWork(m, w, e) && Working(m.phase) && !e.Missing?
    ensures Budget(AfterWork(m, w, e)) < Budget(m)
  {
  }

  /** A stretch of work of one machine, in whatever worlds the steps happen. */
  ghost predicate IsWork(ms: seq<Machine>, ws: seq<World>, es: seq<Event>) {
    && |ms| == |es| + 1 && |ws| == |es|
    && forall k :: 0 <= k < |es| ==> CanWork(ms[k], ws[k], es[k]) && ms[k + 1] == AfterWork(ms[k], ws[k], es[k])
  }

  /** How many of the first k steps are not the wait for a missing file. */
  function Efforts(es: seq<Event>, k: nat): nat
    requires k <= |es|
  {
    if k == 0 then 0 else Efforts(es, k - 1) + if es[k - 1].Missing? then 0 else 1
  }

  lemma {:induction false} EffortsUseBudget(ms: seq<Machine>, ws: seq<World>, es: seq<Event>, k: nat)
    requires IsWork(ms, ws, es) && k <= |es|
    requires forall j :: 0 <= j < k ==> Working(ms[j].phase)
    ensures Efforts(es, k) + Budget(ms[k]) <= Budget(ms[0])
    ensures ms[k].c == ms[0].c
    ensures ms[0].retryCount <= ms[0].c.retryCountOnFailure ==> ms[k].retryCount <= ms[k].c.retryCountOnFailure
  {
    if k > 0 {
      EffortsUseBudget(ms, ws, es, k - 1);
      if !es[k - 1].Missing? {
        WorkUsesBudget(ms[k - 1], ws[k - 1], es[k - 1]);
      }
    }
  }

  /** From the first `read` of a block to its `increment`, or to `stop`, it takes at most RetryCountOnFailure + 5 steps
      besides the waits for its file; and the counter never exceeds its limit, which fits into 8 bits. */
  lemma RetriesAreBounded(ms: seq<Machine>, ws: seq<World>, es: seq<Event>)
    requires IsWork(ms, ws, es) && Typed(ms[0].c)
    requires ms[0].phase == Reading && ms[0].retryCount == 0
    requires forall j :: 0 <= j < |es| ==> Working(ms[j].phase)
    ensures Efforts(es, |es|) <= ms[0].c.retryCountOnFailure + 5
    ensures ms[|es|].retryCount <= ms[0].c.retryCountOnFailure < 0x100
  {
    EffortsUseBudget(ms, ws, es, |es|);
  }
}
