/** The indexer on its machine: block files arrive, processes start, work, crash and start again, over one store and one
    disk. */
module IndexerSite {
  import opened Wrappers
  import opened Indexer
  import opened IndexerRuns

  /** A process with the configuration it was created with, after `New` has adjusted the first block. */
  datatype Process = Process(c0: Config, m: Machine, t: Trace)

  /** `ever` holds every file that was ever on disk, `all` every insertion by any process. */
  datatype Site = Site(w: World, process: Option<Process>, ever: set<Path>, all: seq<nat>)

  datatype Step =
    | Arrive(file: Path)
    | Start(config: Config, latest: Option<nat>)
    | Work(event: Event)
    | Crash

  predicate CanStep(s: Site, a: Step) {
    match a
    case Arrive(_) => true
    case Start(config, latest) => s.process.None? && Truthful(latest, s.w.store) && New(config, latest).Created?
    case Work(e) => s.process.Some? && CanWork(s.process.value.m, s.w, e)
    case Crash => s.process.Some?
  }

  function After(s: Site, a: Step): Site
    requires CanStep(s, a)
  {
    match a
    case Arrive(file) => s.(w := s.w.(disk := s.w.disk + {file}), ever := s.ever + {file})
    case Start(config, latest) => s.(process := Some(Process(New(config, latest).m.c, New(config, latest).m, NO_TRACE)))
    case Work(e) =>
      var p := s.process.value;
      s.(w := WorldAfter(p.m, s.w, e),
         process := Some(Process(p.c0, AfterWork(p.m, s.w, e), TraceAfter(p.m, s.w, p.t, e))),
         all := if e.Inserts? then s.all + [p.m.block.value] else s.all)
    case Crash => s.(process := None)
  }

  ghost predicate IsStretch(sites: seq<Site>, steps: seq<Step>) {
    && |sites| == |steps| + 1
    && forall k :: 0 <= k < |steps| ==> CanStep(sites[k], steps[k]) && sites[k + 1] == After(sites[k], steps[k])
  }

  /** A machine on which the indexer has not run yet, with any store and any files. */
  predicate Untouched(s: Site) {
    s.process.None? && s.ever == s.w.disk && s.all == []
  }

  ghost predicate ProcessSound(s: Site) {
    s.process.Some? ==> LifeSound(s.process.value.c0, Life(s.process.value.m, s.w, s.process.value.t))
  }

  // ---------------------------------------------------------------- no block is lost

  ghost predicate NothingLost(s: Site) {
    forall f :: f in s.ever ==> f in s.w.disk || f.height in s.w.store
  }

  ghost predicate SiteSound(s: Site) {
    ProcessSound(s) && NothingLost(s)
  }

  lemma StepKeepsSite(s: Site, a: Step)
    requires SiteSound(s) && CanStep(s, a)
    ensures SiteSound(After(s, a))
  {
    match a
    case Work(e) =>
      var p := s.process.value;
      WorkKeepsLife(p.c0, Life(p.m, s.w, p.t), e);
      if e.Removes? {
        assert p.t.inserted[|p.t.inserted| - 1] in s.w.store;
      }
    case Start(config, latest) => NewIsSound(config, latest, s.w);
    case _ =>
  }

  lemma {:induction false} SiteStaysSound(sites: seq<Site>, steps: seq<Step>, k: nat)
    requires IsStretch(sites, steps) && SiteSound(sites[0]) && k < |sites|
    ensures SiteSound(sites[k])
  {
    if k > 0 {
      SiteStaysSound(sites, steps, k - 1);
      StepKeepsSite(sites[k - 1], steps[k - 1]);
    }
  }

  /** Over any run, with crashes at any step and restarts with any configuration, every block file that was ever on disk
      is still there or its block is in the store. */
  lemma NoBlockIsLost(sites: seq<Site>, steps: seq<Step>, k: nat, file: Path)
    requires IsStretch(sites, steps) && Untouched(sites[0]) && k < |sites|
    requires file in sites[k].ever
    ensures file in sites[k].w.disk || file.height in sites[k].w.store
  {
    SiteStaysSound(sites, steps, k);
  }

  // ---------------------------------------------------------------- one run

  /** Without forced re-indexing a run inserts the blocks from its first one on, without gap or repeat. */
  lemma IndexingIsGapFree(sites: seq<Site>, steps: seq<Step>, k: nat)
    requires IsStretch(sites, steps) && Untouched(sites[0]) && k < |sites|
    requires sites[k].process.Some? && !sites[k].process.value.c0.forceReindex
    ensures var p := sites[k].process.value;
            && (forall j {:trigger p.t.inserted[j]} :: 0 <= j < |p.t.inserted| ==>
                  p.t.inserted[j] == p.c0.fromBlock + j)
            && (Before(p.m.phase) ==>
                  && p.m.currBlock == p.c0.fromBlock + |p.t.inserted|
                  && p.m.totalBlocksIndexed == p.m.currBlock - p.c0.fromBlock)
  {
    SiteStaysSound(sites, steps, k);
  }

  /** In any run the published heads are inserted heights in ascending order, and so are all inserted heights. */
  lemma HeadsFollowInsertions(sites: seq<Site>, steps: seq<Step>, k: nat)
    requires IsStretch(sites, steps) && Untouched(sites[0]) && k < |sites| && sites[k].process.Some?
    ensures var t := sites[k].process.value.t;
            && Ascending(t.inserted)
            && Ascending(t.heads)
            && (forall j :: 0 <= j < |t.heads| ==> t.heads[j] in t.inserted)
  {
    SiteStaysSound(sites, steps, k);
    var p := sites[k].process.value;
    PlanAscends(p.c0, p.m, p.t);
  }

  /** A run that its bound has stopped has inserted exactly the blocks from FromBlock to ToBlock, both included. */
  lemma BoundIsInclusive(sites: seq<Site>, steps: seq<Step>, k: nat)
    requires IsStretch(sites, steps) && Untouched(sites[0]) && k < |sites|
    requires sites[k].process.Some? && sites[k].process.value.t.byBound
    ensures var p := sites[k].process.value;
            && p.c0.toBlock > 0
            && (forall h: nat :: h in p.t.inserted <==> p.c0.fromBlock <= h <= p.c0.toBlock)
            && |p.t.inserted| == p.c0.toBlock - p.c0.fromBlock + 1
  {
    SiteStaysSound(sites, steps, k);
    var p := sites[k].process.value;
    forall h: nat | p.c0.fromBlock <= h <= p.c0.toBlock
      ensures h in p.t.inserted
    {
      assert p.t.inserted[h - p.c0.fromBlock] == h;
    }
  }

  /** A re-indexing run jumps at most once, after the block of its bound, to the block after the latest stored one; the
      inserted heights ascend strictly across the jump, and from then on there is no bound. */
  lemma ReindexingJumpsOnce(sites: seq<Site>, steps: seq<Step>, k: nat)
    requires IsStretch(sites, steps) && Untouched(sites[0]) && k < |sites|
    requires sites[k].process.Some? && sites[k].process.value.c0.forceReindex
    ensures var p := sites[k].process.value;
            && Ascending(p.t.inserted)
            && !p.t.byBound
            && (p.c0.toBlock > 0 ==> p.c0.fromBlock < p.c0.toBlock)
            && (forall j {:trigger p.t.inserted[j]} :: 0 <= j < |p.t.inserted| ==>
                  p.t.inserted[j] == Planned(p.c0, p.t.jump, j))
            && (p.t.jump.Some? ==> !AtBound(p.m) && 0 < p.c0.toBlock <= p.t.jump.value)
            && (p.t.jump.Some? && |p.t.inserted| > p.c0.toBlock - p.c0.fromBlock + 1 ==>
                  && p.t.inserted[p.c0.toBlock - p.c0.fromBlock] == p.c0.toBlock
                  && p.t.inserted[p.c0.toBlock - p.c0.fromBlock + 1] == p.t.jump.value + 1)
  {
    SiteStaysSound(sites, steps, k);
    var p := sites[k].process.value;
    PlanAscends(p.c0, p.m, p.t);
  }

  /** The jump of a step goes to the height after the highest stored one, and there is no second jump. */
  lemma JumpGoesToLatest(s: Site, e: Event)
    requires SiteSound(s) && CanStep(s, Work(e)) && After(s, Work(e)).process.value.t.jump != s.process.value.t.jump
    ensures var p, p' := s.process.value, After(s, Work(e)).process.value;
            && p.t.jump.None? && p'.t.jump.Some?
            && IsHighest(p'.t.jump.value, s.w.store)
            && p'.m.phase == Reading && p'.m.currBlock == p'.t.jump.value + 1
  {
  }

  // ---------------------------------------------------------------- folders

  lemma NextBatchIsAnother(height: nat, next: nat, size: nat)
    requires size > 0 && height + 1 == Batch(height, size) + size && next > height
    ensures Batch(next, size) > Batch(height, size)
  {
    var q := height / size;
    assert Batch(height, size) == q * size;
    assert next >= (q + 1) * size;
    QuotientIsMonotone(next, size, q + 1);
    assert Batch(next, size) >= (q + 1) * size by {
      MultiplyMonotone(q + 1, next / size, size);
    }
  }

  lemma QuotientIsMonotone(x: nat, size: nat, q: nat)
    requires size > 0 && x >= q * size
    ensures x / size >= q
  {
    assert x < (x / size + 1) * size;
    if x / size + 1 <= q {
      MultiplyMonotone(x / size + 1, q, size);
    }
  }

  lemma MultiplyMonotone(a: nat, b: nat, size: nat)
    requires a <= b
    ensures a * size <= b * size
  {
  }

  /** Where a process can be that was removing the folder of p's block: still at that block and done with its file, or
      beyond it. */
  predicate LeftBehind(p: Process, q: Process) {
    && q.c0 == p.c0
    && (|| q.m.currBlock > p.m.currBlock
        || (q.m.currBlock == p.m.currBlock && !Before(q.m.phase) && !q.m.phase.Publishing? && !q.m.phase.RemovingFile?))
  }

  lemma WorkLeavesBehind(p: Process, s: Site, e: Event)
    requires SiteSound(s) && s.process.Some? && LeftBehind(p, s.process.value) && CanStep(s, Work(e))
    ensures LeftBehind(p, After(s, Work(e)).process.value)
  {
    var q := s.process.value;
    if e.Increments? {
      assert q.t.inserted[|q.t.inserted| - 1] in s.w.store;
    }
  }

  predicate Uninterrupted(a: Step) {
    a.Arrive? || a.Work?
  }

  lemma StepLeavesBehind(p: Process, s: Site, a: Step)
    requires SiteSound(s) && s.process.Some? && LeftBehind(p, s.process.value) && CanStep(s, a) && Uninterrupted(a)
    ensures After(s, a).process.Some? && LeftBehind(p, After(s, a).process.value)
  {
    if a.Work? {
      WorkLeavesBehind(p, s, a.event);
    }
  }

  lemma {:induction false} ProcessLeavesBehind(sites: seq<Site>, steps: seq<Step>, j: nat, k: nat)
    requires IsStretch(sites, steps) && SiteSound(sites[0]) && j <= k < |sites|
    requires sites[j].process.Some? && sites[j].process.value.m.phase.RemovingFolder?
    requires forall i :: j <= i < k ==> Uninterrupted(steps[i])
    ensures sites[k].process.Some? && LeftBehind(sites[j].process.value, sites[k].process.value)
  {
    if j < k {
      ProcessLeavesBehind(sites, steps, j, k - 1);
      assert SiteSound(sites[k - 1]) by {
        SiteStaysSound(sites, steps, k - 1);
      }
      StepLeavesBehind(sites[j].process.value, sites[k - 1], steps[k - 1]);
    }
  }

  /** Once a process is about to remove a folder, no block that it reads later, not even after a jump, has its file in
      that folder. */
  lemma RemovedFolderIsNeverReadAgain(sites: seq<Site>, steps: seq<Step>, j: nat, k: nat)
    requires IsStretch(sites, steps) && Untouched(sites[0]) && j <= k < |sites|
    requires sites[j].process.Some? && sites[j].process.value.m.phase.RemovingFolder?
    requires forall i :: j <= i < k ==> Uninterrupted(steps[i])
    requires sites[k].process.Some? && sites[k].process.value.m.phase.Reading?
    ensures sites[k].process.value.m.filePath.folder > sites[j].process.value.m.subBlockPath
  {
    ProcessLeavesBehind(sites, steps, j, k);
    SiteStaysSound(sites, steps, j);
    SiteStaysSound(sites, steps, k);
    var m, n := sites[j].process.value.m, sites[k].process.value.m;
    NextBatchIsAnother(m.currBlock, n.currBlock, m.batchSize);
  }

  /** In every state of every run the folder and file that the process uses are those of its current block. */
  lemma PathsAgree(sites: seq<Site>, steps: seq<Step>, k: nat)
    requires IsStretch(sites, steps) && Untouched(sites[0]) && k < |sites| && sites[k].process.Some?
    ensures var m := sites[k].process.value.m;
            && m.batchSize > 0 && m.subBlock == m.currBlock / m.batchSize * m.batchSize
            && m.subBlockPath == m.subBlock && m.filePath == Path(m.subBlock, m.currBlock)
  {
    SiteStaysSound(sites, steps, k);
  }

  // ---------------------------------------------------------------- exactly once, over crashes and restarts

  /** The configuration file stays the same, and `New` gets to know the latest block if there is one. */
  ghost predicate Informed(config: Config, s: Site, a: Step) {
    a.Start? ==> a.config == config && (s.w.store != {} ==> a.latest.Some?)
  }

  function StartBlock(config: Config, latest: Option<nat>): nat {
    if config.fromBlock < Floor(config, latest) then Floor(config, latest) else config.fromBlock
  }

  /** The insertions of all processes together, given the store and the latest block before the first one. */
  ghost predicate OnceSound(config: Config, store0: set<nat>, latest0: Option<nat>, s: Site) {
    var first := StartBlock(config, latest0);
    && (forall k {:trigger s.all[k]} :: 0 <= k < |s.all| ==> s.all[k] == first + k)
    && (s.all == [] ==> s.w.store == store0)
    && (s.all != [] ==> IsHighest(first + |s.all| - 1, s.w.store))
    && (s.process.Some? ==>
          var p := s.process.value;
          && !p.c0.forceReindex
          && (Before(p.m.phase) ==> p.m.currBlock == first + |s.all|)
          && (Past(p.m.phase) ==> s.all != [] && p.m.currBlock == first + |s.all| - 1))
  }

  lemma StartContinues(config: Config, store0: set<nat>, latest0: Option<nat>, s: Site, a: Step)
    requires OnceSound(config, store0, latest0, s) && CanStep(s, a) && a.Start? && Informed(config, s, a)
    requires !config.forceReindex && Truthful(latest0, store0) && (store0 != {} ==> latest0.Some?)
    ensures OnceSound(config, store0, latest0, After(s, a))
  {
    if s.all == [] {
      assert a.latest == latest0;
    } else {
      assert a.latest == Some(StartBlock(config, latest0) + |s.all| - 1);
    }
  }

  lemma WorkContinues(config: Config, store0: set<nat>, latest0: Option<nat>, s: Site, e: Event)
    requires OnceSound(config, store0, latest0, s) && SiteSound(s) && CanStep(s, Work(e))
    requires !config.forceReindex && Truthful(latest0, store0) && (store0 != {} ==> latest0.Some?)
    ensures OnceSound(config, store0, latest0, After(s, Work(e)))
  {
    if e.Inserts? {
      var first, height := StartBlock(config, latest0), s.process.value.m.currBlock;
      forall h | h in s.w.store
        ensures h <= height
      {
        if s.all == [] {
          assert IsHighest(latest0.value, store0);
        }
      }
    }
  }

  lemma {:induction false} InsertionsContinue(
    config: Config, latest0: Option<nat>, sites: seq<Site>, steps: seq<Step>, k: nat)
    requires IsStretch(sites, steps) && Untouched(sites[0]) && k < |sites|
    requires forall j :: 0 <= j < |steps| ==> Informed(config, sites[j], steps[j])
    requires !config.forceReindex && Truthful(latest0, sites[0].w.store) && (sites[0].w.store != {} ==> latest0.Some?)
    ensures OnceSound(config, sites[0].w.store, latest0, sites[k])
  {
    if k > 0 {
      InsertionsContinue(config, latest0, sites, steps, k - 1);
      SiteStaysSound(sites, steps, k - 1);
      var s, a := sites[k - 1], steps[k - 1];
      assert Informed(config, s, a);
      match a
      case Start(_, _) => StartContinues(config, sites[0].w.store, latest0, s, a);
      case Work(e) => WorkContinues(config, sites[0].w.store, latest0, s, e);
      case _ =>
    }
  }

  /** Without forced re-indexing, over any number of crashes at any step and of restarts with the same configuration,
      the insertions of all processes together are the start block, the next one, and so on: no block is skipped and
      none is inserted twice, and all of them are above what was stored before. */
  lemma EveryBlockExactlyOnce(
    config: Config, latest0: Option<nat>, sites: seq<Site>, steps: seq<Step>, k: nat)
    requires IsStretch(sites, steps) && Untouched(sites[0]) && k < |sites|
    requires forall j :: 0 <= j < |steps| ==> Informed(config, sites[j], steps[j])
    requires !config.forceReindex && Truthful(latest0, sites[0].w.store) && (sites[0].w.store != {} ==> latest0.Some?)
    ensures forall j {:trigger sites[k].all[j]} :: 0 <= j < |sites[k].all| ==>
              && sites[k].all[j] == StartBlock(config, latest0) + j
              && forall h :: h in sites[0].w.store ==> h < sites[k].all[j]
  {
    InsertionsContinue(config, latest0, sites, steps, k);
  }

  /** When does a process start above everything that is stored? Exactly when `New` asked for the latest block and got
      an answer, or the store has nothing at or above the configured start anyway. */
  lemma StartsAboveStore(config: Config, latest: Option<nat>, store: set<nat>)
    requires New(config, latest).Created? && Truthful(latest, store)
    ensures (forall h :: h in store ==> h < New(config, latest).m.currBlock)
       <==> (!config.forceReindex && latest.Some?) || forall h :: h in store ==> h < StartBlock(config, None)
  {
  }

  /** So a failed lookup of the latest block makes `New` start over: with blocks 5 to 7 stored, at block 5. */
  lemma FailedLookupStartsOver()
    ensures var config := Config(false, false, 10, 10000, 5, 5, 0, false);
            && New(config, None).Created? && New(config, None).m.currBlock == 5
            && New(config, Some(7)).Created? && New(config, Some(7)).m.currBlock == 8
            && Truthful(None, {5, 6, 7}) && Truthful(Some(7), {5, 6, 7})
  {
  }

  // ---------------------------------------------------------------- files

  /** Every process keeps its files. */
  predicate KeepsFiles(steps: seq<Step>) {
    forall j {:trigger steps[j]} :: 0 <= j < |steps| && steps[j].Start? ==> steps[j].config.keepFiles
  }

  ghost predicate FilesKept(s: Site) {
    && s.w.disk == s.ever
    && (s.process.Some? ==>
          var m := s.process.value.m;
          m.c.keepFiles && !m.phase.RemovingFile? && !m.phase.RemovingFolder?)
  }

  lemma StepKeepsFiles(s: Site, a: Step)
    requires FilesKept(s) && CanStep(s, a) && (a.Start? ==> a.config.keepFiles)
    ensures FilesKept(After(s, a))
  {
  }

  /** If all processes are told to keep their files, then no file ever disappears: the disk holds every file that was
      ever there, and nobody even gets to a removal. */
  lemma {:induction false} KeptFilesStay(sites: seq<Site>, steps: seq<Step>, k: nat)
    requires IsStretch(sites, steps) && Untouched(sites[0]) && k < |sites| && KeepsFiles(steps)
    ensures FilesKept(sites[k])
  {
    if k > 0 {
      KeptFilesStay(sites, steps, k - 1);
      StepKeepsFiles(sites[k - 1], steps[k - 1]);
    }
  }

  /** If a process is not told to keep its files, then by the time a block is counted its file was removed, or the
      retries for that were used up; and so for every block before. */
  lemma CountedBlocksHadTheirFilesRemoved(sites: seq<Site>, steps: seq<Step>, k: nat)
    requires IsStretch(sites, steps) && Untouched(sites[0]) && k < |sites| && sites[k].process.Some?
    requires var p := sites[k].process.value; !p.c0.keepFiles && p.m.phase.Incrementing?
    ensures var t := sites[k].process.value.t;
            && |t.removals| == |t.inserted| > 0
            && (forall j :: 0 <= j < |t.inserted| ==> t.removals[j].height == t.inserted[j])
            && t.inserted[|t.inserted| - 1] == sites[k].process.value.m.currBlock
  {
    SiteStaysSound(sites, steps, k);
  }

  /** What such a removal is: the file is deleted, and no other; or it is given up after the last retry. */
  lemma RemovalsAreReal(s: Site, e: Event)
    requires SiteSound(s) && CanStep(s, Work(e)) && s.process.Some?
    ensures var t, t' := s.process.value.t, After(s, Work(e)).process.value.t;
            var m, file := s.process.value.m, s.process.value.m.filePath;
            && (e.Removes? ==> t'.removals == t.removals + [Removal(m.currBlock, true)]
                               && After(s, Work(e)).w.disk == s.w.disk - {file})
            && (!e.Removes? ==> After(s, Work(e)).w.disk == s.w.disk)
            && (t'.removals != t.removals && !e.Removes? ==>
                  && e.RemoveFails? && m.retryCount >= m.c.retryCountOnFailure
                  && t'.removals == t.removals + [Removal(m.currBlock, false)])
  {
  }
}
