/** What the state functions of the indexer come to, told from outside. */
module IndexerOutcomes {
  import opened Wrappers
  import opened Indexer
  import opened IndexerRuns
  import opened IndexerSite

  /** An answer that is an error for `evalError`. */
  predicate IsError(e: Event) {
    e.ReadFails? || e.InsertFails? || e.RemoveFails? || e.FolderRemoveFails?
  }

  /** An error is met by trying the same again, as long as retries are left, and nothing but their number changes.
      Without retries, a block that cannot be read or inserted stops the indexer; a file or folder that cannot be
      removed does not. */
  lemma ErrorsAreRetried(m: Machine, w: World, e: Event)
    requires CanWork(m, w, e) && IsError(e)
    ensures WorldAfter(m, w, e) == w
    ensures m.retryCount < m.c.retryCountOnFailure ==> AfterWork(m, w, e) == m.(retryCount := m.retryCount + 1)
    ensures m.retryCount >= m.c.retryCountOnFailure ==>
              AfterWork(m, w, e) == m.(phase := if Before(m.phase) then Stopping else Incrementing)
  {
  }

  /** A missing file is waited for, without using up a retry; a file that is there is never taken for missing. */
  lemma MissingFilesAreWaitedFor(m: Machine, w: World)
    requires m.phase == Reading
    ensures CanWork(m, w, Missing) <==> m.filePath !in w.disk
    ensures CanWork(m, w, Missing) ==> AfterWork(m, w, Missing) == m && WorldAfter(m, w, Missing) == w
    ensures m.filePath in w.disk ==>
              && CanWork(m, w, Reads)
              && AfterWork(m, w, Reads) == m.(block := Some(m.filePath.height), phase := Inserting)
              && WorldAfter(m, w, Reads) == w
  {
  }

  /** A block that is inserted is in the store, is recorded, and goes on to be published. */
  lemma InsertedBlocksAreStored(m: Machine, w: World, t: Trace)
    requires m.phase == Inserting && m.block.Some?
    ensures CanWork(m, w, Inserts)
    ensures AfterWork(m, w, Inserts) == m.(phase := Publishing)
    ensures WorldAfter(m, w, Inserts) == w.(store := w.store + {m.block.value})
    ensures TraceAfter(m, w, t, Inserts) == t.(inserted := t.inserted + [m.block.value])
  {
  }

  /** With a broker a head may go out or not, without one it does not; one that goes out is recorded. */
  lemma HeadsAreRecorded(m: Machine, w: World, t: Trace, head: bool)
    requires m.phase == Publishing && m.block.Some?
    ensures CanWork(m, w, Publishes(head)) <==> head ==> m.c.hasBroker
    ensures CanWork(m, w, Publishes(head)) ==>
              && TraceAfter(m, w, t, Publishes(head)) == t.(heads := t.heads + if head then [m.block.value] else [])
              && AfterWork(m, w, Publishes(head)).phase == (if m.c.keepFiles then Incrementing else RemovingFile)
              && WorldAfter(m, w, Publishes(head)) == w
  {
  }

  /** A height is the last one of its batch if and only if the next height has another folder. */
  lemma LastOfBatch(height: nat, size: nat)
    requires size > 0
    ensures height + 1 == Batch(height, size) + size <==> Batch(height + 1, size) != Batch(height, size)
  {
    var q, next := height / size, (height + 1) / size;
    if height + 1 == Batch(height, size) + size {
      NextBatchIsAnother(height, height + 1, size);
    } else {
      assert height + 1 < (q + 1) * size;
      QuotientIsMonotone(height + 1, size, q);
      if next > q {
        MultiplyMonotone(q + 1, next, size);
      }
    }
  }

  /** After its file is gone, the folder of a block is removed if and only if the next height has another folder and
      this one is empty. */
  lemma FoldersGoWithTheirBatch(c0: Config, m: Machine, w: World, dirEmpty: bool)
    requires FieldsSound(c0, m) && CanWork(m, w, Removes(dirEmpty))
    ensures AfterWork(m, w, Removes(dirEmpty)).phase
         == if dirEmpty && FileOf(m.currBlock + 1, c0.subFolderBatchSize).folder != m.subBlockPath then RemovingFolder
            else Incrementing
  {
    LastOfBatch(m.currBlock, m.batchSize);
  }

  /** A folder that is removed was empty, so no file goes with it, and the block is counted. */
  lemma FoldersTakeNoFiles(m: Machine, w: World)
    requires CanWork(m, w, FolderRemoves)
    ensures FolderEmpty(m.subBlockPath, w.disk) && WorldAfter(m, w, FolderRemoves) == w
    ensures AfterWork(m, w, FolderRemoves) == m.(phase := Incrementing)
  {
  }

  /** How the indexer goes on after a block: to the next height below its bound or without one; at the bound it stops,
      unless it re-indexes and knows the latest block, behind which it goes on without a bound. Every block starts
      with all its retries. */
  lemma IncrementGoesOn(m: Machine, w: World, latest: Option<nat>)
    requires CanWork(m, w, Increments(latest))
    ensures var n, atBound := AfterWork(m, w, Increments(latest)), m.c.toBlock > 0 && m.currBlock >= m.c.toBlock;
            && n.totalBlocksIndexed == m.totalBlocksIndexed + 1
            && (n.phase == Stopping <==> atBound && (!m.c.forceReindex || latest.None?))
            && (n.phase != Stopping ==>
                  && n.phase == Reading && n.retryCount == 0 && n.block == None
                  && n.currBlock == (if atBound && latest.Some? then latest.value + 1 else m.currBlock + 1)
                  && n.c == (if atBound then m.c.(toBlock := 0) else m.c))
  {
  }

  /** `stop` ends the run; it panics if and only if there is no latest block. */
  lemma StopEnds(m: Machine, w: World, latest: Option<nat>)
    requires CanWork(m, w, Stops(latest))
    ensures AfterWork(m, w, Stops(latest)).phase == if latest.None? then Panicked else Stopped
  {
  }

  /** Where a process starts: at the configured block, but not below genesis and, unless it re-indexes, not below the
      block after the latest one. */
  function Start(config: Config, latest: Option<nat>): nat {
    var known := !config.forceReindex && latest.Some? && latest.value >= config.genesisBlock;
    var least := if known then latest.value + 1 else config.genesisBlock;
    if config.fromBlock > least then config.fromBlock else least
  }

  /** `New` accepts a configuration if and only if it has no bound or one beyond its start. It says that the range is
      indexed already if only the latest block has moved the start to the bound, and panics for batches of size zero. */
  lemma NewAccepts(config: Config, latest: Option<nat>)
    ensures var start, outcome := Start(config, latest), New(config, latest);
            var open := config.toBlock == 0 || config.toBlock > start;
            var known := !config.forceReindex && latest.Some? && latest.value >= config.genesisBlock;
            && (outcome.Created? <==> open && config.subFolderBatchSize > 0)
            && (outcome.DivisionByZero? <==> open && config.subFolderBatchSize == 0)
            && (outcome.AlreadyIndexed? <==> !open && known && config.fromBlock < config.toBlock)
            && (outcome.Created? ==>
                  var m := outcome.m;
                  && m.currBlock == start && m.c == config.(fromBlock := start) && m.phase == Reading
                  && m.retryCount == 0 && m.block == None && m.totalBlocksIndexed == 0)
  {
  }
}
