/** The block indexer of indexer/indexer.go as a state machine: what each of its state functions does to the indexer, to
    the store and to the disk, for everything that the store and the file system may answer. */
module Indexer {
  import opened Wrappers

  /** The configuration, without the source folder and the waiting time; `hasBroker` says that a broker was given. */
  datatype Config = Config(
    keepFiles: bool, forceReindex: bool, retryCountOnFailure: nat, subFolderBatchSize: nat,
    genesisBlock: nat, fromBlock: nat, toBlock: nat, hasBroker: bool)

  /** The types of the configuration fields: an 8-bit and a 16-bit word. */
  predicate Typed(c: Config) {
    c.retryCountOnFailure < 0x100 && c.subFolderBatchSize < 0x1_0000
  }

  /** A block file: its folder, named by the first height of the batch, and its height. */
  datatype Path = Path(folder: nat, height: nat)

  function Batch(height: nat, size: nat): nat
    requires size > 0
  {
    height / size * size
  }

  function FileOf(height: nat, size: nat): Path
    requires size > 0
  {
    Path(Batch(height, size), height)
  }

  /** The state functions, and how a run can end: by `stop` or by its dereference of a missing latest block. */
  datatype Phase =
    | Reading
    | Inserting
    | Publishing
    | RemovingFile
    | RemovingFolder
    | Incrementing
    | Stopping
    | Stopped
    | Panicked

  /** The struct indexerState with the configuration, of which `increment` changes `toBlock`. */
  datatype Machine = Machine(
    c: Config, currBlock: nat, subBlock: nat, batchSize: nat, subBlockPath: nat, filePath: Path, retryCount: nat,
    block: Option<nat>, totalBlocksIndexed: nat, phase: Phase)

  datatype World = World(store: set<nat>, disk: set<Path>)

  /** The file of a block was removed, or the retries for that were used up. */
  datatype Removal = Removal(height: nat, gone: bool)

  /** What a run did so far: the heights inserted and published, the files removed or given up, the height it jumped to
      after re-indexing, and whether it stopped because of its bound. */
  datatype Trace = Trace(
    inserted: seq<nat>, heads: seq<nat>, removals: seq<Removal>, jump: Option<nat>, byBound: bool)

  datatype Life = Life(m: Machine, w: World, t: Trace)

  predicate IsHighest(h: nat, store: set<nat>) {
    h in store && forall k :: k in store ==> k <= h
  }

  /** An answer of `BlockNumber`: the highest stored height, or nothing (an error, or no block yet). */
  predicate Truthful(latest: Option<nat>, store: set<nat>) {
    latest.Some? ==> IsHighest(latest.value, store)
  }

  predicate FolderEmpty(folder: nat, disk: set<Path>) {
    forall f :: f in disk ==> f.folder != folder
  }

  // ---------------------------------------------------------------- New

  datatype Outcome = Created(m: Machine) | AlreadyIndexed | InvalidRange | DivisionByZero

  /** The first block that `New` is willing to read, before the configured one is looked at. */
  function Floor(c: Config, latest: Option<nat>): nat {
    if !c.forceReindex && latest.Some? && latest.value >= c.genesisBlock then latest.value + 1 else c.genesisBlock
  }

  function New(config: Config, latest: Option<nat>): Outcome {
    var floor := Floor(config, latest);
    var c := config.(fromBlock := if config.fromBlock < floor then floor else config.fromBlock);
    if c.toBlock > 0 && c.toBlock <= c.fromBlock then
      if floor != config.genesisBlock && config.fromBlock < c.toBlock then AlreadyIndexed else InvalidRange
    else if c.subFolderBatchSize == 0 then DivisionByZero
    else
      var size := c.subFolderBatchSize;
      Created(Machine(c, c.fromBlock, Batch(c.fromBlock, size), size, Batch(c.fromBlock, size),
                      FileOf(c.fromBlock, size), 0, None, 0, Reading))
  }

  // ---------------------------------------------------------------- the state functions

  /** What the store and the file system answer to a state function. `Increments` and `Stops` carry the answer of
      `BlockNumber`, which `increment` only asks for after re-indexing. */
  datatype Event =
    | Missing
    | ReadFails
    | Reads
    | InsertFails
    | Inserts
    | Publishes(head: bool)
    | RemoveFails
    | Removes(dirEmpty: bool)
    | FolderRemoveFails
    | FolderRemoves
    | Increments(latest: Option<nat>)
    | Stops(latest: Option<nat>)

  predicate CanWork(m: Machine, w: World, e: Event) {
    match e
    case Missing => m.phase == Reading && m.filePath !in w.disk
    case ReadFails => m.phase == Reading
    case Reads => m.phase == Reading && m.filePath in w.disk
    case InsertFails => m.phase == Inserting && m.block.Some?
    case Inserts => m.phase == Inserting && m.block.Some?
    case Publishes(head) => m.phase == Publishing && m.block.Some? && (head ==> m.c.hasBroker)
    case RemoveFails => m.phase == RemovingFile
    case Removes(dirEmpty) =>
      && m.phase == RemovingFile
      && m.filePath in w.disk
      && (dirEmpty ==> FolderEmpty(m.subBlockPath, w.disk - {m.filePath}))
    case FolderRemoveFails => m.phase == RemovingFolder
    case FolderRemoves => m.phase == RemovingFolder && FolderEmpty(m.subBlockPath, w.disk)
    case Increments(latest) => m.phase == Incrementing && m.batchSize > 0 && Truthful(latest, w.store)
    case Stops(latest) => m.phase == Stopping && Truthful(latest, w.store)
  }

  /** `evalError` for an error: another try while the retries last. */
  function EvalError(m: Machine, onRetry: Phase, onFail: Phase): Machine {
    var again := m.retryCount < m.c.retryCountOnFailure;
    m.(retryCount := if again then m.retryCount + 1 else m.retryCount, phase := if again then onRetry else onFail)
  }

  predicate AtBound(m: Machine) {
    m.c.toBlock > 0 && m.c.toBlock <= m.currBlock
  }

  /** The bound ends the run unless blocks are re-indexed and the latest one is known. */
  predicate EndsAtBound(m: Machine, latest: Option<nat>) {
    AtBound(m) && (!m.c.forceReindex || latest.None?)
  }

  /** On to the block of the given height. */
  function GoOn(m: Machine, toBlock: nat, height: nat): Machine
    requires m.batchSize > 0
  {
    m.(c := m.c.(toBlock := toBlock),
       totalBlocksIndexed := m.totalBlocksIndexed + 1,
       currBlock := height,
       subBlock := Batch(height, m.batchSize),
       subBlockPath := Batch(height, m.batchSize),
       filePath := FileOf(height, m.batchSize),
       retryCount := 0,
       block := None,
       phase := Reading)
  }

  function AfterIncrement(m: Machine, latest: Option<nat>): Machine
    requires m.batchSize > 0
  {
    if EndsAtBound(m, latest) then m.(totalBlocksIndexed := m.totalBlocksIndexed + 1, phase := Stopping)
    else if AtBound(m) && latest.Some? then GoOn(m, 0, latest.value + 1)
    else GoOn(m, m.c.toBlock, m.currBlock + 1)
  }

  function AfterWork(m: Machine, w: World, e: Event): Machine
    requires CanWork(m, w, e)
  {
    match e
    case Missing => m
    case ReadFails => EvalError(m, Reading, Stopping)
    case Reads => m.(block := Some(m.filePath.height), phase := Inserting)
    case InsertFails => EvalError(m, Inserting, Stopping)
    case Inserts => m.(phase := Publishing)
    case Publishes(_) => m.(phase := if m.c.keepFiles then Incrementing else RemovingFile)
    case RemoveFails => EvalError(m, RemovingFile, Incrementing)
    case Removes(dirEmpty) =>
      m.(phase := if m.currBlock + 1 == m.subBlock + m.batchSize && dirEmpty then RemovingFolder else Incrementing)
    case FolderRemoveFails => EvalError(m, RemovingFolder, Incrementing)
    case FolderRemoves => m.(phase := Incrementing)
    case Increments(latest) => AfterIncrement(m, latest)
    case Stops(latest) => m.(phase := if latest.Some? then Stopped else Panicked)
  }

  function WorldAfter(m: Machine, w: World, e: Event): World
    requires CanWork(m, w, e)
  {
    match e
    case Inserts => w.(store := w.store + {m.block.value})
    case Removes(_) => w.(disk := w.disk - {m.filePath})
    case _ => w
  }

  function TraceAfter(m: Machine, w: World, t: Trace, e: Event): Trace
    requires CanWork(m, w, e)
  {
    match e
    case Inserts => t.(inserted := t.inserted + [m.block.value])
    case Publishes(head) => if head then t.(heads := t.heads + [m.block.value]) else t
    case RemoveFails =>
      if m.retryCount < m.c.retryCountOnFailure then t
      else t.(removals := t.removals + [Removal(m.filePath.height, false)])
    case Removes(_) => t.(removals := t.removals + [Removal(m.filePath.height, true)])
    case Increments(latest) =>
      t.(byBound := EndsAtBound(m, latest) && !m.c.forceReindex,
         jump := if AtBound(m) && !EndsAtBound(m, latest) then latest else t.jump)
    case _ => t
  }

  function AfterEvent(life: Life, e: Event): Life
    requires CanWork(life.m, life.w, e)
  {
    Life(AfterWork(life.m, life.w, e), WorldAfter(life.m, life.w, e), TraceAfter(life.m, life.w, life.t, e))
  }

  const NO_TRACE := Trace([], [], [], None, false)
}
