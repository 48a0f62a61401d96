/** The state functions of indexer/indexer.go as methods of an object, each proved to do what its step does. */
module IndexerProcess {
  import opened Wrappers
  import opened Indexer
  import opened IndexerRuns

  newtype uint8 = x: int | 0 <= x < 0x100
  newtype uint16 = x: int | 0 <= x < 0x1_0000

  /** An error of the store or of the file system, or none. */
  datatype Result = Ok | Error

  class BlockIndexer {
    const keepFiles: bool
    const forceReindex: bool
    const retryCountOnFailure: uint8
    const subFolderBatchSize: uint16
    const genesisBlock: nat
    const fromBlock: nat
    const hasBroker: bool
    var toBlock: nat

    var currBlock: nat
    var subBlock: nat
    const batchSize: nat
    var subBlockPath: nat
    var filePath: Path
    var retryCount: uint8
    var block: Option<nat>
    var totalBlocksIndexed: nat

    // what the indexer works on
    var store: set<nat>
    var disk: set<Path>
    ghost var trace: Trace

    ghost function MachineView(phase: Phase): Machine
      reads this
    {
      Machine(
        Config(keepFiles, forceReindex, retryCountOnFailure as int, subFolderBatchSize as int, genesisBlock, fromBlock,
               toBlock, hasBroker),
        currBlock, subBlock, batchSize, subBlockPath, filePath, retryCount as int, block, totalBlocksIndexed, phase)
    }

    ghost function View(phase: Phase): Life
      reads this
    {
      Life(MachineView(phase), World(store, disk), trace)
    }

    ghost predicate Can(phase: Phase, e: Event)
      reads this
    {
      CanWork(MachineView(phase), World(store, disk), e)
    }

    /** `New`, where it succeeds. */
    constructor (config: Config, latest: Option<nat>, w: World)
      requires Typed(config) && New(config, latest).Created?
      ensures View(Reading) == Life(New(config, latest).m, w, NO_TRACE)
    {
      var floor := config.genesisBlock;
      if !config.forceReindex {
        if latest.Some? {
          if latest.value >= config.genesisBlock {
            floor := latest.value + 1;
          }
        }
      }
      var from := if config.fromBlock < floor then floor else config.fromBlock;
      var sb := Batch(from, config.subFolderBatchSize);
      keepFiles, forceReindex, hasBroker := config.keepFiles, config.forceReindex, config.hasBroker;
      retryCountOnFailure := config.retryCountOnFailure as uint8;
      subFolderBatchSize := config.subFolderBatchSize as uint16;
      genesisBlock, fromBlock, toBlock := config.genesisBlock, from, config.toBlock;
      currBlock, batchSize, subBlock, subBlockPath := from, config.subFolderBatchSize, sb, sb;
      filePath := Path(sb, from);
      retryCount, block, totalBlocksIndexed := 0, None, 0;
      store, disk, trace := w.store, w.disk, NO_TRACE;
    }

    /** `evalError`: `None` where the Go function returns nil. The counter cannot overflow, because it stays within the
        configured number of retries. */
    method EvalErr(err: Result, onRetry: Phase, onFail: Phase) returns (next: Option<Phase>)
      modifies this`retryCount
      ensures err == Ok ==> next == None && retryCount == old(retryCount)
      ensures err == Error ==> next.Some? && forall any ::
                MachineView(next.value) == EvalError(old(MachineView(any)), onRetry, onFail)
      ensures err == Error && old(retryCount) < retryCountOnFailure ==>
                next == Some(onRetry) && retryCount == old(retryCount) + 1
      ensures err == Error && old(retryCount) >= retryCountOnFailure ==>
                next == Some(onFail) && retryCount == old(retryCount)
    {
      if err == Ok {
        return None;
      }
      if retryCount < retryCountOnFailure {
        retryCount := retryCount + 1;
        return Some(onRetry);
      }
      return Some(onFail);
    }

    method Read(e: Event) returns (next: Phase)
      requires Can(Reading, e)
      modifies this
      ensures View(next) == AfterEvent(old(View(Reading)), e)
    {
      if e.Missing? {
        return Reading;
      }
      var onError := EvalErr(if e.ReadFails? then Error else Ok, Reading, Stopping);
      if onError.Some? {
        return onError.value;
      }
      block := Some(filePath.height);
      return Inserting;
    }

    method Insert(e: Event) returns (next: Phase)
      requires Can(Inserting, e)
      modifies this
      ensures View(next) == AfterEvent(old(View(Inserting)), e)
    {
      var err := Error;
      if e.Inserts? {
        store := store + {block.value};
        trace := trace.(inserted := trace.inserted + [block.value]);
        err := Ok;
      }
      var onError := EvalErr(err, Inserting, Stopping);
      if onError.Some? {
        return onError.value;
      }
      return Publishing;
    }

    method Publish(e: Event) returns (next: Phase)
      requires Can(Publishing, e)
      modifies this
      ensures View(next) == AfterEvent(old(View(Publishing)), e)
      ensures next == if keepFiles then Incrementing else RemovingFile
      ensures trace.heads == old(trace.heads) + (if e.head then [block.value] else [])
    {
      if hasBroker {
        if e.head {
          trace := trace.(heads := trace.heads + [block.value]);
        }
      }
      if keepFiles {
        return Incrementing;
      }
      return RemovingFile;
    }

    method RemoveFile(e: Event) returns (next: Phase)
      requires Can(RemovingFile, e)
      modifies this
      ensures View(next) == AfterEvent(old(View(RemovingFile)), e)
    {
      var err := Error;
      if e.Removes? {
        disk := disk - {filePath};
        trace := trace.(removals := trace.removals + [Removal(filePath.height, true)]);
        err := Ok;
      }
      var onError := EvalErr(err, RemovingFile, Incrementing);
      if onError.Some? {
        if onError.value.Incrementing? {
          trace := trace.(removals := trace.removals + [Removal(filePath.height, false)]);
        }
        return onError.value;
      }
      if currBlock + 1 == subBlock + batchSize && e.dirEmpty {
        return RemovingFolder;
      }
      return Incrementing;
    }

    method RemoveFolder(e: Event) returns (next: Phase)
      requires Can(RemovingFolder, e)
      modifies this
      ensures View(next) == AfterEvent(old(View(RemovingFolder)), e)
    {
      var onError := EvalErr(if e.FolderRemoves? then Ok else Error, RemovingFolder, Incrementing);
      if onError.Some? {
        return onError.value;
      }
      return Incrementing;
    }

    /** The end of `increment`: everything that depends on the height is set for the next one. */
    method Advance()
      requires batchSize > 0
      modifies this`currBlock, this`subBlock, this`subBlockPath, this`filePath, this`retryCount, this`block
      ensures currBlock == old(currBlock) + 1
      ensures subBlock == subBlockPath == Batch(currBlock, batchSize) && filePath == FileOf(currBlock, batchSize)
      ensures retryCount == 0 && block == None
    {
      currBlock := currBlock + 1;
      subBlock := currBlock / batchSize * batchSize;
      retryCount := 0;
      block := None;
      subBlockPath := subBlock;
      filePath := Path(subBlockPath, currBlock);
    }

    method Increment(e: Event) returns (next: Phase)
      requires Can(Incrementing, e)
      modifies this`toBlock, this`currBlock, this`subBlock, this`subBlockPath, this`filePath, this`retryCount,
        this`block, this`totalBlocksIndexed, this`trace
      ensures View(next) == AfterEvent(old(View(Incrementing)), e)
    {
      totalBlocksIndexed := totalBlocksIndexed + 1;
      trace := trace.(byBound := false);
      if toBlock > 0 && toBlock <= currBlock {
        if !forceReindex {
          trace := trace.(byBound := true);
          return Stopping;
        }
        if e.latest.None? {
          return Stopping;
        }
        trace := trace.(jump := e.latest);
        toBlock := 0;
        currBlock := e.latest.value;
      }
      Advance();
      return Reading;
    }

    /** `stop` dereferences the latest block for its log message. */
    method Stop(e: Event) returns (next: Phase)
      requires Can(Stopping, e)
      modifies this
      ensures View(next) == AfterEvent(old(View(Stopping)), e)
    {
      return if e.latest.Some? then Stopped else Panicked;
    }

    /** The loop of `index`, for a given sequence of answers of the store and the file system: it runs the state
        functions one after the other, from `read` until `stop` or until the answers end. */
    method Index(answers: seq<Event>) returns (phase: Phase)
      requires Possible(View(Reading), answers)
      modifies this
      ensures View(phase) == AfterEvents(old(View(Reading)), answers)
      ensures forall c0 :: LifeSound(c0, old(View(Reading))) ==> LifeSound(c0, View(phase))
    {
      ghost var life := View(Reading);
      forall c0 | LifeSound(c0, life)
        ensures LifeSound(c0, AfterEvents(life, answers))
      {
        AfterEventsSound(c0, life, answers);
      }
      phase := Reading;
      var k := 0;
      while k < |answers|
        invariant 0 <= k <= |answers|
        invariant Possible(View(phase), answers[k..])
        invariant AfterEvents(View(phase), answers[k..]) == AfterEvents(old(View(Reading)), answers)
      {
        var e := answers[k];
        assert answers[k..][0] == e && answers[k..][1..] == answers[k + 1..];
        phase := Step(phase, e);
        k := k + 1;
      }
    }

    /** One round of the loop: the state function that `f` holds. */
    method Step(phase: Phase, e: Event) returns (next: Phase)
      requires Can(phase, e)
      modifies this
      ensures View(next) == AfterEvent(old(View(phase)), e)
    {
      match phase {
        case Reading => next := Read(e);
        case Inserting => next := Insert(e);
        case Publishing => next := Publish(e);
        case RemovingFile => next := RemoveFile(e);
        case RemovingFolder => next := RemoveFolder(e);
        case Incrementing => next := Increment(e);
        case Stopping => next := Stop(e);
      }
    }
  }

  /** Whether the answers fit the states that they meet. */
  ghost predicate Possible(life: Life, answers: seq<Event>)
    decreases |answers|
  {
    answers == [] || (CanWork(life.m, life.w, answers[0]) && Possible(AfterEvent(life, answers[0]), answers[1..]))
  }

  ghost function AfterEvents(life: Life, answers: seq<Event>): Life
    requires Possible(life, answers)
    decreases |answers|
  {
    if answers == [] then life else AfterEvents(AfterEvent(life, answers[0]), answers[1..])
  }

  /** Whatever the answers, the invariant of a run holds from its creation on. */
  lemma {:induction false} AfterEventsSound(c0: Config, life: Life, answers: seq<Event>)
    requires LifeSound(c0, life) && Possible(life, answers)
    ensures LifeSound(c0, AfterEvents(life, answers))
    decreases |answers|
  {
    if answers != [] {
      WorkKeepsLife(c0, life, answers[0]);
      AfterEventsSound(c0, AfterEvent(life, answers[0]), answers[1..]);
    }
  }
}
