/** The bounded queue of account/txnQ.go: a buffered channel consumed by a worker that drains it on close. */
module TxnQueue {

  /** The queue seen from outside: what was accepted, what the worker has handled, what is still buffered. */
  datatype Ledger<T> = Ledger(accepted: seq<T>, handled: seq<T>, buffer: seq<T>, closed: bool, cancelled: bool)

  /** What can happen to a queue. `Push` is a push that completes or is refused; the worker meets either an item, the
      close, or, when the queue is cancelled, possibly the cancellation before an item that is ready. */
  datatype Event<T> = Push(item: T) | Work(cancelFirst: bool) | Close | Cancel

  /** What one round of the worker loop ends in. */
  datatype Round = Stays | Leaves | Blocks

  function WorkRound<T>(l: Ledger<T>, cancelFirst: bool): (Ledger<T>, Round) {
    if l.cancelled && (cancelFirst || (l.buffer == [] && !l.closed)) then (l, Leaves)
    else if l.buffer == [] then (l, if l.closed then Leaves else Blocks)
    else (l.(handled := l.handled + [l.buffer[0]], buffer := l.buffer[1..]), if l.cancelled then Leaves else Stays)
  }

  function After<T>(l: Ledger<T>, capacity: nat, e: Event<T>): Ledger<T> {
    match e
    case Push(x) => if |l.buffer| < capacity then l.(accepted := l.accepted + [x], buffer := l.buffer + [x]) else l
    case Work(cancelFirst) => WorkRound(l, cancelFirst).0
    case Close => l.(closed := true)
    case Cancel => l.(cancelled := true)
  }

  function AfterAll<T>(l: Ledger<T>, capacity: nat, events: seq<Event<T>>): Ledger<T>
    decreases |events|
  {
    if events == [] then l else AfterAll(After(l, capacity, events[0]), capacity, events[1..])
  }

  ghost predicate Balanced<T>(l: Ledger<T>, capacity: nat) {
    l.accepted == l.handled + l.buffer && |l.buffer| <= capacity
  }

  function Fresh<T>(): Ledger<T> {
    Ledger([], [], [], false, false)
  }

  /** Over every history, the items accepted are the items handled followed by the buffer, in order: nothing is
      lost, duplicated or overtaken, and the buffer never exceeds the capacity. */
  lemma {:induction false} FifoOverAnyHistory<T>(l: Ledger<T>, capacity: nat, events: seq<Event<T>>)
    requires Balanced(l, capacity)
    ensures Balanced(AfterAll(l, capacity, events), capacity)
    ensures l.accepted <= AfterAll(l, capacity, events).accepted
    ensures l.handled <= AfterAll(l, capacity, events).handled
    decreases |events|
  {
    if events != [] {
      FifoOverAnyHistory(After(l, capacity, events[0]), capacity, events[1..]);
    }
  }

  function Rounds<T>(n: nat): (events: seq<Event<T>>)
    ensures |events| == n
  {
    seq(n, _ => Work(false))
  }

  /** A queue that was closed and not cancelled is drained by exactly as many rounds as it holds items; then every
      accepted item has been handled in order, and the next round ends the worker. */
  lemma {:induction false} ClosedQueueDrains<T>(l: Ledger<T>, capacity: nat)
    requires Balanced(l, capacity) && l.closed && !l.cancelled
    ensures var end := AfterAll(l, capacity, Rounds(|l.buffer|));
            && end == l.(handled := l.accepted, buffer := [])
            && WorkRound(end, false).1 == Leaves
    decreases |l.buffer|
  {
    if l.buffer != [] {
      var next := After(l, capacity, Work(false));
      assert l.handled + l.buffer == next.handled + next.buffer;
      ClosedQueueDrains(next, capacity);
      assert Rounds<T>(|l.buffer|)[1..] == Rounds<T>(|next.buffer|);
    } else {
      assert l.handled + l.buffer == l.handled;
    }
  }

  /** After a cancellation the worker handles at most one more item, whatever is buffered. */
  lemma CancelledQueueStops<T>(l: Ledger<T>, cancelFirst: bool)
    requires l.cancelled
    ensures WorkRound(l, cancelFirst).1 == Leaves
    ensures |WorkRound(l, cancelFirst).0.handled| <= |l.handled| + 1
  {
  }

  /** Closing and cancelling only set their flags, and a push is accepted if and only if there is room. */
  lemma EventsComeTo<T>(l: Ledger<T>, capacity: nat, x: T)
    ensures After(l, capacity, Event.Close) == l.(closed := true)
    ensures After(l, capacity, Event.Cancel) == l.(cancelled := true)
    ensures After(l, capacity, Push(x))
         == if |l.buffer| < capacity then l.(accepted := l.accepted + [x], buffer := l.buffer + [x]) else l
  {
  }

  /** A worker that was not cancelled takes the oldest item; without items it leaves a closed queue and waits on an open
      one. */
  lemma WorkersTakeTheOldest<T>(l: Ledger<T>, cancelFirst: bool)
    requires !l.cancelled
    ensures l.buffer != [] ==>
              WorkRound(l, cancelFirst) == (l.(handled := l.handled + [l.buffer[0]], buffer := l.buffer[1..]), Stays)
    ensures l.buffer == [] ==> WorkRound(l, cancelFirst) == (l, if l.closed then Leaves else Blocks)
  {
  }

  class TxnQ<T> {
    const capacity: nat
    var q: seq<T>
    var closed: bool
    var cancelled: bool
    ghost var accepted: seq<T>
    ghost var handled: seq<T>

    ghost function View(): Ledger<T>
      reads this
    {
      Ledger(accepted, handled, q, closed, cancelled)
    }

    ghost predicate Valid()
      reads this
    {
      Balanced(View(), capacity)
    }

    constructor (capacity: nat)
      ensures Valid() && View() == Fresh() && this.capacity == capacity
    {
      this.capacity := capacity;
      q, closed, cancelled := [], false, false;
      accepted, handled := [], [];
    }

    /** The caller must not have closed the queue: a push onto a closed channel panics. */
    method TryEnqueue(txnData: T) returns (ok: bool)
      requires Valid() && !closed
      modifies this
      ensures Valid() && View() == After(old(View()), capacity, Push(txnData))
      ensures ok <==> |old(q)| < capacity
    {
      ok := |q| < capacity;
      if ok {
        q := q + [txnData];
        accepted := accepted + [txnData];
      }
    }

    /** The blocking push, at the moment it goes through: there is room by then. */
    method Enqueue(data: T)
      requires Valid() && !closed && |q| < capacity
      modifies this
      ensures Valid() && View() == After(old(View()), capacity, Push(data)) && q == old(q) + [data]
    {
      q := q + [data];
      accepted := accepted + [data];
    }

    /** The `close` of the channel; the wait for the worker is `RunWorker` reaching its end. */
    method CloseChannel()
      requires Valid() && !closed
      modifies this
      ensures Valid() && View() == After(old(View()), capacity, Event.Close)
    {
      closed := true;
    }

    method CancelWorker()
      requires Valid()
      modifies this
      ensures Valid() && View() == After(old(View()), capacity, Event.Cancel)
    {
      cancelled := true;
    }

    /** One round of the worker goroutine: a `select` on the cancellation and the channel. */
    method WorkerRound(cancelFirst: bool) returns (round: Round)
      requires Valid()
      modifies this
      ensures Valid() && (View(), round) == WorkRound(old(View()), cancelFirst)
    {
      if cancelled && (cancelFirst || (|q| == 0 && !closed)) {
        return Leaves;
      }
      if |q| == 0 {
        return if closed then Leaves else Blocks;
      }
      var data := q[0];
      q := q[1..];
      handled := handled + [data];
      return if cancelled then Leaves else Stays;
    }

    /** The worker loop, until it leaves or has to wait. Closing without cancelling drains the queue completely. */
    method RunWorker() returns (round: Round)
      requires Valid()
      modifies this
      ensures Valid() && round != Stays && accepted == old(accepted) && closed == old(closed)
      ensures closed && !old(cancelled) ==> round == Leaves && q == [] && handled == old(accepted)
      ensures !closed && !old(cancelled) ==> round == Blocks && q == [] && handled == old(accepted)
    {
      round := Stays;
      while round == Stays
        invariant Valid() && accepted == old(accepted) && closed == old(closed) && cancelled == old(cancelled)
        invariant round == Leaves && !cancelled ==> closed && q == []
        invariant round == Blocks ==> !closed && q == []
        decreases round == Stays, |q|
      {
        round := WorkerRound(false);
      }
      assert q == [] ==> handled + q == handled;
    }
  }
}
