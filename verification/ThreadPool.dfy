/** Where a submitted work item of a thread pool is, from the pool's queue to the end of its callback. */
module ThreadPool {
  datatype ItemPhase<+End> =
    | Pending                 // in the queue, future not running
    | Dequeued                // future running, the worker function has not taken the lock yet
    | Ready                   // the start is journalled, runner not called yet
    | Invoking                // the runner has been called
    | Ended(end: End)         // the try block is over, the outcome is not recorded yet
    | Finished                // the worker function returned, future still running
    | Settled                 // future done, done-callback still to come

  predicate FutureRunning<End>(p: ItemPhase<End>) {
    !p.Pending? && !p.Settled?
  }

  /** How many moves of the pool an item is away from leaving it, at most. */
  function MovesLeft<End>(p: ItemPhase<End>): nat {
    match p
    case Pending => 7
    case Dequeued => 6
    case Ready => 5
    case Invoking => 4
    case Ended(_) => 3
    case Finished => 2
    case Settled => 1
  }
}
