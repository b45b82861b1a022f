/** The notification records of the engine. Each entity keeps its own
    outbox, so the `instance` field of every record is implicit. */
module Events {
  import opened Behaviors

  /** Why a transition failed. */
  datatype TransitionError<B> =
    | RejectedNext(behavior: B)   // refused by `filter_next`; the refused behavior is handed back
    | NoPrevious                  // the initial behavior may not be stopped

  datatype Event<B> =
    | Start(index: BehaviorIndex, initial: bool)
    | Pause(index: BehaviorIndex)
    | Resume(index: BehaviorIndex)
    | Activate(index: BehaviorIndex, resume: bool, initial: bool)
    | Stop(index: BehaviorIndex, behavior: B, interrupt: bool)
    | Error(error: TransitionError<B>)
}
