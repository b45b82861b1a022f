# moonshine_behavior: the behavior stack and its transition system

`moonshine_behavior` gives each entity a stack of behaviors:

- the **current** behavior;
- a `Memory` of the behaviors paused beneath it;
- a single-slot `Transition` request (`None`, `Next(b)`, `Previous`, `Interrupt(Start(b))`, `Interrupt(Resume(i))`);
- optionally, a `TransitionQueue` that scripts requests one run at a time and can wait for a given stack index to be stopped.

Once per frame the `transition` system takes each entity's request, leaving the slot empty. It carries the request out as a `push`, `pop`, `interrupt` or `clear`. Then it decides whether the queue was interrupted, has finished, or makes the next request.

This project models that core in two layers.

- **Value layer.** The value-level functions say what one run does.
  - `BehaviorStack`: `Push`, `Pop`, `Unwind`, `Interrupt` and `Clear` on a `Stack` value, which is the current behavior over its memory, bottom first.
  - `Engine`: `Update` of a queue, then `Dispatch`, `FollowQueue`, `Tick` and `Run` on an `Entity` value.
- **Object layer.** Classes perform the same steps in place. `Transitions.BehaviorEntity` holds the components of one entity. `Transitions.TransitionQueue` holds a queue. `MemoryStack.Memory` and `Sequences.Sequence` hold the two small containers. Each method is proved against the value layer: `BehaviorEntity.Tick` ends in exactly the state and outbox that `Engine.Tick` gives.

The main proved properties:

- the index of the current behavior is the depth of memory;
- a failed `Next` or `Previous` leaves the stack as it was and discards the queue;
- every interrupt discards the queue;
- a waiting queue stays untouched until a `Previous` pops from the awaited index (an interrupt or a failed request removes it);
- a queue is consumed front to back, one item per run;
- an idle entity stays idle;
- memory only ever holds resumable behaviors, and a resumable initial behavior is never replaced;
- `clear(i)` resumes exactly the behavior at index `i`.

The concrete type `T = A | B | C | D` comes from `src/tests.rs`, with its `filter_next` and `filter_yield` tables. Every scenario test there is replayed run by run on a spawned entity (module `BehaviorTests`). The observation each test asserts becomes a postcondition of a method.

A behavior type's trait is a `Policy` record holding `filterNext`, `filterYield` and `isResumable`. Notifications (`Start`, `Pause`, `Resume`, `Activate`, `Stop`, `Error`) are appended to a per-entity `outbox` instead of being triggered through the ECS.

The bodies of `push`, `pop`, `interrupt`, `clear`, `current_index` and the request setters live in a module that is not part of this model. What they do to the stack is taken from:

- the `Interruption` and `TransitionError` documentation in `src/transition.rs`;
- the `is_resumable` documentation in `src/lib.rs`;
- the scenarios in `src/tests.rs`.

Those sources say which behavior ends up current and what memory holds. They say little about the notifications. The exact order and content of the notifications each operation emits is an assumption of this model (see "## Left out").

The files come from two revisions of the library. `src/lib.rs` is the older one, with `allows_next`, `Transition::Started` and a `Future` result. The model follows the newer `src/transition.rs` and `src/tests.rs`, so `BehaviorBundle::new` starts with the request `None`, not `Started`. The `initial` flag of the `Start` notification is taken from the `Start` event of `src/events.rs:82-89`; the `Start` that `src/transition.rs:77-80` triggers has only the entity and the index.

Where the older documentation and the code differ, the model follows the code:

- **Index a `StartWait` waits on.** It is `current_index().next()`, taken when the queue makes its request (`src/transition.rs:320`). This is the index of the started behavior only when the behavior it starts over is resumable. `Engine.StartWaitReleasedByItsStop` proves this.
- **`stop` at the initial behavior.** The older documentation says it "does nothing". In the newer code the run reports `NoPrevious` (`src/transition.rs:147-148`, test `pop_initial`). The stack is unchanged either way.
- **`reset` at the initial behavior.** The older documentation says it "does nothing" (`src/lib.rs:490-496`). In the model `reset` requests `Interrupt(Resume(0))`, and every interrupt marks the queue interrupted (`src/transition.rs:105-108`). So the stack is unchanged and nothing is emitted, but a present queue is removed. `Engine.ResetAtInitialDropsQueue` proves this.

## Model

| member | source | states |
|---|---|---|
| Behaviors.DefaultPolicy | src/lib.rs:158-170 | a behavior type that overrides nothing allows every next behavior and is resumable. It never yields: that is this model's choice, since the cited revision has no `filter_yield` |
| Behaviors.PreviousIndex | src/tests.rs:494 | the index beneath `i` is `i - 1`, and there is none beneath the initial index 0; it is the inverse of `next` |
| Behaviors.NextIndex | src/transition.rs:320 | the index of a frame pushed on top lies strictly above |
| Behaviors.PreviousOfNext | src/tests.rs:537 | `previous(next(i)) == Some(i)`: stepping up then down returns to `i` |
| MemoryStack.Reverse | src/memory.rs:22-27 | reversal keeps the length and maps position `i` to position `len-1-i` |
| MemoryStack.ReverseKeepsElements | src/memory.rs:22-35 | an element occurs in the reversed memory iff it occurs in the memory |
| MemoryStack.Memory.Default | src/memory.rs:51-55 | default memory is empty |
| MemoryStack.Memory.Len | src/memory.rs:13-15 | the length is the number of paused behaviors |
| MemoryStack.Memory.IsEmpty | src/memory.rs:17-20 | empty iff the length is 0 |
| MemoryStack.Memory.Iter | src/memory.rs:22-27 | iteration yields every paused behavior, most recently paused first |
| MemoryStack.Memory.Previous | src/memory.rs:37-40 | none iff memory is empty, otherwise the most recently pushed behavior |
| MemoryStack.PreviousLeadsIter | src/memory.rs:24-40 | `previous` is the first item `iter` yields, and none exactly when `iter` yields nothing |
| MemoryStack.Memory.Push | src/memory.rs:42-44 | pushing appends at the top; the pushed behavior becomes `previous` and the length grows by one |
| MemoryStack.Memory.Pop | src/memory.rs:46-48 | pop returns the old `previous` and removes it; on an empty memory it returns none and memory stays empty |
| MemoryStack.Contains | src/memory.rs:29-35 | holds iff some paused behavior equals `b`, equivalently iff `iter` yields it |
| MemoryStack.PushPop | src/memory.rs:42-48 | `push(x)` then `pop()` returns `Some(x)` and restores the memory |
| Sequences.Sequence.New | src/sequence.rs:15-19 | holds the given items front to back in order |
| Sequences.Sequence.Empty | src/sequence.rs:21-25 | holds nothing |
| Sequences.Sequence.Start | src/sequence.rs:27-31 | holds exactly `[next]` |
| Sequences.Sequence.Then | src/sequence.rs:33-36 | appends `next` and returns the same sequence |
| Sequences.Sequence.Push | src/sequence.rs:38-40 | appends at the back; the length grows by one and earlier items keep their places |
| Sequences.Sequence.Pop | src/sequence.rs:42-44 | removes and returns the front item (first in, first out); none and no change when empty |
| BehaviorStack.Push | src/transition.rs:94-96 | succeeds iff `filter_next(current, next)`. On failure: the stack is unchanged and the only event is `RejectedNext(next)`. On success: `next` becomes current, and the old current is paused beneath it if resumable, otherwise stopped and dropped. It emits `Pause`/`Stop`, then `Start`, then `Activate` at the new index |
| BehaviorStack.Pop | src/transition.rs:97-100 | succeeds iff the current index is above 0. It then resumes the behavior directly beneath and emits `Stop`, `Resume`, `Activate`. At the initial behavior: the stack is unchanged and the only event is `NoPrevious` |
| BehaviorStack.PopUndoesPush | src/tests.rs:144-163 | pushing over a resumable behavior and popping again restores the stack exactly |
| BehaviorStack.UnwindShape | src/transition.rs:130-135 | `Unwind` leaves a prefix of the stack, never below `floor` or the initial frame, halts only at `floor` or at a frame that does not yield, and emits one event per removed frame |
| BehaviorStack.UnwindEvent | src/transition.rs:131-132 | the `k`-th event of `Unwind` is the interrupt `Stop` of the frame `k` places below the top, and that frame yields |
| BehaviorStack.UnwindTruncates | src/transition.rs:130-135 | `Unwind` as a whole: unwinding leaves a prefix of the stack. It never goes below `floor` or the initial frame, and halts only at `floor` or at a frame that does not yield. It emits one interrupt `Stop` per removed frame, topmost first, and each of those frames yielded |
| BehaviorStack.UnwindToFloor | src/transition.rs:134-135 | when every frame yields, unwinding lands exactly on `floor` |
| BehaviorStack.InterruptFloorHalts | src/transition.rs:131-133 | an interrupt halts at the initial frame or at the first frame that does not yield; every frame above it yields |
| BehaviorStack.InterruptEvents | src/transition.rs:131-133 | the events of `Interrupt`: one interrupt `Stop` per yielding frame above the floor, topmost first, then what `push(next)` over the floor frame emits |
| BehaviorStack.InterruptStack | src/transition.rs:131-133 | the stack `Interrupt` leaves is `push(next)` over the frames up to its floor |
| BehaviorStack.InterruptStopsYieldersThenPushes | src/transition.rs:131-133 | `Interrupt` as a whole: an interrupt first stops the yielding frames top-down as interrupted. `next` is then started over the halting frame (paused or dropped by its resumability) if `filter_next` allows it. Otherwise the unwound stack stays and `RejectedNext` is the last event |
| BehaviorStack.ClearResumesTarget | src/transition.rs:134-135 | `Clear`: `Resume(target)` below the current index resumes exactly the behavior at `target` with the memory beneath intact. It stops the frames above it top-down (interrupted, then a normal stop of the frame just above `target`). A target at or above the current index changes nothing |
| BehaviorStack.ClearToInitial | src/lib.rs:490-496 | `reset` lands on the initial behavior with empty memory, and does nothing (no events) at the initial behavior |
| Engine.Transition.IsNone | src/transition.rs:41-45 | holds exactly when no request of any kind (`Next`, `Interrupt`, `Previous`) is pending |
| Engine.DefaultTransition | src/transition.rs:52-56 | the default request is `None` (`is_none` holds) |
| Engine.Update | src/transition.rs:292-329 | a queue waiting on `w` is unchanged and requests nothing unless this run popped from `w`. Otherwise it removes exactly its front item: `Start(b)` clears the wait and requests `b`; `StartWait(b)` waits on `index + 1` and requests `b`; `Stop` clears the wait and requests `Previous` |
| Engine.Boot | src/transition.rs:73-86 | a newly added behavior is announced as `Start` at the initial index, and nothing is announced otherwise |
| Engine.DispatchFlags | src/transition.rs:88-110 | `Dispatch`: the queue counts as interrupted exactly when the request was an interrupt, a rejected `Next` or a `Previous` at the initial behavior; a failure leaves the stack alone; only a `Previous` records the index it popped from; no request changes nothing |
| Engine.FollowQueueKeepsOrDrops | src/transition.rs:112-124 | `FollowQueue` keeps the dispatched stack and clears `added`. It keeps a queue exactly when one is present, not interrupted and not finished, and then the queue's own update makes the request; otherwise nothing is requested |
| Engine.TickShape | src/transition.rs:68-125 | `Tick`: a newly added behavior is announced first and counts as added no more. The stack is the dispatched one. The queue survives exactly when it was present, non-empty and not interrupted. Without a queue nothing is requested |
| Engine.RunNotAdded | src/transition.rs:73-86 | `Run`: after at least one run the behavior no longer counts as newly added, so by `Engine.Boot` later runs do not announce it |
| Engine.ResetAtInitialDropsQueue | src/transition.rs:105-118 | `reset` at the initial behavior leaves the stack as it is and emits nothing, yet removes a present queue |
| Engine.TickIdle | src/transition.rs:109-114 | a run with no request, no queue and nothing newly added changes nothing and emits nothing |
| Engine.RunIdle | src/tests.rs:283-298 | once idle (for example after a drained queue is removed), any number of further runs change nothing and emit nothing |
| Engine.TickWithoutQueue | src/transition.rs:112-114 | without a queue, a run empties the slot, and only the stack moves (as the dispatched request says) |
| Engine.TickInterruptDiscardsQueue | src/transition.rs:101-118 | any `Interrupt` request removes a present queue that same run, and nothing is requested |
| Engine.TickFailureDiscardsQueue | src/transition.rs:94-118 | a rejected `Next` or a `Previous` at the initial behavior leaves the stack unchanged, ends its events with the matching error, and removes the queue |
| Engine.TickQueueBookkeeping | src/transition.rs:116-124 | a queue not interrupted is removed when empty, and is otherwise updated with the run's final index and popped index |
| Engine.TickQueueWaits | src/transition.rs:300-308 | a queue waiting on `w` stays exactly as it is and requests nothing unless the run was a `Previous` popping from index `w` |
| Engine.StartWaitReleasedByItsStop | src/transition.rs:319-321 | a `StartWait(b)` request starts `b`. Stopping `b` pops from the index the queue waits on iff the behavior `b` started over is resumable |
| Engine.TickKeepsStackInvariants | src/lib.rs:165-170 | every run keeps memory made only of resumable behaviors and keeps a resumable initial behavior at the bottom |
| Engine.DispatchKeepsStackInvariants | src/lib.rs:165-170 | every kind of request keeps memory resumable and keeps a resumable initial behavior at the bottom |
| Engine.InterruptKeepsStackInvariants | src/lib.rs:165-170 | an interrupt keeps memory resumable and keeps a resumable initial behavior at the bottom |
| Engine.ClearKeepsStackInvariants | src/lib.rs:165-170 | `clear` keeps memory resumable and keeps a resumable initial behavior at the bottom |
| Engine.PushKeepsStackInvariants | src/lib.rs:216-221 | a push keeps memory resumable and never replaces a resumable initial behavior |
| Transitions.TransitionQueue.Chain | src/transition.rs:182-187 | item `i` is `Start(items[i])`, in order, and nothing is awaited |
| Transitions.TransitionQueue.Sequence | src/transition.rs:198-203 | item `i` is `StartWait(items[i])`, in order, and nothing is awaited |
| Transitions.TransitionQueue.Empty | src/transition.rs:206-211 | no items and nothing awaited |
| Transitions.TransitionQueue.Start | src/transition.rs:214-218 | exactly `[Start(next)]` |
| Transitions.TransitionQueue.Stop | src/transition.rs:221-225 | exactly `[Stop]` |
| Transitions.TransitionQueue.WaitFor | src/transition.rs:228-230 | exactly `[StartWait(next)]` |
| Transitions.TransitionQueue.IsEmpty | src/transition.rs:233-235 | empty iff the length is 0 |
| Transitions.TransitionQueue.Len | src/transition.rs:238-240 | the length is the number of items still to be requested |
| Transitions.TransitionQueue.Then | src/transition.rs:243-246 | appends exactly `Start(next)` at the back, keeps earlier items and the wait, and returns the same queue |
| Transitions.TransitionQueue.ThenIf | src/transition.rs:267-272 | appends `Start(next)` iff `condition`; with `false` the queue is unchanged |
| Transitions.TransitionQueue.ThenWaitFor | src/transition.rs:275-278 | appends exactly `StartWait(next)` at the back and keeps the rest |
| Transitions.TransitionQueue.ThenStop | src/transition.rs:281-284 | appends exactly `Stop` at the back and keeps the rest |
| Transitions.TransitionQueue.Push | src/transition.rs:286-288 | appends one item at the back |
| Transitions.TransitionQueue.Update | src/transition.rs:292-329 | on a non-empty queue, the new queue and the returned request are exactly those `Engine.Update` gives |
| Transitions.BehaviorEntity.Spawn | src/tests.rs:80 | a spawned entity holds the given components, its behavior counts as newly added, and its outbox is empty |
| Transitions.BehaviorEntity.CurrentIndex | src/transition.rs:98 | the current index is the depth of memory |
| Transitions.BehaviorEntity.Take | src/transition.rs:47-49 | returns the pending request and leaves the slot `None` |
| Transitions.BehaviorEntity.Push | src/transition.rs:94-96 | in place, the success flag, the new stack and the emitted events are those of `BehaviorStack.Push` |
| Transitions.BehaviorEntity.Pop | src/transition.rs:97-100 | in place, exactly `BehaviorStack.Pop` |
| Transitions.BehaviorEntity.Unwind | src/transition.rs:131-132 | the loop removes frames in place until it reaches exactly the stack and events of `BehaviorStack.Unwind` |
| Transitions.BehaviorEntity.Interrupt | src/transition.rs:101-104 | in place, exactly `BehaviorStack.Interrupt` |
| Transitions.BehaviorEntity.Clear | src/transition.rs:105-108 | in place, exactly `BehaviorStack.Clear` |
| Transitions.BehaviorEntity.Dispatch | src/transition.rs:88-110 | carries out the taken request in place as `Engine.Dispatch` does, and returns its queue-interrupt flag and popped index |
| Transitions.BehaviorEntity.FollowQueue | src/transition.rs:112-124 | removes or updates the queue exactly as `Engine.FollowQueue` does, never replacing it by another queue |
| Transitions.BehaviorEntity.Boot | src/transition.rs:73-86 | announces a newly added behavior once and clears the mark |
| Transitions.BehaviorEntity.Tick | src/transition.rs:68-125 | one run in place ends in the state `Engine.Tick` gives, with its events appended to the outbox |
| Transitions.BehaviorEntity.Carry | src/transition.rs:88-124 | taking, dispatching and following the queue in place give exactly `Engine.FollowQueue` of `Engine.Dispatch`, with the dispatched events appended to the outbox |
| Transitions.TickOne | src/transition.rs:68-125 | running the system on one entity moves it as `Engine.Tick` says and leaves every other entity as it was |
| Transitions.TransitionSystem | src/transition.rs:60-126 | a run over entities with disjoint components moves each one exactly as `Engine.Tick` says and touches no other |
| Transitions.BehaviorEntity.Start | src/tests.rs:474-478 | requests `next`, overriding a pending request |
| Transitions.BehaviorEntity.TryStart | src/tests.rs:626-651 | with nothing pending, requests `next` and succeeds; otherwise hands `next` back and keeps the pending request |
| Transitions.BehaviorEntity.Stop | src/lib.rs:479-488 | requests `Previous` |
| Transitions.BehaviorEntity.Reset | src/lib.rs:490-496 | requests a return to index 0 (`Interrupt(Resume(0))`) |
| Transitions.BehaviorEntity.InterruptStart | src/transition.rs:131-133 | requests `Interrupt(Start(next))` |
| Transitions.BehaviorEntity.InterruptResume | src/transition.rs:134-135 | requests `Interrupt(Resume(index))` |
| Transitions.BehaviorEntity.InterruptStop | src/tests.rs:535-540 | stopping at `index` requests resuming `index - 1`; at the initial index nothing is requested |
| Bundles.BehaviorBundle.New | src/lib.rs:216-227 | requires a resumable initial behavior; memory starts empty and nothing is requested |
| Bundles.BehaviorBundle.TryStart | src/lib.rs:229-234 | the slot becomes a request for `next` |
| Bundles.BehaviorBundle.Spawn | src/lib.rs:198-204 | the inserted components are the bundle's, and the behavior counts as newly added |
| Bundles.DefaultPushAlwaysPauses | src/lib.rs:158-170 | under the defaults every push succeeds and pauses the old current behavior |
| BehaviorTests.FilterNext | src/tests.rs:20-27 | allows exactly A→B, A→D, B→C and C→D |
| BehaviorTests.FilterYield | src/tests.rs:29-34 | only B yields, and only to D |
| BehaviorTests.TPolicy | src/tests.rs:19-34 | the policy of `T` is those two tables with every behavior resumable |
| BehaviorTests.InitialTick | src/tests.rs:77-88 | the first run of a spawned `A` only announces `Start(0, initial)` |
| BehaviorTests.PushTick | src/tests.rs:110-123 | `Next(B)` at `A` gives `B` over `[A]` |
| BehaviorTests.PushErrorTick | src/tests.rs:125-142 | `Next(C)` at `A` reports `RejectedNext(C)` and leaves `A` with empty memory |
| BehaviorTests.PopTick | src/tests.rs:144-163 | `Previous` at `B` over `[A]` gives `A` with empty memory |
| BehaviorTests.PopInitialTick | src/tests.rs:165-180 | `Previous` at `A` reports `NoPrevious` and leaves `A` |
| BehaviorTests.StartOverTick | src/tests.rs:474-479 | `Next(C)` at `B` over `[A]` gives `C` over `[A, B]` |
| BehaviorTests.InterruptYieldingTick | src/tests.rs:436-466 | interrupting `B` over `[A]` with `D` stops `B` and gives `D` over `[A]` |
| BehaviorTests.InterruptResumeTick | src/tests.rs:492-508 | resuming index 1 from `C` over `[A, B]` gives `B` over `[A]` |
| BehaviorTests.InterruptStopTick | src/tests.rs:535-551 | resuming index 0 from `C` over `[A, B]` gives `A` with empty memory |
| BehaviorTests.InterruptPushTick | src/tests.rs:554-584 | interrupting `B` over `[A]` with `C` gives `C` over `[A, B]` |
| BehaviorTests.InterruptErrorTick | src/tests.rs:586-624 | interrupting `B` over `[A]` with `A` only reports `RejectedNext(A)`; the state is unchanged |
| BehaviorTests.TryStartTick | src/tests.rs:642-650 | the kept request `Next(B)` at `A` gives `B` over `[A]` |
| BehaviorTests.QueueTurn0 | src/tests.rs:194 | the first run of the `queue` test only requests `B` |
| BehaviorTests.QueueTurn1 | src/tests.rs:195-203 | `B` starts and the queue requests `C` |
| BehaviorTests.QueueTurn2 | src/tests.rs:205-215 | `C` starts; the queue requests `D` and waits on index 3 |
| BehaviorTests.QueueTurn3 | src/tests.rs:217-227 | `D` starts; the queue keeps waiting and requests nothing |
| BehaviorTests.QueueTurn4 | src/tests.rs:229-245 | stopping `D` at index 3 releases the queue, which requests a stop |
| BehaviorTests.QueueTurn5 | src/tests.rs:247-257 | `C` is stopped and the queue requests another stop |
| BehaviorTests.QueueTurn6 | src/tests.rs:259-269 | `B` is stopped and the queue requests `D`, leaving it empty |
| BehaviorTests.QueueTurn7 | src/tests.rs:271-281 | `D` starts over `A` and the finished queue is removed |
| BehaviorTests.QueueTurn8 | src/tests.rs:283-298 | a further run changes nothing |
| BehaviorTests.ChainTurn0 | src/tests.rs:309-317 | the first run of `chain` only requests `B` |
| BehaviorTests.ChainTurn1 | src/tests.rs:319-327 | `B` starts and the chain requests `C` |
| BehaviorTests.ChainTurn2 | src/tests.rs:329-339 | `C` starts and the chain requests `D`, leaving it empty |
| BehaviorTests.ChainTurn3 | src/tests.rs:341-351 | `D` starts and the finished chain is removed |
| BehaviorTests.ChainTurn4 | src/tests.rs:353-368 | a further run changes nothing |
| BehaviorTests.SequenceTurn0 | src/tests.rs:379-387 | the first run of `sequence` requests `B` and waits on index 1 |
| BehaviorTests.SequenceTurn1 | src/tests.rs:389-398 | `B` starts at index 1; the sequence keeps waiting |
| BehaviorTests.SequenceTurn2 | src/tests.rs:400-408 | stopping `B` at index 1 releases the sequence, which requests `D` |
| BehaviorTests.SequenceTurn3 | src/tests.rs:410-418 | `D` starts over `A` and the finished sequence is removed |
| BehaviorTests.SequenceTurn4 | src/tests.rs:420-433 | a further run changes nothing |
| BehaviorTests.Look | src/tests.rs:118 | the observation is `(previous, current)`: the behavior directly beneath the current one, if any, and the current one |
| BehaviorTests.InitialScenario | src/tests.rs:77-88 | after one run the current behavior is `A`, and the only notification is its initial `Start` |
| BehaviorTests.PushScenario | src/tests.rs:110-123 | after one run the test observes `(Some(A), B)` |
| BehaviorTests.PushErrorScenario | src/tests.rs:125-142 | the test observes `(None, A)` and an error `RejectedNext(C)` is emitted |
| BehaviorTests.PopScenario | src/tests.rs:144-163 | the test observes `(Some(A), B)` and then `(None, A)` |
| BehaviorTests.PopInitialScenario | src/tests.rs:165-180 | the test observes `(None, A)` and an error `NoPrevious` is emitted |
| BehaviorTests.QueueOfTest | src/tests.rs:185-193 | the builder chain of the `queue` test produces `[Start B, Start C, StartWait D, Stop, Stop, Start D]` |
| BehaviorTests.QueueRuns0 | src/tests.rs:194-203 | the first two runs of `queue` observe `(None, A)` and then `(Some(A), B)` |
| BehaviorTests.QueueRuns2 | src/tests.rs:205-227 | runs three and four observe `(Some(B), C)` and then `(Some(C), D)` |
| BehaviorTests.QueueRuns4 | src/tests.rs:229-269 | after `stop`, runs five to seven observe `(Some(B), C)`, `(Some(A), B)` and `(None, A)` |
| BehaviorTests.QueueRuns7 | src/tests.rs:271-298 | the last two runs observe `(Some(A), D)` twice, and the queue is gone |
| BehaviorTests.QueueScenario | src/tests.rs:182-299 | the `queue` test observes its nine states in order, and the queue is removed at the end |
| BehaviorTests.ChainOfTest | src/tests.rs:307 | `chain([B, C, D])` is `[Start B, Start C, Start D]` |
| BehaviorTests.ChainRuns0 | src/tests.rs:309-327 | the first two runs of `chain` observe `(None, A)` and then `(Some(A), B)` |
| BehaviorTests.ChainRuns2 | src/tests.rs:329-368 | the next runs observe `(Some(B), C)`, then `(Some(C), D)` twice, and the chain is gone |
| BehaviorTests.ChainScenario | src/tests.rs:301-369 | the `chain` test observes its five states in order, and the chain is removed at the end |
| BehaviorTests.SequenceOfTest | src/tests.rs:377 | `sequence([B, D])` is `[StartWait B, StartWait D]` |
| BehaviorTests.SequenceRuns0 | src/tests.rs:379-398 | the first two runs of `sequence` observe `(None, A)` and then `(Some(A), B)` |
| BehaviorTests.SequenceRuns2 | src/tests.rs:393-433 | after `stop`, the next runs observe `(None, A)`, then `(Some(A), D)` twice, and the sequence is gone |
| BehaviorTests.SequenceScenario | src/tests.rs:371-434 | the `sequence` test observes its five states in order, and the sequence is removed at the end |
| BehaviorTests.InterruptStartScenario | src/tests.rs:436-466 | the test observes `(Some(A), B)` and then `(Some(A), D)` |
| BehaviorTests.InterruptResumeScenario | src/tests.rs:468-509 | the test observes `(Some(B), C)` and then `(Some(A), B)` |
| BehaviorTests.InterruptStopScenario | src/tests.rs:511-552 | the test observes `(Some(B), C)` and then `(None, A)` |
| BehaviorTests.InterruptStartPushScenario | src/tests.rs:554-584 | the test observes `(Some(A), B)` and then `(Some(B), C)` |
| BehaviorTests.InterruptErrorScenario | src/tests.rs:586-624 | the test observes `(Some(A), B)` twice and an error `RejectedNext(A)` is emitted |
| BehaviorTests.TryStartScenario | src/tests.rs:626-651 | the first `try_start` succeeds, the second returns `Err(D)`, and the next run observes `(Some(A), B)` |

## Left out

- ECS plumbing (queries and their change filters, `Commands`, observers and triggers, component ids) is left out. Each entity keeps an outbox of notifications, and `added` stands for the `is_added` change flag.
- Lifecycle hooks (`on_start`, `on_stop` and the marker components the tests insert) and logging are left out. The tests' `With<TA>`-style filters are not checked; only the `(previous, current)` observations are.
- `initial_load` (`src/tests.rs:90-108`) is left out. It checks that hooks are replayed for a memory loaded from saved data, and hooks are not modelled.
- The default `started` and `stopped` of the older `Behavior` trait (`src/lib.rs:172-190`) are left out. The newer transition system does not consult them.
- The deprecated `TransitionQueue::new` and the `TransitionSequence` alias are left out. `new` is the same as `chain`.
- The `Future` result channel of `BehaviorBundle::try_start` is left out. It belongs to a foreign library.
- `src/events.rs` appears only as the `Event` and `TransitionError` datatypes.
- The bodies of `push`, `pop`, `interrupt`, `clear` and the request setters are in a module that is not part of this model. Their contracts come from the documentation and the tests, and `BehaviorStack` states those contracts. The documentation does not say what `clear` does with a target at or above the current index; `BehaviorStack.Clear` leaves the stack unchanged and emits nothing then, which is this model's choice.
- The notifications inside `push`, `pop`, `interrupt` and `clear` are an assumption of the model, in order and in content. The code that emits them is not part of this model. The assumed notifications are:
  - `push`: `Pause` (or `Stop` at the same index for a behavior that is not resumable), then `Start`, then `Activate`;
  - `pop`: `Stop`, then `Resume`, then `Activate`;
  - the frames an interrupt or a `clear` uncovers on the way down get no `Resume` or `Activate`, except the target of `clear`, which `pop` resumes.

  The scenarios in `src/tests.rs` do not pin this down.
- The `try_*` variants of the other request setters (`try_stop`, `try_reset`, `try_interrupt_*`) and their warnings on override belong to that same module and are left out.
- Behaviors.DefaultPolicy: the newer default of `filter_yield` lives in the module that is not part of this model, so the model does not promise to match it. The default policy here never yields, as in the older revision, which has no interrupts.
- Transitions.BehaviorEntity.InterruptStop: the model requests nothing at the initial index, because there is no index beneath it to resume.
- The pop fallback of the older `stop` documentation ("the behavior before it is tried") is not modelled separately. `Engine.TickKeepsStackInvariants` proves that memory only ever holds resumable behaviors, so `pop` always resumes the immediately previous one.
- The model is single-threaded: entities are independent, and `Transitions.TransitionSystem` requires their components to be disjoint.
