/** The bundle of components an entity needs for a behavior (`src/lib.rs`). */
module Bundles {
  import opened Wrappers
  import opened Behaviors
  import opened BehaviorStack
  import opened MemoryStack
  import opened Engine
  import opened Transitions

  /** The behavior, an empty memory and the transition slot, ready to be
      inserted on an entity. */
  class BehaviorBundle<B> {
    var behavior: B
    const memory: Memory<B>
    var transition: Transition<B>

    /** `BehaviorBundle::new`: the initial behavior must be resumable (the
        source panics otherwise); memory starts empty and nothing is requested. */
    constructor New(p: Policy<B>, behavior: B)
      requires p.isResumable(behavior)
      ensures this.behavior == behavior && memory.stack == [] && transition.IsNone()
      ensures fresh(memory)
    {
      this.behavior := behavior;
      this.memory := new Memory.Default();
      this.transition := Transition.None;
    }

    /** `BehaviorBundle::try_start`: request `next` right after insertion,
        replacing whatever the slot held. */
    method TryStart(next: B)
      modifies this
      ensures transition == Next(next) && behavior == old(behavior)
    {
      transition := Next(next);
    }

    /** Insert the bundle on a new entity (without a queue): the behavior
        counts as added, so the next run announces it. */
    method Spawn() returns (e: BehaviorEntity<B>)
      ensures fresh(e) && fresh(e.memory) && e.queue == null && e.outbox == []
      ensures e.State() == Entity(Stack(behavior, memory.stack), transition, Option.None, true)
    {
      e := new BehaviorEntity.Spawn(behavior, memory.stack, transition, null);
    }
  }

  /** Under the default policy every request to start a behavior succeeds,
      and the behavior it replaces is paused, not stopped. */
  lemma DefaultPushAlwaysPauses<B(!new)>(s: Stack<B>, next: B)
    ensures var r := BehaviorStack.Push(DefaultPolicy(), s, next);
      r.ok && r.stack == Stack(next, s.memory + [s.current])
  {
  }
}
