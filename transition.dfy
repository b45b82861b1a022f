/** `src/transition.rs` as the Rust code runs it: the queue and the entity
    components are objects changed in place, and each method is proved to
    do what the value-level functions of modules Engine and BehaviorStack say. */
module Transitions {
  import opened Wrappers
  import opened Behaviors
  import Events
  import opened BehaviorStack
  import opened MemoryStack
  import opened Engine

  /** A queue of transitions to be requested automatically, one per run. */
  class TransitionQueue<B> {
    var queue: seq<QueueItem<B>>
    var waitFor: Option<BehaviorIndex>

    function Value(): Queue<B>
      reads this
    {
      Queue(queue, waitFor)
    }

    /** `TransitionQueue::chain`: start each behavior in order, one on top of
        the other, without waiting. */
    constructor Chain(items: seq<B>)
      ensures |queue| == |items| && waitFor.None?
      ensures forall i :: 0 <= i < |items| ==> queue[i] == QueueItem.Start(items[i])
    {
      queue := seq(|items|, i requires 0 <= i < |items| => QueueItem.Start(items[i]));
      waitFor := Option.None;
    }

    /** `TransitionQueue::sequence`: start each behavior in order, waiting for
        each one to stop before starting the next. */
    constructor Sequence(items: seq<B>)
      ensures |queue| == |items| && waitFor.None?
      ensures forall i :: 0 <= i < |items| ==> queue[i] == StartWait(items[i])
    {
      queue := seq(|items|, i requires 0 <= i < |items| => StartWait(items[i]));
      waitFor := Option.None;
    }

    /** `TransitionQueue::empty`. */
    constructor Empty()
      ensures queue == [] && waitFor.None?
    {
      queue := [];
      waitFor := Option.None;
    }

    /** `TransitionQueue::start`: a queue that starts `next`. */
    constructor Start(next: B)
      ensures queue == [QueueItem.Start(next)] && waitFor.None?
    {
      queue := [];
      waitFor := Option.None;
      new;
      Push(QueueItem.Start(next));
    }

    /** `TransitionQueue::stop`: a queue that stops the current behavior. */
    constructor Stop()
      ensures queue == [QueueItem.Stop] && waitFor.None?
    {
      queue := [];
      waitFor := Option.None;
      new;
      Push(QueueItem.Stop);
    }

    /** `TransitionQueue::wait_for`: a queue that starts `next` and waits for it to stop. */
    constructor WaitFor(next: B)
      ensures queue == [StartWait(next)] && waitFor.None?
    {
      queue := [];
      waitFor := Option.None;
      new;
      var self := ThenWaitFor(next);
    }

    /** `TransitionQueue::is_empty`. */
    predicate IsEmpty()
      reads this
      ensures IsEmpty() <==> Len() == 0
    {
      queue == []
    }

    /** `TransitionQueue::len`: the number of items still to be requested. */
    function Len(): (n: nat)
      reads this
      ensures n == |Value().items|
    {
      |queue|
    }

    /** `TransitionQueue::then`: also start `next` afterwards. */
    method Then(next: B) returns (r: TransitionQueue<B>)
      modifies this
      ensures r == this
      ensures queue == old(queue) + [QueueItem.Start(next)] && waitFor == old(waitFor)
    {
      Push(QueueItem.Start(next));
      r := this;
    }

    /** `TransitionQueue::then_if`: `then(next)` when `condition` holds, and
        the queue unchanged otherwise. */
    method ThenIf(condition: bool, next: B) returns (r: TransitionQueue<B>)
      modifies this
      ensures r == this
      ensures queue == old(queue) + (if condition then [QueueItem.Start(next)] else [])
      ensures waitFor == old(waitFor)
    {
      if condition {
        r := Then(next);
        return;
      }
      r := this;
    }

    /** `TransitionQueue::then_wait_for`: also start `next` afterwards and wait for it to stop. */
    method ThenWaitFor(next: B) returns (r: TransitionQueue<B>)
      modifies this
      ensures r == this
      ensures queue == old(queue) + [StartWait(next)] && waitFor == old(waitFor)
    {
      Push(StartWait(next));
      r := this;
    }

    /** `TransitionQueue::then_stop`: also stop the current behavior afterwards. */
    method ThenStop() returns (r: TransitionQueue<B>)
      modifies this
      ensures r == this
      ensures queue == old(queue) + [QueueItem.Stop] && waitFor == old(waitFor)
    {
      Push(QueueItem.Stop);
      r := this;
    }

    /** `TransitionQueue::push`: append at the back; earlier items keep their places. */
    method Push(item: QueueItem<B>)
      modifies this
      ensures queue == old(queue) + [item] && waitFor == old(waitFor)
    {
      queue := queue + [item];
    }

    /** `TransitionQueue::update`: unless waiting, pop the front item and
        turn it into the request for the next run (returned, with `None` when
        the queue makes no request). */
    method Update(index: BehaviorIndex, stopIndex: Option<BehaviorIndex>) returns (request: Transition<B>)
      requires !IsEmpty()
      modifies this
      ensures (Value(), request) == Engine.Update(old(Value()), index, stopIndex)
    {
      request := Transition.None;
      if waitFor.Some? {
        if stopIndex.Some? {
          if waitFor.value != stopIndex.value {
            return;
          }
        } else {
          return;
        }
      }
      var element := queue[0];
      queue := queue[1..];
      match element
      case Start(next) =>
        waitFor := Option.None;
        request := Next(next);
      case StartWait(next) =>
        waitFor := Some(NextIndex(index));
        request := Next(next);
      case Stop =>
        waitFor := Option.None;
        request := Previous;
    }
  }

  /** One entity with a behavior: its current behavior, its `Memory`, its
      `Transition` slot, its `TransitionQueue` component when present, and
      the outbox of notifications emitted for it. */
  class BehaviorEntity<B> {
    var behavior: B
    const memory: Memory<B>
    var transition: Transition<B>
    var queue: TransitionQueue?<B>
    /** The behavior component was inserted since the previous run. */
    var added: bool
    var outbox: seq<Events.Event<B>>

    /** The objects that make up this entity. */
    ghost function Repr(): set<object>
      reads this
    {
      {this, memory} + (if queue == null then {} else {queue})
    }

    function View(): Stack<B>
      reads this, memory
    {
      Stack(behavior, memory.stack)
    }

    function State(): Entity<B>
      reads this, memory, queue
    {
      Entity(View(), transition, QueueValue(), added)
    }

    /** Spawn an entity with the given components; its behavior counts as added. */
    constructor Spawn(behavior: B, paused: seq<B>, transition: Transition<B>, queue: TransitionQueue?<B>)
      ensures State() == Entity(Stack(behavior, paused), transition, if queue == null then Option.None else Some(queue.Value()), true)
      ensures this.queue == queue && fresh(memory) && outbox == []
    {
      var m := new Memory.Default();
      m.stack := paused;
      this.behavior := behavior;
      this.memory := m;
      this.transition := transition;
      this.queue := queue;
      this.added := true;
      this.outbox := [];
    }

    /** `current_index`: the index of the current behavior. */
    function CurrentIndex(): BehaviorIndex
      reads this, memory
      ensures CurrentIndex() == View().Index()
    {
      memory.Len()
    }

    /** `Transition::take`: hand out the pending request and leave the slot empty. */
    method Take() returns (t: Transition<B>)
      modifies this
      ensures t == old(transition) && transition.IsNone()
      ensures behavior == old(behavior) && queue == old(queue) && added == old(added) && outbox == old(outbox)
    {
      t := transition;
      transition := Transition.None;
    }

    /** `push(next)`, in place. */
    method Push(p: Policy<B>, next: B) returns (ok: bool)
      modifies this, memory
      ensures var r := BehaviorStack.Push(p, old(View()), next);
        ok == r.ok && View() == r.stack && outbox == old(outbox) + r.events
      ensures transition == old(transition) && queue == old(queue) && added == old(added)
    {
      if !p.filterNext(behavior, next) {
        outbox := outbox + [Events.Error(Events.RejectedNext(next))];
        return false;
      }
      var index := CurrentIndex();
      var previous := behavior;
      behavior := next;
      if p.isResumable(previous) {
        memory.Push(previous);
        outbox := outbox + [Events.Pause(index), Events.Start(index + 1, false), Events.Activate(index + 1, false, false)];
      } else {
        outbox := outbox + [Events.Stop(index, previous, false), Events.Start(index, false), Events.Activate(index, false, false)];
      }
      return true;
    }

    /** `pop()`, in place. */
    method Pop() returns (ok: bool)
      modifies this, memory
      ensures var r := BehaviorStack.Pop(old(View()));
        ok == r.ok && View() == r.stack && outbox == old(outbox) + r.events
      ensures transition == old(transition) && queue == old(queue) && added == old(added)
    {
      var index := CurrentIndex();
      var resumed := memory.Pop();
      if resumed.None? {
        outbox := outbox + [Events.Error(Events.NoPrevious)];
        return false;
      }
      var previous := behavior;
      behavior := resumed.value;
      outbox := outbox + [Events.Stop(index, previous, false), Events.Resume(index - 1), Events.Activate(index - 1, true, false)];
      return true;
    }

    /** Stop behaviors from the top down, as interrupted, while the stack is
        deeper than `floor` and the current behavior satisfies `yielding`. */
    method Unwind(floor: BehaviorIndex, yielding: B -> bool)
      modifies this, memory
      ensures var r := BehaviorStack.Unwind(old(View()), floor, yielding);
        View() == r.stack && outbox == old(outbox) + r.events
      ensures transition == old(transition) && queue == old(queue) && added == old(added)
    {
      ghost var start := View();
      ghost var emitted: seq<Events.Event<B>> := [];
      while CurrentIndex() > floor && yielding(behavior)
        invariant var rest := BehaviorStack.Unwind(View(), floor, yielding);
          BehaviorStack.Unwind(start, floor, yielding) == Step(rest.stack, emitted + rest.events)
        invariant outbox == old(outbox) + emitted
        invariant transition == old(transition) && queue == old(queue) && added == old(added)
        decreases CurrentIndex()
      {
        var index := CurrentIndex();
        var stop := Events.Stop(index, behavior, true);
        Drop();
        ghost var rest := BehaviorStack.Unwind(View(), floor, yielding);
        assert emitted + ([stop] + rest.events) == (emitted + [stop]) + rest.events;
        outbox := outbox + [stop];
        emitted := emitted + [stop];
      }
    }

    /** Remove the current behavior and make the one paused beneath it current. */
    method Drop()
      requires CurrentIndex() > 0
      modifies this, memory
      ensures View() == Below(old(View()))
      ensures transition == old(transition) && queue == old(queue) && added == old(added) && outbox == old(outbox)
    {
      ghost var before := View();
      var resumed := memory.Pop();
      assert resumed == Some(before.memory[|before.memory| - 1]);
      behavior := resumed.value;
    }

    /** `interrupt(next)`, in place. */
    method Interrupt(p: Policy<B>, next: B)
      modifies this, memory
      ensures var r := BehaviorStack.Interrupt(p, old(View()), next);
        View() == r.stack && outbox == old(outbox) + r.events
      ensures transition == old(transition) && queue == old(queue) && added == old(added)
    {
      Unwind(InitialIndex(), YieldsTo(p, next));
      var _ := Push(p, next);
    }

    /** `clear(target)`, in place. */
    method Clear(target: BehaviorIndex)
      modifies this, memory
      ensures var r := BehaviorStack.Clear(old(View()), target);
        View() == r.stack && outbox == old(outbox) + r.events
      ensures transition == old(transition) && queue == old(queue) && added == old(added)
    {
      if target < CurrentIndex() {
        Unwind(target + 1, EveryFrame());
        var _ := Pop();
      }
    }

    /** Carry out the request `t` on the stack, as the `transition` system
        does after taking it. */
    method Dispatch(p: Policy<B>, t: Transition<B>) returns (interruptQueue: bool, stopIndex: Option<BehaviorIndex>)
      modifies this, memory
      ensures var d := Engine.Dispatch(p, old(View()), t);
        && View() == d.stack && outbox == old(outbox) + d.events
        && interruptQueue == d.interruptQueue && stopIndex == d.stopIndex
      ensures transition == old(transition) && queue == old(queue) && added == old(added)
    {
      stopIndex := Option.None;
      interruptQueue := false;
      match t
      case Next(next) =>
        var ok := Push(p, next);
        interruptQueue := !ok;
      case Previous =>
        stopIndex := Some(CurrentIndex());
        var ok := Pop();
        interruptQueue := !ok;
      case Interrupt(Start(next)) =>
        Interrupt(p, next);
        interruptQueue := true;
      case Interrupt(Resume(index)) =>
        Clear(index);
        interruptQueue := true;
      case None =>
    }

    /** The queue option this entity holds. */
    function QueueValue(): Option<Queue<B>>
      reads this, queue
    {
      if queue == null then Option.None else Some(queue.Value())
    }

    /** After the request `d` is carried out: drop the queue if there is none,
        if the transition interrupted it, or if it is finished; otherwise let
        it make the next request. */
    method FollowQueue(ghost d: Dispatched<B>, interruptQueue: bool, stopIndex: Option<BehaviorIndex>)
      requires transition.IsNone() && !added
      requires d.stack == View() && d.interruptQueue == interruptQueue && d.stopIndex == stopIndex
      modifies this, queue
      ensures State() == Engine.FollowQueue(old(QueueValue()), d)
      ensures queue == null || queue == old(queue)
      ensures outbox == old(outbox)
    {
      if queue == null || interruptQueue || queue.IsEmpty() {
        queue := null;
      } else {
        transition := queue.Update(CurrentIndex(), stopIndex);
      }
    }

    /** Announce a newly added behavior; it then no longer counts as added. */
    method Boot()
      modifies this
      ensures outbox == old(outbox) + Engine.Boot(old(added)) && !added
      ensures behavior == old(behavior) && transition == old(transition) && queue == old(queue)
    {
      if added {
        outbox := outbox + [Events.Start(InitialIndex(), true)];
        added := false;
      }
    }

    /** The body of the `transition` system for this entity. */
    method Tick(p: Policy<B>)
      modifies this, memory, queue
      ensures State() == Engine.Tick(p, old(State())).entity
      ensures outbox == old(outbox) + Engine.Tick(p, old(State())).events
      ensures queue == null || queue == old(queue)
    {
      ghost var e := State();
      ghost var before, announced := outbox, Engine.Boot(added);
      Boot();
      assert outbox == before + announced;
      assert View() == e.stack && transition == e.transition && QueueValue() == e.queue;
      Carry(p);
      ghost var d := Engine.Dispatch(p, e.stack, e.transition);
      ghost var dispatched := d.events;
      assert outbox == (before + announced) + dispatched;
      AppendAssociates(before, announced, dispatched);
      assert Engine.Tick(p, e) == TickResult(Engine.FollowQueue(e.queue, d), announced + dispatched);
    }

    /** Take the request, carry it out and follow the queue: `Tick` after
        the announcement of a newly added behavior. */
    method Carry(p: Policy<B>)
      requires !added
      modifies this, memory, queue
      ensures var d := Engine.Dispatch(p, old(View()), old(transition));
        && State() == Engine.FollowQueue(old(QueueValue()), d)
        && outbox == old(outbox) + d.events
      ensures queue == null || queue == old(queue)
    {
      ghost var q := QueueValue();
      var t := Take();
      var interruptQueue, stopIndex := Dispatch(p, t);
      assert QueueValue() == q;
      FollowQueue(Engine.Dispatch(p, old(View()), t), interruptQueue, stopIndex);
    }

    /** `start(next)`: request `next`, overriding any pending request. */
    method Start(next: B)
      modifies this
      ensures transition == Next(next)
      ensures behavior == old(behavior) && queue == old(queue) && added == old(added) && outbox == old(outbox)
    {
      transition := Next(next);
    }

    /** `try_start(next)`: request `next` only if nothing is pending; otherwise
        hand `next` back and keep the pending request. */
    method TryStart(next: B) returns (r: Result<(), B>)
      modifies this
      ensures old(transition).IsNone() ==> r == Success(()) && transition == Next(next)
      ensures !old(transition).IsNone() ==> r == Failure(next) && transition == old(transition)
      ensures behavior == old(behavior) && queue == old(queue) && added == old(added) && outbox == old(outbox)
    {
      if transition.IsNone() {
        transition := Next(next);
        r := Success(());
      } else {
        r := Failure(next);
      }
    }

    /** `stop()`: request `Previous`. At the initial behavior the run reports
        `NoPrevious` and changes nothing. */
    method Stop()
      modifies this
      ensures transition == Previous
      ensures behavior == old(behavior) && queue == old(queue) && added == old(added) && outbox == old(outbox)
    {
      transition := Previous;
    }

    /** `reset()`: request a return to the initial behavior. */
    method Reset()
      modifies this
      ensures transition == Transition.Interrupt(Interruption.Resume(InitialIndex()))
      ensures behavior == old(behavior) && queue == old(queue) && added == old(added) && outbox == old(outbox)
    {
      transition := Transition.Interrupt(Interruption.Resume(InitialIndex()));
    }

    /** `interrupt_start(next)`. */
    method InterruptStart(next: B)
      modifies this
      ensures transition == Transition.Interrupt(Interruption.Start(next))
      ensures behavior == old(behavior) && queue == old(queue) && added == old(added) && outbox == old(outbox)
    {
      transition := Transition.Interrupt(Interruption.Start(next));
    }

    /** `interrupt_resume(index)`: resume the behavior at `index`. */
    method InterruptResume(index: BehaviorIndex)
      modifies this
      ensures transition == Transition.Interrupt(Interruption.Resume(index))
      ensures behavior == old(behavior) && queue == old(queue) && added == old(added) && outbox == old(outbox)
    {
      transition := Transition.Interrupt(Interruption.Resume(index));
    }

    /** `interrupt_stop(index)`: stop the behavior at `index` and everything
        above it, resuming the one beneath. The initial behavior has nothing
        beneath it, so asking to stop it requests nothing. */
    method InterruptStop(index: BehaviorIndex)
      modifies this
      ensures PreviousIndex(index).Some? ==> transition == Transition.Interrupt(Interruption.Resume(index - 1))
      ensures PreviousIndex(index).None? ==> transition == old(transition)
      ensures behavior == old(behavior) && queue == old(queue) && added == old(added) && outbox == old(outbox)
    {
      var below := PreviousIndex(index);
      if below.Some? {
        transition := Transition.Interrupt(Interruption.Resume(below.value));
      }
    }
  }

  /** The `transition` system: one run over every entity, each on its own
      components only. */
  method TransitionSystem<B>(p: Policy<B>, entities: seq<BehaviorEntity<B>>)
    requires forall i, j :: 0 <= i < j < |entities| ==> entities[i].Repr() !! entities[j].Repr()
    modifies set i, o | 0 <= i < |entities| && o in entities[i].Repr() :: o
    ensures forall i :: 0 <= i < |entities| ==>
      && entities[i].State() == Engine.Tick(p, old(entities[i].State())).entity
      && entities[i].outbox == old(entities[i].outbox) + Engine.Tick(p, old(entities[i].State())).events
  {
    ghost var reprs := seq(|entities|, i requires 0 <= i < |entities| reads set j | 0 <= j < |entities| :: entities[j] => entities[i].Repr());
    for n := 0 to |entities|
      invariant forall i :: 0 <= i < |entities| ==> entities[i].Repr() <= reprs[i]
      invariant forall i :: 0 <= i < n ==>
        && entities[i].State() == Engine.Tick(p, old(entities[i].State())).entity
        && entities[i].outbox == old(entities[i].outbox) + Engine.Tick(p, old(entities[i].State())).events
      invariant forall i :: n <= i < |entities| ==>
        && entities[i].State() == old(entities[i].State())
        && entities[i].outbox == old(entities[i].outbox)
    {
      TickOne(p, entities, n, reprs);
    }
  }

  /** Appending to an outbox in two steps appends the two parts together. */
  lemma AppendAssociates<T>(a: seq<T>, b: seq<T>, c: seq<T>)
    ensures (a + b) + c == a + (b + c)
  {
  }

  /** Runs the transition system on the `n`-th entity and leaves every other
      entity as it was. */
  method TickOne<B>(p: Policy<B>, entities: seq<BehaviorEntity<B>>, n: nat, ghost reprs: seq<set<object>>)
    requires n < |entities| == |reprs|
    requires forall i :: 0 <= i < |entities| ==> entities[i].Repr() <= reprs[i]
    requires forall i, j :: 0 <= i < j < |entities| ==> reprs[i] !! reprs[j]
    modifies entities[n].Repr()
    ensures entities[n].State() == Engine.Tick(p, old(entities[n].State())).entity
    ensures entities[n].outbox == old(entities[n].outbox) + Engine.Tick(p, old(entities[n].State())).events
    ensures forall i :: 0 <= i < |entities| ==> entities[i].Repr() <= reprs[i]
    ensures forall i :: 0 <= i < |entities| && i != n ==>
      && entities[i].State() == old(entities[i].State())
      && entities[i].outbox == old(entities[i].outbox)
  {
    entities[n].Tick(p);
  }
}
