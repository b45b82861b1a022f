/** The value-level meaning of `src/transition.rs`: the request slot, the
    transition queue and one run of the `transition` system on one entity.
    Module Transitions performs the same steps in place on objects and is
    proved to agree with `Tick`. */
module Engine {
  import opened Wrappers
  import opened Behaviors
  import Events
  import opened BehaviorStack

  /** A specific kind of transition which may stop active behaviors first. */
  datatype Interruption<B> =
    | Start(next: B)              // stop every behavior that yields to `next`, then start it
    | Resume(index: BehaviorIndex) // stop every behavior above `index`, resuming it

  /** The single-slot pending request of an entity. */
  datatype Transition<B> =
    | None
    | Next(next: B)
    | Interrupt(interruption: Interruption<B>)
    | Previous
  {
    /** `Transition::is_none`: no pending request of any kind. */
    predicate IsNone()
      ensures IsNone() <==> !(Next? || Interrupt? || Previous?)
    {
      this.None?
    }
  }

  /** `Transition::default`: nothing pending. */
  function DefaultTransition<B>(): (t: Transition<B>)
    ensures t.IsNone()
  {
    Transition.None
  }

  /** One scripted step of a transition queue. */
  datatype QueueItem<B> =
    | Start(next: B)      // start `next`, then carry on
    | StartWait(next: B)  // start `next`, then wait for it to stop
    | Stop                // stop the current behavior

  /** The contents of a `TransitionQueue` component: its items, front first,
      and the index whose stop it waits for, if any. */
  datatype Queue<B> = Queue(items: seq<QueueItem<B>>, waitFor: Option<BehaviorIndex>)

  /** `TransitionQueue::update`, run after this tick's transition. `index` is
      the current index after that transition; `stopIndex` is the index the
      tick popped from, if its request was `Previous`. Returns the new queue and
      the request it makes for the next tick (`None` if it makes none). */
  function Update<B>(q: Queue<B>, index: BehaviorIndex, stopIndex: Option<BehaviorIndex>): (r: (Queue<B>, Transition<B>))
    requires |q.items| > 0
    ensures q.waitFor.Some? && stopIndex != Some(q.waitFor.value) ==> r == (q, Transition.None)
    ensures !(q.waitFor.Some? && stopIndex != Some(q.waitFor.value)) ==>
      && r.0.items == q.items[1..]
      && match q.items[0]
         case Start(next) => r.0.waitFor.None? && r.1 == Next(next)
         case StartWait(next) => r.0.waitFor == Some(NextIndex(index)) && r.1 == Next(next)
         case Stop => r.0.waitFor.None? && r.1 == Previous
  {
    if q.waitFor.Some? && (stopIndex.None? || stopIndex.value != q.waitFor.value) then
      (q, Transition.None)
    else
      match q.items[0]
      case Start(next) => (Queue(q.items[1..], Option.None), Next(next))
      case StartWait(next) => (Queue(q.items[1..], Some(NextIndex(index))), Next(next))
      case Stop => (Queue(q.items[1..], Option.None), Previous)
  }

  /** The four components of an entity the engine reads and writes; `added`
      says that its behavior was inserted since the previous run. */
  datatype Entity<B> = Entity(stack: Stack<B>, transition: Transition<B>, queue: Option<Queue<B>>, added: bool)

  /** The effect of the taken request on the stack: what it emitted, whether
      it interrupts the queue, and the index popped from by a `Previous`. */
  datatype Dispatched<B> = Dispatched(
    stack: Stack<B>,
    events: seq<Events.Event<B>>,
    interruptQueue: bool,
    stopIndex: Option<BehaviorIndex>)

  /** The `match` on the taken request. */
  function Dispatch<B>(p: Policy<B>, s: Stack<B>, t: Transition<B>): Dispatched<B>
  {
    match t
    case None => Dispatched(s, [], false, Option.None)
    case Next(next) =>
      var r := Push(p, s, next);
      Dispatched(r.stack, r.events, !r.ok, Option.None)
    case Previous =>
      var r := Pop(s);
      Dispatched(r.stack, r.events, !r.ok, Some(s.Index()))
    case Interrupt(Start(next)) =>
      var r := BehaviorStack.Interrupt(p, s, next);
      Dispatched(r.stack, r.events, true, Option.None)
    case Interrupt(Resume(index)) =>
      var r := Clear(s, index);
      Dispatched(r.stack, r.events, true, Option.None)
  }

  /** The flags `Dispatch` hands to the queue: the queue counts as
      interrupted exactly when the request was an interrupt or failed (a
      rejected `Next`, a `Previous` at the initial behavior), and a failure
      leaves the stack alone; only a `Previous` records the index it popped
      from, and no request changes nothing. */
  lemma DispatchFlags<B>(p: Policy<B>, s: Stack<B>, t: Transition<B>)
    ensures var d := Dispatch(p, s, t);
      && (d.interruptQueue <==>
            || t.Interrupt?
            || (t.Next? && !p.filterNext(s.current, t.next))
            || (t.Previous? && s.Index() == 0))
      && (d.interruptQueue && !t.Interrupt? ==> d.stack == s)
      && (d.stopIndex.Some? <==> t.Previous?)
      && (t.Previous? ==> d.stopIndex == Some(s.Index()))
      && (t.IsNone() ==> d.stack == s && d.events == [])
  {
  }

  /** The entity after one run of the `transition` system, and the events
      that run emitted. */
  datatype TickResult<B> = TickResult(entity: Entity<B>, events: seq<Events.Event<B>>)

  /** One run of the `transition` system on one entity: announce a newly added
      behavior, take the request (leaving the slot empty), dispatch it, then
      drop the queue if it was interrupted or is finished, or else let it
      make the next request. */
  function Tick<B>(p: Policy<B>, e: Entity<B>): TickResult<B>
  {
    var d := Dispatch(p, e.stack, e.transition);
    TickResult(FollowQueue(e.queue, d), Boot(e.added) + d.events)
  }

  /** What one run guarantees whatever the request: a newly added behavior
      is announced first, nothing counts as added afterwards, the stack is
      the dispatched one, the queue survives only when it was present,
      non-empty and not interrupted, and without a queue nothing is requested. */
  lemma TickShape<B>(p: Policy<B>, e: Entity<B>)
    ensures var r := Tick(p, e);
      var d := Dispatch(p, e.stack, e.transition);
      && !r.entity.added
      && r.entity.stack == d.stack
      && (r.entity.queue.Some? <==> e.queue.Some? && |e.queue.value.items| > 0 && !d.interruptQueue)
      && (r.entity.queue.None? ==> r.entity.transition.IsNone())
      && (e.added ==> |r.events| > 0 && r.events[0] == Events.Start(InitialIndex(), true))
  {
    FollowQueueKeepsOrDrops(e.queue, Dispatch(p, e.stack, e.transition));
  }

  /** A newly added behavior is announced as started, at the initial index. */
  function Boot<B>(added: bool): (r: seq<Events.Event<B>>)
    ensures added <==> r == [Events.Start(InitialIndex(), true)]
    ensures !added <==> r == []
  {
    if added then [Events.Start(InitialIndex(), true)] else []
  }

  /** The entity once the request is carried out: the queue is dropped if
      there is none, if the transition interrupted it, or if it is finished;
      otherwise it makes the next request. */
  function FollowQueue<B>(queue: Option<Queue<B>>, d: Dispatched<B>): Entity<B>
  {
    if queue.None? || d.interruptQueue || |queue.value.items| == 0 then
      Entity(d.stack, Transition.None, Option.None, false)
    else
      var (q, request) := Update(queue.value, d.stack.Index(), d.stopIndex);
      Entity(d.stack, request, Some(q), false)
  }

  /** `FollowQueue` keeps the dispatched stack and clears `added`; it keeps
      a queue exactly when one is present, not interrupted and not finished,
      and then the queue's own update makes the request; otherwise nothing
      is requested. */
  lemma FollowQueueKeepsOrDrops<B>(queue: Option<Queue<B>>, d: Dispatched<B>)
    ensures var r := FollowQueue(queue, d);
      && r.stack == d.stack && !r.added
      && (r.queue.Some? <==> queue.Some? && !d.interruptQueue && |queue.value.items| > 0)
      && (r.queue.Some? ==> (r.queue.value, r.transition) == Update(queue.value, d.stack.Index(), d.stopIndex))
      && (r.queue.None? ==> r.transition.IsNone())
  {
  }

  /** An entity with nothing to do: no request, no queue, nothing newly added. */
  predicate Idle<B>(e: Entity<B>)
  {
    e.transition.IsNone() && e.queue.None? && !e.added
  }

  /** A run on an idle entity changes nothing and emits nothing. */
  lemma TickIdle<B>(p: Policy<B>, e: Entity<B>)
    requires Idle(e)
    ensures Tick(p, e) == TickResult(e, [])
  {
  }

  /** `n` consecutive runs of the system with no outside request in between. */
  function Run<B>(p: Policy<B>, e: Entity<B>, n: nat): TickResult<B>
    decreases n
  {
    if n == 0 then
      TickResult(e, [])
    else
      var first := Tick(p, e);
      var rest := Run(p, first.entity, n - 1);
      TickResult(rest.entity, first.events + rest.events)
  }

  /** After at least one run nothing counts as newly added any more. */
  lemma {:induction false} RunNotAdded<B>(p: Policy<B>, e: Entity<B>, n: nat)
    requires n > 0
    ensures !Run(p, e, n).entity.added
    decreases n
  {
    TickShape(p, e);
    if n > 1 {
      RunNotAdded(p, Tick(p, e).entity, n - 1);
    }
  }

  /** `reset` at the initial behavior leaves the stack as it is and emits
      nothing, yet, being an interrupt, it still removes a present queue. */
  lemma ResetAtInitialDropsQueue<B>(p: Policy<B>, e: Entity<B>)
    requires e.stack.Index() == 0 && e.transition == Interrupt(Resume(InitialIndex())) && !e.added
    ensures Tick(p, e) == TickResult(Entity(e.stack, Transition.None, Option.None, false), [])
  {
  }

  /** Once idle (for instance after its queue is drained and removed), an
      entity stays as it is, silently, however many runs follow. */
  lemma {:induction false} RunIdle<B>(p: Policy<B>, e: Entity<B>, n: nat)
    requires Idle(e)
    ensures Run(p, e, n) == TickResult(e, [])
    decreases n
  {
    if n > 0 {
      TickIdle(p, e);
      RunIdle(p, e, n - 1);
    }
  }

  /** A request with no queue: the slot is emptied and only the stack moves. */
  lemma TickWithoutQueue<B>(p: Policy<B>, e: Entity<B>)
    requires e.queue.None?
    ensures var r := Tick(p, e);
      && r.entity.transition.IsNone() && r.entity.queue.None? && !r.entity.added
      && r.entity.stack == Dispatch(p, e.stack, e.transition).stack
  {
  }

  /** Any interrupt marks the queue interrupted: a present queue is removed
      that same run and makes no request. */
  lemma TickInterruptDiscardsQueue<B>(p: Policy<B>, e: Entity<B>)
    requires e.transition.Interrupt?
    ensures Tick(p, e).entity.queue.None?
    ensures Tick(p, e).entity.transition.IsNone()
  {
  }

  /** A rejected `Next` or a `Previous` at the initial behavior fails: the
      stack is untouched, the error is the last thing emitted, and a present
      queue is removed, so a queue stops at its first failure. */
  lemma TickFailureDiscardsQueue<B>(p: Policy<B>, e: Entity<B>)
    requires || (e.transition.Next? && !p.filterNext(e.stack.current, e.transition.next))
             || (e.transition.Previous? && e.stack.Index() == 0)
    ensures var r := Tick(p, e);
      && r.entity.stack == e.stack
      && r.entity.queue.None?
      && r.entity.transition.IsNone()
      && |r.events| > 0
      && r.events[|r.events| - 1] == Events.Error(
           if e.transition.Next? then Events.RejectedNext(e.transition.next) else Events.NoPrevious)
  {
  }

  /** A queue that is not interrupted is removed when it is empty and
      otherwise updated with this run's final index and popped index. */
  lemma TickQueueBookkeeping<B>(p: Policy<B>, e: Entity<B>)
    requires e.queue.Some?
    requires !Dispatch(p, e.stack, e.transition).interruptQueue
    ensures var d := Dispatch(p, e.stack, e.transition);
      var r := Tick(p, e);
      && (|e.queue.value.items| == 0 ==> r.entity.queue.None? && r.entity.transition.IsNone())
      && (|e.queue.value.items| > 0 ==>
            && r.entity.queue.Some?
            && (r.entity.queue.value, r.entity.transition) == Update(e.queue.value, d.stack.Index(), d.stopIndex))
  {
  }

  /** A queue waiting on index `w` stays exactly as it is, and requests
      nothing, unless this run was a `Previous` that popped from index `w`. */
  lemma TickQueueWaits<B>(p: Policy<B>, e: Entity<B>, w: BehaviorIndex)
    requires e.queue.Some? && |e.queue.value.items| > 0 && e.queue.value.waitFor == Some(w)
    requires !Dispatch(p, e.stack, e.transition).interruptQueue
    requires !(e.transition.Previous? && e.stack.Index() == w)
    ensures Tick(p, e).entity.queue == e.queue
    ensures Tick(p, e).entity.transition.IsNone()
  {
  }

  /** A `StartWait(next)` item waits on `current_index().next()`. When `next`
      is then started over a resumable behavior it lands exactly on that
      index, so a `Previous` that stops it pops from the index the queue waits
      on; when the behavior beneath is not resumable, `next` replaces it one
      index lower and stopping `next` does not release the queue. */
  lemma StartWaitReleasedByItsStop<B>(p: Policy<B>, s: Stack<B>, q: Queue<B>, stopIndex: Option<BehaviorIndex>)
    requires |q.items| > 0 && q.items[0].StartWait?
    requires !(q.waitFor.Some? && stopIndex != Some(q.waitFor.value))
    requires p.filterNext(s.current, q.items[0].next)
    ensures var (waiting, request) := Update(q, s.Index(), stopIndex);
      var started := Dispatch(p, s, request).stack;
      && request == Next(q.items[0].next)
      && started.current == q.items[0].next
      && (p.isResumable(s.current) <==> Dispatch(p, started, Previous).stopIndex == waiting.waitFor)
  {
  }

  /** Behaviors in memory are all resumable. */
  predicate MemoryResumable<B>(p: Policy<B>, s: Stack<B>)
  {
    forall i :: 0 <= i < |s.memory| ==> p.isResumable(s.memory[i])
  }

  /** A prefix of a resumable memory is resumable. */
  lemma PrefixResumable<B>(p: Policy<B>, s: Stack<B>, t: Stack<B>)
    requires MemoryResumable(p, s)
    requires t.Index() <= s.Index() && t.Frames() == s.Frames()[..t.Index() + 1]
    ensures MemoryResumable(p, t)
  {
    forall i | 0 <= i < |t.memory|
      ensures p.isResumable(t.memory[i])
    {
      assert t.memory[i] == t.Frames()[i] == s.Frames()[i] == s.memory[i];
    }
  }

  /** Every run keeps two invariants of a spawned entity: memory holds only
      resumable behaviors (so `pop` always resumes the immediately previous
      one), and a resumable initial behavior is never popped or replaced. */
  lemma TickKeepsStackInvariants<B>(p: Policy<B>, e: Entity<B>)
    requires MemoryResumable(p, e.stack) && p.isResumable(e.stack.Bottom())
    ensures MemoryResumable(p, Tick(p, e).entity.stack)
    ensures Tick(p, e).entity.stack.Bottom() == e.stack.Bottom()
  {
    TickShape(p, e);
    DispatchKeepsStackInvariants(p, e.stack, e.transition);
  }

  /** Carrying out any request keeps both stack invariants. */
  lemma DispatchKeepsStackInvariants<B>(p: Policy<B>, s: Stack<B>, t: Transition<B>)
    requires MemoryResumable(p, s) && p.isResumable(s.Bottom())
    ensures MemoryResumable(p, Dispatch(p, s, t).stack)
    ensures Dispatch(p, s, t).stack.Bottom() == s.Bottom()
  {
    match t
    case None =>
    case Next(next) =>
      PushKeepsStackInvariants(p, s, next);
    case Previous =>
      if s.Index() > 0 {
        PrefixResumable(p, s, Pop(s).stack);
      }
    case Interrupt(Start(next)) =>
      InterruptKeepsStackInvariants(p, s, next);
    case Interrupt(Resume(index)) =>
      ClearKeepsStackInvariants(p, s, index);
  }

  /** An interrupt keeps both stack invariants: it unwinds to a prefix and then pushes. */
  lemma InterruptKeepsStackInvariants<B>(p: Policy<B>, s: Stack<B>, next: B)
    requires MemoryResumable(p, s) && p.isResumable(s.Bottom())
    ensures MemoryResumable(p, BehaviorStack.Interrupt(p, s, next).stack)
    ensures BehaviorStack.Interrupt(p, s, next).stack.Bottom() == s.Bottom()
  {
    var yielding := YieldsTo(p, next);
    UnwindShape(s, 0, yielding);
    var u := Unwind(s, 0, yielding).stack;
    PrefixResumable(p, s, u);
    assert u.Bottom() == u.Frames()[0] == s.Frames()[0];
    PushKeepsStackInvariants(p, u, next);
  }

  /** `clear` keeps both stack invariants: it leaves a prefix of the stack. */
  lemma ClearKeepsStackInvariants<B>(p: Policy<B>, s: Stack<B>, index: BehaviorIndex)
    requires MemoryResumable(p, s) && p.isResumable(s.Bottom())
    ensures MemoryResumable(p, Clear(s, index).stack)
    ensures Clear(s, index).stack.Bottom() == s.Bottom()
  {
    ClearResumesTarget(s, index);
    if index < s.Index() {
      PrefixResumable(p, s, Clear(s, index).stack);
    }
  }

  /** `push` keeps memory resumable and never replaces a resumable initial behavior. */
  lemma PushKeepsStackInvariants<B>(p: Policy<B>, s: Stack<B>, next: B)
    requires MemoryResumable(p, s) && p.isResumable(s.Bottom())
    ensures MemoryResumable(p, Push(p, s, next).stack)
    ensures Push(p, s, next).stack.Bottom() == s.Bottom()
  {
    var r := Push(p, s, next);
    if r.ok && p.isResumable(s.current) {
      assert r.stack.Frames()[0] == (s.Frames() + [next])[0];
    } else if r.ok {
      assert s.Index() > 0;
      assert r.stack.Frames()[0] == s.memory[0] == s.Frames()[0];
    }
  }
}
