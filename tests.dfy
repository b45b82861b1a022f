/** The concrete behavior of `src/tests.rs` and its scenarios, each driven
    tick by tick on a freshly spawned entity. */
module BehaviorTests {
  import opened Wrappers
  import opened Behaviors
  import Events
  import opened BehaviorStack
  import opened MemoryStack
  import opened Engine
  import opened Transitions

  datatype T = A | B | C | D

  /** `filter_next` of `T`. */
  predicate FilterNext(current: T, next: T)
    ensures FilterNext(current, next) <==> (current, next) in {(A, B), (A, D), (B, C), (C, D)}
  {
    match current
    case A => next == B || next == D
    case B => next == C
    case C => next == D
    case D => false
  }

  /** `filter_yield` of `T`. */
  predicate FilterYield(current: T, next: T)
    ensures FilterYield(current, next) <==> (current, next) == (B, D)
  {
    match current
    case B => next == D
    case _ => false
  }

  /** `T` keeps the default `is_resumable`. */
  function TPolicy(): (p: Policy<T>)
    ensures forall x: T, y: T :: p.filterNext(x, y) <==> FilterNext(x, y)
    ensures forall x: T, y: T :: p.filterYield(x, y) <==> FilterYield(x, y)
    ensures forall x: T :: p.isResumable(x)
  {
    Policy(FilterNext, FilterYield, DefaultIsResumable)
  }

  /** An entity state in the middle of a scenario: nothing newly added. */
  function At(current: T, memory: seq<T>, t: Transition<T>, q: Option<Queue<T>>): Entity<T>
  {
    Entity(Stack(current, memory), t, q, false)
  }

  /** One run of the `transition` system: the entity before it and after it. */
  datatype Turn = Turn(before: Entity<T>, after: Entity<T>)

  /** `initial`: the first run only announces `A`. */
  lemma InitialTick()
    ensures Tick(TPolicy(), Entity(Stack(A, []), Transition.None, Option.None, true))
      == TickResult(At(A, [], Transition.None, Option.None), [Events.Start(0, true)])
  {
  }

  /** `push`: `B` is started on top of `A`. */
  lemma PushTick()
    ensures Tick(TPolicy(), Entity(Stack(A, []), Next(B), Option.None, true)).entity
      == At(B, [A], Transition.None, Option.None)
  {
  }

  /** `push_error`: `C` is rejected after `A`. */
  lemma PushErrorTick()
    ensures Tick(TPolicy(), Entity(Stack(A, []), Next(C), Option.None, true))
      == TickResult(At(A, [], Transition.None, Option.None), [Events.Start(0, true), Events.Error(Events.RejectedNext(C))])
  {
  }

  /** `pop`: stopping `B` resumes `A`. */
  lemma PopTick()
    ensures Tick(TPolicy(), At(B, [A], Previous, Option.None)).entity
      == At(A, [], Transition.None, Option.None)
  {
  }

  /** `pop_initial`: `A` cannot be stopped. */
  lemma PopInitialTick()
    ensures Tick(TPolicy(), Entity(Stack(A, []), Previous, Option.None, true))
      == TickResult(At(A, [], Transition.None, Option.None), [Events.Start(0, true), Events.Error(Events.NoPrevious)])
  {
  }

  /** `C` is started on top of `B`. */
  lemma StartOverTick()
    ensures Tick(TPolicy(), At(B, [A], Next(C), Option.None)).entity
      == At(C, [A, B], Transition.None, Option.None)
  {
  }

  /** `interrupt_start`: `B` yields to `D`, is stopped, and `D` starts on `A`. */
  lemma InterruptYieldingTick()
    ensures Tick(TPolicy(), At(B, [A], Transition.Interrupt(Interruption.Start(D)), Option.None)).entity
      == At(D, [A], Transition.None, Option.None)
  {
    YieldsToApplies(TPolicy(), D, B);
  }

  /** `interrupt_resume`: resuming index 1 stops `C` and resumes `B`. */
  lemma InterruptResumeTick()
    ensures Tick(TPolicy(), At(C, [A, B], Transition.Interrupt(Resume(1)), Option.None)).entity
      == At(B, [A], Transition.None, Option.None)
  {
  }

  /** `interrupt_stop`: resuming index 0 stops `C` and `B` and resumes `A`. */
  lemma InterruptStopTick()
    ensures Tick(TPolicy(), At(C, [A, B], Transition.Interrupt(Resume(0)), Option.None)).entity
      == At(A, [], Transition.None, Option.None)
  {
  }

  /** `interrupt_start_push`: `B` does not yield to `C`, so `C` starts on top of it. */
  lemma InterruptPushTick()
    ensures Tick(TPolicy(), At(B, [A], Transition.Interrupt(Interruption.Start(C)), Option.None)).entity
      == At(C, [A, B], Transition.None, Option.None)
  {
    YieldsToApplies(TPolicy(), C, B);
  }

  /** `interrupt_error`: `B` does not yield to `A` and `A` may not follow `B`. */
  lemma InterruptErrorTick()
    ensures Tick(TPolicy(), At(B, [A], Transition.Interrupt(Interruption.Start(A)), Option.None))
      == TickResult(At(B, [A], Transition.None, Option.None), [Events.Error(Events.RejectedNext(A))])
  {
    YieldsToApplies(TPolicy(), A, B);
  }

  /** `try_start`: the kept request starts `B` on top of `A`. */
  lemma TryStartTick()
    ensures Tick(TPolicy(), At(A, [], Next(B), Option.None)).entity
      == At(B, [A], Transition.None, Option.None)
  {
  }

  /** The runs of `queue`: the queue requests `B`; `B` starts; `C` starts;
      `D` starts and the queue waits on index 3; `D` is stopped at index 3, so
      the queue stops `C`, then `B`, then starts `D`; the drained queue is
      removed; a last run changes nothing. */
  function QueueTurns(): seq<Turn>
  {
    [ Turn(Entity(Stack(A, []), Transition.None, Some(Queue([QueueItem.Start(B), QueueItem.Start(C), StartWait(D), QueueItem.Stop, QueueItem.Stop, QueueItem.Start(D)], Option.None)), true),
           At(A, [], Next(B), Some(Queue([QueueItem.Start(C), StartWait(D), QueueItem.Stop, QueueItem.Stop, QueueItem.Start(D)], Option.None)))),
      Turn(At(A, [], Next(B), Some(Queue([QueueItem.Start(C), StartWait(D), QueueItem.Stop, QueueItem.Stop, QueueItem.Start(D)], Option.None))),
           At(B, [A], Next(C), Some(Queue([StartWait(D), QueueItem.Stop, QueueItem.Stop, QueueItem.Start(D)], Option.None)))),
      Turn(At(B, [A], Next(C), Some(Queue([StartWait(D), QueueItem.Stop, QueueItem.Stop, QueueItem.Start(D)], Option.None))),
           At(C, [A, B], Next(D), Some(Queue([QueueItem.Stop, QueueItem.Stop, QueueItem.Start(D)], Some(3))))),
      Turn(At(C, [A, B], Next(D), Some(Queue([QueueItem.Stop, QueueItem.Stop, QueueItem.Start(D)], Some(3)))),
           At(D, [A, B, C], Transition.None, Some(Queue([QueueItem.Stop, QueueItem.Stop, QueueItem.Start(D)], Some(3))))),
      Turn(At(D, [A, B, C], Previous, Some(Queue([QueueItem.Stop, QueueItem.Stop, QueueItem.Start(D)], Some(3)))),
           At(C, [A, B], Previous, Some(Queue([QueueItem.Stop, QueueItem.Start(D)], Option.None)))),
      Turn(At(C, [A, B], Previous, Some(Queue([QueueItem.Stop, QueueItem.Start(D)], Option.None))),
           At(B, [A], Previous, Some(Queue([QueueItem.Start(D)], Option.None)))),
      Turn(At(B, [A], Previous, Some(Queue([QueueItem.Start(D)], Option.None))),
           At(A, [], Next(D), Some(Queue([], Option.None)))),
      Turn(At(A, [], Next(D), Some(Queue([], Option.None))),
           At(D, [A], Transition.None, Option.None)),
      Turn(At(D, [A], Transition.None, Option.None),
           At(D, [A], Transition.None, Option.None)) ]
  }

  /** The runs of `chain`: `B`, `C` and `D` start on top of each other
      without waiting; the drained chain is removed; a last run changes nothing. */
  function ChainTurns(): seq<Turn>
  {
    [ Turn(Entity(Stack(A, []), Transition.None, Some(Queue([QueueItem.Start(B), QueueItem.Start(C), QueueItem.Start(D)], Option.None)), true),
           At(A, [], Next(B), Some(Queue([QueueItem.Start(C), QueueItem.Start(D)], Option.None)))),
      Turn(At(A, [], Next(B), Some(Queue([QueueItem.Start(C), QueueItem.Start(D)], Option.None))),
           At(B, [A], Next(C), Some(Queue([QueueItem.Start(D)], Option.None)))),
      Turn(At(B, [A], Next(C), Some(Queue([QueueItem.Start(D)], Option.None))),
           At(C, [A, B], Next(D), Some(Queue([], Option.None)))),
      Turn(At(C, [A, B], Next(D), Some(Queue([], Option.None))),
           At(D, [A, B, C], Transition.None, Option.None)),
      Turn(At(D, [A, B, C], Transition.None, Option.None),
           At(D, [A, B, C], Transition.None, Option.None)) ]
  }

  /** The runs of `sequence`: the sequence requests `B` and waits on index 1;
      `B` starts; `B` is stopped at index 1, so the sequence requests `D`;
      `D` starts and the drained sequence is removed; a last run changes nothing. */
  function SequenceTurns(): seq<Turn>
  {
    [ Turn(Entity(Stack(A, []), Transition.None, Some(Queue([StartWait(B), StartWait(D)], Option.None)), true),
           At(A, [], Next(B), Some(Queue([StartWait(D)], Some(1))))),
      Turn(At(A, [], Next(B), Some(Queue([StartWait(D)], Some(1)))),
           At(B, [A], Transition.None, Some(Queue([StartWait(D)], Some(1))))),
      Turn(At(B, [A], Previous, Some(Queue([StartWait(D)], Some(1)))),
           At(A, [], Next(D), Some(Queue([], Some(1))))),
      Turn(At(A, [], Next(D), Some(Queue([], Some(1)))),
           At(D, [A], Transition.None, Option.None)),
      Turn(At(D, [A], Transition.None, Option.None),
           At(D, [A], Transition.None, Option.None)) ]
  }

  /** Each run of `queue`, `chain` and `sequence` ends in the state that
      the scenario expects. */
  lemma QueueTurn0()
    ensures Tick(TPolicy(), QueueTurns()[0].before).entity == QueueTurns()[0].after
  {
  }

  lemma QueueTurn1()
    ensures Tick(TPolicy(), QueueTurns()[1].before).entity == QueueTurns()[1].after
  {
  }

  lemma QueueTurn2()
    ensures Tick(TPolicy(), QueueTurns()[2].before).entity == QueueTurns()[2].after
  {
  }

  lemma QueueTurn3()
    ensures Tick(TPolicy(), QueueTurns()[3].before).entity == QueueTurns()[3].after
  {
  }

  lemma QueueTurn4()
    ensures Tick(TPolicy(), QueueTurns()[4].before).entity == QueueTurns()[4].after
  {
  }

  lemma QueueTurn5()
    ensures Tick(TPolicy(), QueueTurns()[5].before).entity == QueueTurns()[5].after
  {
  }

  lemma QueueTurn6()
    ensures Tick(TPolicy(), QueueTurns()[6].before).entity == QueueTurns()[6].after
  {
  }

  lemma QueueTurn7()
    ensures Tick(TPolicy(), QueueTurns()[7].before).entity == QueueTurns()[7].after
  {
  }

  lemma QueueTurn8()
    ensures Tick(TPolicy(), QueueTurns()[8].before).entity == QueueTurns()[8].after
  {
  }

  lemma ChainTurn0()
    ensures Tick(TPolicy(), ChainTurns()[0].before).entity == ChainTurns()[0].after
  {
  }

  lemma ChainTurn1()
    ensures Tick(TPolicy(), ChainTurns()[1].before).entity == ChainTurns()[1].after
  {
  }

  lemma ChainTurn2()
    ensures Tick(TPolicy(), ChainTurns()[2].before).entity == ChainTurns()[2].after
  {
  }

  lemma ChainTurn3()
    ensures Tick(TPolicy(), ChainTurns()[3].before).entity == ChainTurns()[3].after
  {
  }

  lemma ChainTurn4()
    ensures Tick(TPolicy(), ChainTurns()[4].before).entity == ChainTurns()[4].after
  {
  }

  lemma SequenceTurn0()
    ensures Tick(TPolicy(), SequenceTurns()[0].before).entity == SequenceTurns()[0].after
  {
  }

  lemma SequenceTurn1()
    ensures Tick(TPolicy(), SequenceTurns()[1].before).entity == SequenceTurns()[1].after
  {
  }

  lemma SequenceTurn2()
    ensures Tick(TPolicy(), SequenceTurns()[2].before).entity == SequenceTurns()[2].after
  {
  }

  lemma SequenceTurn3()
    ensures Tick(TPolicy(), SequenceTurns()[3].before).entity == SequenceTurns()[3].after
  {
  }

  lemma SequenceTurn4()
    ensures Tick(TPolicy(), SequenceTurns()[4].before).entity == SequenceTurns()[4].after
  {
  }

  /** What the tests look at in a state: the paused behavior right beneath
      the current one, if any, and the current behavior. */
  function Look(e: Entity<T>): (o: (Option<T>, T))
    ensures o.1 == e.stack.current
    ensures o.0.None? <==> e.stack.Index() == 0
    ensures o.0.Some? ==> o.0.value == e.stack.memory[e.stack.Index() - 1]
  {
    (if e.stack.memory == [] then Option.None else Some(e.stack.memory[|e.stack.memory| - 1]), e.stack.current)
  }

  /** One run of the `transition` system on `e`, from the state `t.before`
      to the state `t.after`, and what the tests then see through `Memory::previous`. */
  method Play(e: BehaviorEntity<T>, ghost t: Turn) returns (observed: (Option<T>, T))
    requires e.State() == t.before && Tick(TPolicy(), t.before).entity == t.after
    modifies e, e.memory, e.queue
    ensures e.State() == t.after && observed == Look(t.after)
    ensures e.queue == null || e.queue == old(e.queue)
  {
    e.Tick(TPolicy());
    observed := (e.memory.Previous(), e.behavior);
  }

  /** `Play`, for a run whose notifications are also known. */
  method PlayReporting(e: BehaviorEntity<T>, ghost t: Turn, ghost events: seq<Events.Event<T>>)
      returns (observed: (Option<T>, T))
    requires e.State() == t.before && Tick(TPolicy(), t.before) == TickResult(t.after, events)
    modifies e, e.memory, e.queue
    ensures e.State() == t.after && observed == Look(t.after)
    ensures e.outbox == old(e.outbox) + events
    ensures e.queue == null || e.queue == old(e.queue)
  {
    e.Tick(TPolicy());
    observed := (e.memory.Previous(), e.behavior);
  }

  /** Spawn `A` with `B` requested and run once. */
  method SpawnPushed() returns (e: BehaviorEntity<T>, observed: (Option<T>, T))
    ensures fresh(e) && fresh(e.memory) && e.queue == null
    ensures e.State() == At(B, [A], Transition.None, Option.None)
    ensures observed == (Some(A), B)
  {
    e := new BehaviorEntity.Spawn(A, [], Next(B), null);
    PushTick();
    observed := Play(e, Turn(Entity(Stack(A, []), Next(B), Option.None, true), At(B, [A], Transition.None, Option.None)));
  }

  /** Spawn `A` with `B` requested, run once, then start `C` and run again. */
  method SpawnStacked() returns (e: BehaviorEntity<T>, observed: (Option<T>, T))
    ensures fresh(e) && fresh(e.memory) && e.queue == null
    ensures e.State() == At(C, [A, B], Transition.None, Option.None)
    ensures observed == (Some(B), C)
  {
    e, observed := SpawnPushed();
    e.Start(C);
    StartOverTick();
    observed := Play(e, Turn(At(B, [A], Next(C), Option.None), At(C, [A, B], Transition.None, Option.None)));
  }

  /** `initial`: a spawned behavior is announced as started at the initial index. */
  method InitialScenario() returns (current: T, events: seq<Events.Event<T>>)
    ensures current == A && events == [Events.Start(InitialIndex(), true)]
  {
    var e := new BehaviorEntity.Spawn(A, [], Transition.None, null);
    InitialTick();
    var observed := PlayReporting(e, Turn(Entity(Stack(A, []), Transition.None, Option.None, true), At(A, [], Transition.None, Option.None)), [Events.Start(0, true)]);
    current := observed.1;
    events := e.outbox;
  }

  /** `push`: starting `B` from `A` pauses `A` beneath it. */
  method PushScenario() returns (observed: (Option<T>, T))
    ensures observed == (Some(A), B)
  {
    var e;
    e, observed := SpawnPushed();
  }

  /** `push_error`: `C` may not follow `A`, so an error is reported and `A` stays current. */
  method PushErrorScenario() returns (observed: (Option<T>, T), events: seq<Events.Event<T>>)
    ensures observed == (Option.None, A)
    ensures Events.Error(Events.RejectedNext(C)) in events
  {
    var e := new BehaviorEntity.Spawn(A, [], Next(C), null);
    PushErrorTick();
    observed := PlayReporting(e, Turn(Entity(Stack(A, []), Next(C), Option.None, true), At(A, [], Transition.None, Option.None)),
      [Events.Start(0, true), Events.Error(Events.RejectedNext(C))]);
    events := e.outbox;
  }

  /** `pop`: stopping `B` resumes `A`, which has nothing beneath it. */
  method PopScenario() returns (observed: seq<(Option<T>, T)>)
    ensures observed == [(Some(A), B), (Option.None, A)]
  {
    var e, first := SpawnPushed();
    e.Stop();
    PopTick();
    var second := Play(e, Turn(At(B, [A], Previous, Option.None), At(A, [], Transition.None, Option.None)));
    observed := [first, second];
  }

  /** `pop_initial`: the initial behavior cannot be stopped; an error is reported. */
  method PopInitialScenario() returns (observed: (Option<T>, T), events: seq<Events.Event<T>>)
    ensures observed == (Option.None, A)
    ensures Events.Error(Events.NoPrevious) in events
  {
    var e := new BehaviorEntity.Spawn(A, [], Previous, null);
    PopInitialTick();
    observed := PlayReporting(e, Turn(Entity(Stack(A, []), Previous, Option.None, true), At(A, [], Transition.None, Option.None)),
      [Events.Start(0, true), Events.Error(Events.NoPrevious)]);
    events := e.outbox;
  }

  /** The queue of the `queue` test. */
  method QueueOfTest() returns (q: TransitionQueue<T>)
    ensures fresh(q) && q.Value() == Queue([QueueItem.Start(B), QueueItem.Start(C), StartWait(D), QueueItem.Stop, QueueItem.Stop, QueueItem.Start(D)], Option.None)
  {
    q := new TransitionQueue.Start(B);
    q := q.Then(C);
    q := q.ThenWaitFor(D);
    q := q.ThenStop();
    q := q.ThenStop();
    q := q.Then(D);
  }

  /** Runs 1 to 2 of `queue`. */
  method QueueRuns0(e: BehaviorEntity<T>) returns (observed: seq<(Option<T>, T)>)
    requires e.State() == QueueTurns()[0].before
    modifies e, e.memory, e.queue
    ensures e.State() == QueueTurns()[1].after
    ensures observed == [(Option.None, A), (Some(A), B)]
    ensures e.queue == null || e.queue == old(e.queue)
  {
    QueueTurn0();
    var o0 := Play(e, QueueTurns()[0]);
    QueueTurn1();
    var o1 := Play(e, QueueTurns()[1]);
    observed := [o0, o1];
  }

  /** Runs 3 to 4 of `queue`. */
  method QueueRuns2(e: BehaviorEntity<T>) returns (observed: seq<(Option<T>, T)>)
    requires e.State() == QueueTurns()[2].before
    modifies e, e.memory, e.queue
    ensures e.State() == QueueTurns()[3].after
    ensures observed == [(Some(B), C), (Some(C), D)]
    ensures e.queue == null || e.queue == old(e.queue)
  {
    QueueTurn2();
    var o2 := Play(e, QueueTurns()[2]);
    QueueTurn3();
    var o3 := Play(e, QueueTurns()[3]);
    observed := [o2, o3];
  }

  /** Runs 5 to 7 of `queue`. */
  method QueueRuns4(e: BehaviorEntity<T>) returns (observed: seq<(Option<T>, T)>)
    requires e.State() == QueueTurns()[3].after
    modifies e, e.memory, e.queue
    ensures e.State() == QueueTurns()[6].after
    ensures observed == [(Some(B), C), (Some(A), B), (Option.None, A)]
    ensures e.queue == null || e.queue == old(e.queue)
  {
    e.Stop();
    QueueTurn4();
    var o4 := Play(e, QueueTurns()[4]);
    QueueTurn5();
    var o5 := Play(e, QueueTurns()[5]);
    QueueTurn6();
    var o6 := Play(e, QueueTurns()[6]);
    observed := [o4, o5, o6];
  }

  /** Runs 8 to 9 of `queue`. */
  method QueueRuns7(e: BehaviorEntity<T>) returns (observed: seq<(Option<T>, T)>)
    requires e.State() == QueueTurns()[7].before
    modifies e, e.memory, e.queue
    ensures e.State() == QueueTurns()[8].after
    ensures observed == [(Some(A), D), (Some(A), D)]
    ensures e.queue == null || e.queue == old(e.queue)
  {
    QueueTurn7();
    var o7 := Play(e, QueueTurns()[7]);
    QueueTurn8();
    var o8 := Play(e, QueueTurns()[8]);
    observed := [o7, o8];
  }

  /** `queue`: start `B`, then `C`, then `D` waiting for it to stop, stop
      twice, then start `D`; the queue is gone once drained. */
  method QueueScenario() returns (observed: seq<(Option<T>, T)>, drained: bool)
    ensures observed == [(Option.None, A), (Some(A), B), (Some(B), C), (Some(C), D), (Some(B), C), (Some(A), B), (Option.None, A), (Some(A), D), (Some(A), D)]
    ensures drained
  {
    var q := QueueOfTest();
    var e := new BehaviorEntity.Spawn(A, [], Transition.None, q);
    var runs0 := QueueRuns0(e);
    var runs2 := QueueRuns2(e);
    var runs4 := QueueRuns4(e);
    var runs7 := QueueRuns7(e);
    observed := runs0 + runs2 + runs4 + runs7;
    drained := e.queue == null;
  }

  /** The queue of the `chain` test. */
  method ChainOfTest() returns (q: TransitionQueue<T>)
    ensures fresh(q) && q.Value() == Queue([QueueItem.Start(B), QueueItem.Start(C), QueueItem.Start(D)], Option.None)
  {
    q := new TransitionQueue.Chain([B, C, D]);
  }

  /** Runs 1 to 2 of `chain`. */
  method ChainRuns0(e: BehaviorEntity<T>) returns (observed: seq<(Option<T>, T)>)
    requires e.State() == ChainTurns()[0].before
    modifies e, e.memory, e.queue
    ensures e.State() == ChainTurns()[1].after
    ensures observed == [(Option.None, A), (Some(A), B)]
    ensures e.queue == null || e.queue == old(e.queue)
  {
    ChainTurn0();
    var o0 := Play(e, ChainTurns()[0]);
    ChainTurn1();
    var o1 := Play(e, ChainTurns()[1]);
    observed := [o0, o1];
  }

  /** Runs 3 to 5 of `chain`. */
  method ChainRuns2(e: BehaviorEntity<T>) returns (observed: seq<(Option<T>, T)>)
    requires e.State() == ChainTurns()[2].before
    modifies e, e.memory, e.queue
    ensures e.State() == ChainTurns()[4].after
    ensures observed == [(Some(B), C), (Some(C), D), (Some(C), D)]
    ensures e.queue == null || e.queue == old(e.queue)
  {
    ChainTurn2();
    var o2 := Play(e, ChainTurns()[2]);
    ChainTurn3();
    var o3 := Play(e, ChainTurns()[3]);
    ChainTurn4();
    var o4 := Play(e, ChainTurns()[4]);
    observed := [o2, o3, o4];
  }

  /** `chain`: `B`, `C` and `D` are started on top of each other. */
  method ChainScenario() returns (observed: seq<(Option<T>, T)>, drained: bool)
    ensures observed == [(Option.None, A), (Some(A), B), (Some(B), C), (Some(C), D), (Some(C), D)]
    ensures drained
  {
    var q := ChainOfTest();
    var e := new BehaviorEntity.Spawn(A, [], Transition.None, q);
    var runs0 := ChainRuns0(e);
    var runs2 := ChainRuns2(e);
    observed := runs0 + runs2;
    drained := e.queue == null;
  }

  /** The queue of the `sequence` test. */
  method SequenceOfTest() returns (q: TransitionQueue<T>)
    ensures fresh(q) && q.Value() == Queue([StartWait(B), StartWait(D)], Option.None)
  {
    q := new TransitionQueue.Sequence([B, D]);
  }

  /** Runs 1 to 2 of `sequence`. */
  method SequenceRuns0(e: BehaviorEntity<T>) returns (observed: seq<(Option<T>, T)>)
    requires e.State() == SequenceTurns()[0].before
    modifies e, e.memory, e.queue
    ensures e.State() == SequenceTurns()[1].after
    ensures observed == [(Option.None, A), (Some(A), B)]
    ensures e.queue == null || e.queue == old(e.queue)
  {
    SequenceTurn0();
    var o0 := Play(e, SequenceTurns()[0]);
    SequenceTurn1();
    var o1 := Play(e, SequenceTurns()[1]);
    observed := [o0, o1];
  }

  /** Runs 3 to 5 of `sequence`. */
  method SequenceRuns2(e: BehaviorEntity<T>) returns (observed: seq<(Option<T>, T)>)
    requires e.State() == SequenceTurns()[1].after
    modifies e, e.memory, e.queue
    ensures e.State() == SequenceTurns()[4].after
    ensures observed == [(Option.None, A), (Some(A), D), (Some(A), D)]
    ensures e.queue == null || e.queue == old(e.queue)
  {
    e.Stop();
    SequenceTurn2();
    var o2 := Play(e, SequenceTurns()[2]);
    SequenceTurn3();
    var o3 := Play(e, SequenceTurns()[3]);
    SequenceTurn4();
    var o4 := Play(e, SequenceTurns()[4]);
    observed := [o2, o3, o4];
  }

  /** `sequence`: `B` is started, and `D` only after `B` has stopped. */
  method SequenceScenario() returns (observed: seq<(Option<T>, T)>, drained: bool)
    ensures observed == [(Option.None, A), (Some(A), B), (Option.None, A), (Some(A), D), (Some(A), D)]
    ensures drained
  {
    var q := SequenceOfTest();
    var e := new BehaviorEntity.Spawn(A, [], Transition.None, q);
    var runs0 := SequenceRuns0(e);
    var runs2 := SequenceRuns2(e);
    observed := runs0 + runs2;
    drained := e.queue == null;
  }

  /** `interrupt_start`: `B` yields to `D`, so it is stopped and `D` starts on `A`. */
  method InterruptStartScenario() returns (observed: seq<(Option<T>, T)>)
    ensures observed == [(Some(A), B), (Some(A), D)]
  {
    var e, first := SpawnPushed();
    e.InterruptStart(D);
    InterruptYieldingTick();
    var second := Play(e, Turn(At(B, [A], Transition.Interrupt(Interruption.Start(D)), Option.None), At(D, [A], Transition.None, Option.None)));
    observed := [first, second];
  }

  /** `interrupt_resume`: resuming the index beneath `C` stops `C` and resumes `B`. */
  method InterruptResumeScenario() returns (observed: seq<(Option<T>, T)>)
    ensures observed == [(Some(B), C), (Some(A), B)]
  {
    var e, first := SpawnStacked();
    var index := PreviousIndex(e.CurrentIndex());
    e.InterruptResume(index.value);
    InterruptResumeTick();
    var second := Play(e, Turn(At(C, [A, B], Transition.Interrupt(Resume(1)), Option.None), At(B, [A], Transition.None, Option.None)));
    observed := [first, second];
  }

  /** `interrupt_stop`: stopping the index beneath `C` stops `C` and `B`, resuming `A`. */
  method InterruptStopScenario() returns (observed: seq<(Option<T>, T)>)
    ensures observed == [(Some(B), C), (Option.None, A)]
  {
    var e, first := SpawnStacked();
    var index := PreviousIndex(e.CurrentIndex());
    e.InterruptStop(index.value);
    InterruptStopTick();
    var second := Play(e, Turn(At(C, [A, B], Transition.Interrupt(Resume(0)), Option.None), At(A, [], Transition.None, Option.None)));
    observed := [first, second];
  }

  /** `interrupt_start_push`: `B` does not yield to `C`, so `C` starts on top of `B`. */
  method InterruptStartPushScenario() returns (observed: seq<(Option<T>, T)>)
    ensures observed == [(Some(A), B), (Some(B), C)]
  {
    var e, first := SpawnPushed();
    e.InterruptStart(C);
    InterruptPushTick();
    var second := Play(e, Turn(At(B, [A], Transition.Interrupt(Interruption.Start(C)), Option.None), At(C, [A, B], Transition.None, Option.None)));
    observed := [first, second];
  }

  /** `interrupt_error`: `B` does not yield to `A` and `A` may not follow
      `B`: an error is reported and nothing changes. */
  method InterruptErrorScenario() returns (observed: seq<(Option<T>, T)>, events: seq<Events.Event<T>>)
    ensures observed == [(Some(A), B), (Some(A), B)]
    ensures Events.Error(Events.RejectedNext(A)) in events
  {
    var e, first := SpawnPushed();
    e.InterruptStart(A);
    InterruptErrorTick();
    ghost var before := e.outbox;
    var second := PlayReporting(e, Turn(At(B, [A], Transition.Interrupt(Interruption.Start(A)), Option.None), At(B, [A], Transition.None, Option.None)),
      [Events.Error(Events.RejectedNext(A))]);
    observed := [first, second];
    events := e.outbox;
    assert events[|before|] == Events.Error(Events.RejectedNext(A));
  }

  /** `try_start`: the first request is taken, the second is handed back,
      and the first one runs. */
  method TryStartScenario() returns (first: Result<(), T>, second: Result<(), T>, observed: (Option<T>, T))
    ensures first == Success(()) && second == Failure(D)
    ensures observed == (Some(A), B)
  {
    var e := new BehaviorEntity.Spawn(A, [], Transition.None, null);
    InitialTick();
    var _ := Play(e, Turn(Entity(Stack(A, []), Transition.None, Option.None, true), At(A, [], Transition.None, Option.None)));
    assert e.transition.IsNone();
    first := e.TryStart(B);
    second := e.TryStart(D);
    TryStartTick();
    observed := Play(e, Turn(At(A, [], Next(B), Option.None), At(B, [A], Transition.None, Option.None)));
  }
}
