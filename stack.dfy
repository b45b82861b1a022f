/** The value-level meaning of the four stack operations the transition
    system dispatches to: `push`, `pop`, `interrupt` and `clear`. The entity
    class in module Transitions performs them in place and is proved to agree
    with these functions. */
module BehaviorStack {
  import opened Behaviors
  import opened Events

  /** The current behavior over its memory of paused behaviors (bottom first).
      The index of the current behavior is the depth of memory. */
  datatype Stack<B> = Stack(current: B, memory: seq<B>)
  {
    function Index(): BehaviorIndex
    {
      |memory|
    }

    /** Every behavior on the stack, indexed by `BehaviorIndex`. */
    function Frames(): seq<B>
    {
      memory + [current]
    }

    /** The initial behavior, at index 0. */
    function Bottom(): B
    {
      Frames()[0]
    }
  }

  /** The stack with its top frame removed: what lies beneath the current behavior. */
  function Below<B>(s: Stack<B>): (r: Stack<B>)
    requires s.Index() > 0
    ensures r.Index() == s.Index() - 1
    ensures r.Frames() == s.Frames()[..s.Index()]
  {
    Stack(s.memory[|s.memory| - 1], s.memory[..|s.memory| - 1])
  }

  /** Whether a transition succeeded, the stack after it and what it emitted. */
  datatype Outcome<B> = Outcome(ok: bool, stack: Stack<B>, events: seq<Event<B>>)

  /** A transition whose success the engine does not consult. */
  datatype Step<B> = Step(stack: Stack<B>, events: seq<Event<B>>)

  /** `push(next)`: start `next` on top of the current behavior. A resumable
      current behavior is paused beneath it; any other is stopped and dropped. */
  function Push<B>(p: Policy<B>, s: Stack<B>, next: B): (r: Outcome<B>)
    ensures r.ok <==> p.filterNext(s.current, next)
    ensures !r.ok ==> r.stack == s && r.events == [Error(RejectedNext(next))]
    ensures r.ok && p.isResumable(s.current) ==> r.stack.Frames() == s.Frames() + [next]
    ensures r.ok && !p.isResumable(s.current) ==> r.stack.Frames() == s.memory + [next]
    ensures r.ok ==> |r.events| == 3 && r.events[1..] == [Start(r.stack.Index(), false), Activate(r.stack.Index(), false, false)]
    ensures r.ok ==> r.events[0] == if p.isResumable(s.current) then Pause(s.Index()) else Stop(s.Index(), s.current, false)
  {
    if !p.filterNext(s.current, next) then
      Outcome(false, s, [Error(RejectedNext(next))])
    else if p.isResumable(s.current) then
      Outcome(true, Stack(next, s.memory + [s.current]),
        [Pause(s.Index()), Start(s.Index() + 1, false), Activate(s.Index() + 1, false, false)])
    else
      Outcome(true, Stack(next, s.memory),
        [Stop(s.Index(), s.current, false), Start(s.Index(), false), Activate(s.Index(), false, false)])
  }

  /** `pop()`: stop the current behavior and resume the one beneath it. */
  function Pop<B>(s: Stack<B>): (r: Outcome<B>)
    ensures r.ok <==> s.Index() > 0
    ensures !r.ok ==> r.stack == s && r.events == [Error(NoPrevious)]
    ensures r.ok ==> r.stack.Frames() == s.Frames()[..s.Index()]
    ensures r.ok ==> r.events == [Stop(s.Index(), s.current, false), Resume(r.stack.Index()), Activate(r.stack.Index(), true, false)]
  {
    if s.Index() == 0 then
      Outcome(false, s, [Error(NoPrevious)])
    else
      var below := Below(s);
      Outcome(true, below, [Stop(s.Index(), s.current, false), Resume(below.Index()), Activate(below.Index(), true, false)])
  }

  /** Pushing a resumable behavior and popping it again restores the stack. */
  lemma PopUndoesPush<B>(p: Policy<B>, s: Stack<B>, next: B)
    requires p.filterNext(s.current, next) && p.isResumable(s.current)
    ensures Pop(Push(p, s, next).stack).ok
    ensures Pop(Push(p, s, next).stack).stack == s
  {
  }

  /** Stop behaviors from the top down, each with an interrupt `Stop`, while
      the stack is deeper than `floor` and the current behavior `yielding` holds of it. */
  function Unwind<B>(s: Stack<B>, floor: BehaviorIndex, yielding: B -> bool): Step<B>
    decreases s.Index()
  {
    if s.Index() > floor && yielding(s.current) then
      var rest := Unwind(Below(s), floor, yielding);
      Step(rest.stack, [Stop(s.Index(), s.current, true)] + rest.events)
    else
      Step(s, [])
  }

  /** Unwinding cuts the stack down to a prefix: it never reaches below
      `floor` nor below the initial behavior, it stops only where it was
      allowed to continue, and it emits one event per removed frame. */
  lemma {:induction false} UnwindShape<B>(s: Stack<B>, floor: BehaviorIndex, yielding: B -> bool)
    ensures var r := Unwind(s, floor, yielding);
      && r.stack.Index() <= s.Index()
      && r.stack.Frames() == s.Frames()[..r.stack.Index() + 1]
      && (floor <= s.Index() ==> floor <= r.stack.Index())
      && (r.stack.Index() <= floor || !yielding(r.stack.current))
      && |r.events| == s.Index() - r.stack.Index()
    decreases s.Index()
  {
    if s.Index() > floor && yielding(s.current) {
      var below := Below(s);
      UnwindShape(below, floor, yielding);
      var rest := Unwind(below, floor, yielding);
      assert Unwind(s, floor, yielding).stack == rest.stack;
      assert rest.stack.Frames() == below.Frames()[..rest.stack.Index() + 1];
      assert below.Frames()[..rest.stack.Index() + 1] == s.Frames()[..rest.stack.Index() + 1];
    } else {
      assert s.Frames()[..s.Index() + 1] == s.Frames();
    }
  }

  /** The `k`-th event of an unwinding is the interrupt `Stop` of the frame
      `k` places below the top, and that frame yields. */
  lemma {:induction false} UnwindEvent<B>(s: Stack<B>, floor: BehaviorIndex, yielding: B -> bool, k: nat)
    requires k < |Unwind(s, floor, yielding).events|
    ensures k <= s.Index()
    ensures Unwind(s, floor, yielding).events[k] == Stop(s.Index() - k, s.Frames()[s.Index() - k], true)
    ensures yielding(s.Frames()[s.Index() - k])
    decreases s.Index()
  {
    var r := Unwind(s, floor, yielding);
    if s.Index() > floor && yielding(s.current) {
      var below := Below(s);
      var rest := Unwind(below, floor, yielding);
      assert r.events == [Stop(s.Index(), s.current, true)] + rest.events;
      if k == 0 {
        assert s.Frames()[s.Index()] == s.current;
      } else {
        assert r.events[k] == rest.events[k - 1];
        UnwindEvent(below, floor, yielding, k - 1);
        assert below.Frames()[below.Index() - (k - 1)] == s.Frames()[s.Index() - k];
      }
    }
  }

  /** Unwinding as a whole: the prefix it leaves and the interrupt `Stop`
      events it emits, topmost first, one per removed frame, each for a
      frame that yields, so every removed frame yields. */
  lemma UnwindTruncates<B>(s: Stack<B>, floor: BehaviorIndex, yielding: B -> bool)
    ensures Unwind(s, floor, yielding).stack.Index() <= s.Index()
    ensures Unwind(s, floor, yielding).stack.Frames() == s.Frames()[..Unwind(s, floor, yielding).stack.Index() + 1]
    ensures floor <= s.Index() ==> floor <= Unwind(s, floor, yielding).stack.Index()
    ensures Unwind(s, floor, yielding).stack.Index() <= floor || !yielding(Unwind(s, floor, yielding).stack.current)
    ensures |Unwind(s, floor, yielding).events| == s.Index() - Unwind(s, floor, yielding).stack.Index()
    ensures forall k :: 0 <= k < |Unwind(s, floor, yielding).events| ==>
      Unwind(s, floor, yielding).events[k] == Stop(s.Index() - k, s.Frames()[s.Index() - k], true)
    ensures forall j :: Unwind(s, floor, yielding).stack.Index() < j <= s.Index() ==> yielding(s.Frames()[j])
  {
    UnwindShape(s, floor, yielding);
    forall k | 0 <= k < |Unwind(s, floor, yielding).events|
      ensures Unwind(s, floor, yielding).events[k] == Stop(s.Index() - k, s.Frames()[s.Index() - k], true)
    {
      UnwindEvent(s, floor, yielding, k);
    }
    forall j | Unwind(s, floor, yielding).stack.Index() < j <= s.Index()
      ensures yielding(s.Frames()[j])
    {
      UnwindEvent(s, floor, yielding, s.Index() - j);
    }
  }

  /** When every frame yields, unwinding lands exactly on `floor`. */
  lemma UnwindToFloor<B>(s: Stack<B>, floor: BehaviorIndex)
    requires floor <= s.Index()
    ensures Unwind(s, floor, EveryFrame()).stack.Index() == floor
    ensures Unwind(s, floor, EveryFrame()).stack.Frames() == s.Frames()[..floor + 1]
  {
    UnwindTruncates(s, floor, EveryFrame());
  }

  /** The behaviors that yield to `next` during an interrupt. */
  function YieldsTo<B>(p: Policy<B>, next: B): B -> bool
  {
    b => p.filterYield(b, next)
  }

  /** Applying `YieldsTo(p, next)` to a behavior is `filter_yield(behavior, next)`.
      A helper for the solver, which does not apply the lambda by itself in
      the concrete scenarios. */
  lemma YieldsToApplies<B>(p: Policy<B>, next: B, b: B)
    ensures YieldsTo(p, next)(b) <==> p.filterYield(b, next)
  {
  }

  /** During `clear` every frame above the target is stopped. */
  function EveryFrame<B>(): B -> bool
  {
    _ => true
  }

  /** `interrupt(next)` (`Interruption::Start`): stop every behavior that
      yields to `next`, from the top down but never the initial one, then
      `push(next)` over whatever is current once the unwinding halts. */
  function Interrupt<B>(p: Policy<B>, s: Stack<B>, next: B): Step<B>
  {
    var unwound := Unwind(s, 0, YieldsTo(p, next));
    var pushed := Push(p, unwound.stack, next);
    Step(pushed.stack, unwound.events + pushed.events)
  }

  /** The index at which the unwinding of an interrupt halts. */
  function InterruptFloor<B>(p: Policy<B>, s: Stack<B>, next: B): BehaviorIndex
  {
    Unwind(s, 0, YieldsTo(p, next)).stack.Index()
  }

  /** Where an interrupt halts: every frame above the floor yields to `next`,
      and the floor is the initial frame or a frame that does not yield. */
  lemma InterruptFloorHalts<B>(p: Policy<B>, s: Stack<B>, next: B)
    ensures var k := InterruptFloor(p, s, next);
      && k <= s.Index()
      && (k == 0 || !p.filterYield(s.Frames()[k], next))
      && (forall j :: k < j <= s.Index() ==> p.filterYield(s.Frames()[j], next))
  {
    var yielding := YieldsTo(p, next);
    UnwindTruncates(s, 0, yielding);
    var u := Unwind(s, 0, yielding);
    var k := u.stack.Index();
    assert u.stack.current == u.stack.Frames()[k] == s.Frames()[k];
    forall j | k < j <= s.Index()
      ensures p.filterYield(s.Frames()[j], next)
    {
      var n := s.Index() - j;
      assert 0 <= n < |u.events| && u.events[n] == Stop(s.Index() - n, s.Frames()[s.Index() - n], true);
      assert yielding(s.Frames()[s.Index() - n]);
    }
  }

  /** The events of an interrupt that halts at floor `k`: one interrupt
      `Stop` per yielding frame above `k`, topmost first, followed by what
      `push(next)` over frame `k` emits. */
  lemma InterruptEvents<B>(p: Policy<B>, s: Stack<B>, next: B)
    ensures var r := Interrupt(p, s, next);
      var k := InterruptFloor(p, s, next);
      && k <= s.Index()
      && r.events == Unwind(s, 0, YieldsTo(p, next)).events + Push(p, Unwind(s, 0, YieldsTo(p, next)).stack, next).events
      && |Unwind(s, 0, YieldsTo(p, next)).events| == s.Index() - k
      && (forall j :: 0 <= j < s.Index() - k ==> r.events[j] == Stop(s.Index() - j, s.Frames()[s.Index() - j], true))
  {
    var yielding := YieldsTo(p, next);
    UnwindTruncates(s, 0, yielding);
    var u := Unwind(s, 0, yielding);
    var r := Interrupt(p, s, next);
    forall j | 0 <= j < s.Index() - u.stack.Index()
      ensures r.events[j] == Stop(s.Index() - j, s.Frames()[s.Index() - j], true)
    {
      assert r.events[j] == u.events[j];
    }
  }

  /** The stack an interrupt leaves: the frames up to its floor `k`, with
      `next` pushed over frame `k` when `filter_next` allows it. */
  lemma InterruptStack<B>(p: Policy<B>, s: Stack<B>, next: B)
    ensures var r := Interrupt(p, s, next);
      var k := InterruptFloor(p, s, next);
      var u := Unwind(s, 0, YieldsTo(p, next));
      && k <= s.Index()
      && u.stack.current == s.Frames()[k]
      && u.stack.memory == s.memory[..k]
      && r.stack == Push(p, u.stack, next).stack
  {
    var yielding := YieldsTo(p, next);
    UnwindTruncates(s, 0, yielding);
    var u := Unwind(s, 0, yielding);
    var k := u.stack.Index();
    assert u.stack.current == u.stack.Frames()[k] == s.Frames()[k];
    assert u.stack.memory == u.stack.Frames()[..k] == s.memory[..k];
  }

  /** What an interrupt does once it halts at floor `k`: the frames above `k`
      are stopped top-down as interrupted (the initial behavior never is); then
      `next` starts over frame `k` if that frame's `filter_next` allows it,
      and otherwise the rejection is reported over the unwound stack. */
  lemma InterruptStopsYieldersThenPushes<B>(p: Policy<B>, s: Stack<B>, next: B)
    ensures var r := Interrupt(p, s, next);
      var k := InterruptFloor(p, s, next);
      && k <= s.Index()
      && |r.events| == s.Index() - k + (if p.filterNext(s.Frames()[k], next) then 3 else 1)
      && (forall j :: 0 <= j < s.Index() - k ==> r.events[j] == Stop(s.Index() - j, s.Frames()[s.Index() - j], true))
      && (p.filterNext(s.Frames()[k], next) ==>
            && r.stack.current == next
            && r.stack.memory == s.memory[..k] + (if p.isResumable(s.Frames()[k]) then [s.Frames()[k]] else []))
      && (!p.filterNext(s.Frames()[k], next) ==>
            && r.stack.Frames() == s.Frames()[..k + 1]
            && r.events[|r.events| - 1] == Error(RejectedNext(next)))
  {
    InterruptEvents(p, s, next);
    InterruptStack(p, s, next);
    UnwindShape(s, 0, YieldsTo(p, next));
    var u := Unwind(s, 0, YieldsTo(p, next));
    var k := u.stack.Index();
    var pushed := Push(p, u.stack, next);
    if !p.filterNext(s.Frames()[k], next) {
      assert u.stack.Frames() == s.Frames()[..k + 1];
    } else if p.isResumable(s.Frames()[k]) {
      assert pushed.stack.Frames() == u.stack.Frames() + [next];
      assert pushed.stack.memory == pushed.stack.Frames()[..k + 1];
    }
  }

  /** `clear(target)` (`Interruption::Resume`): stop, as interrupted, every
      behavior above `target + 1`, then `pop()` the one at `target + 1` so
      that the behavior at `target` resumes. A target at or above the current
      index leaves the stack as it is. */
  function Clear<B>(s: Stack<B>, target: BehaviorIndex): Step<B>
  {
    if target < s.Index() then
      var unwound := Unwind(s, target + 1, EveryFrame());
      var popped := Pop(unwound.stack);
      Step(popped.stack, unwound.events + popped.events)
    else
      Step(s, [])
  }

  /** `clear(target)` resumes exactly the behavior at `target` with the
      memory beneath it intact: the frames above are stopped top-down as
      interrupted, and the one just above `target` is stopped normally. */
  lemma ClearResumesTarget<B>(s: Stack<B>, target: BehaviorIndex)
    ensures var r := Clear(s, target);
      && (target < s.Index() ==>
            && r.stack.Frames() == s.Frames()[..target + 1]
            && |r.events| == s.Index() - target + 2
            && (forall j :: 0 <= j < s.Index() - target - 1 ==>
                  r.events[j] == Stop(s.Index() - j, s.Frames()[s.Index() - j], true))
            && r.events[s.Index() - target - 1..] ==
                 [Stop(target + 1, s.Frames()[target + 1], false), Resume(target), Activate(target, true, false)])
      && (s.Index() <= target ==> r == Step(s, []))
  {
    if target < s.Index() {
      UnwindTruncates(s, target + 1, EveryFrame());
      UnwindToFloor(s, target + 1);
      var u := Unwind(s, target + 1, EveryFrame());
      assert u.stack.Frames() == s.Frames()[..target + 2];
      assert u.stack.current == s.Frames()[target + 1];
      assert Below(u.stack).Frames() == s.Frames()[..target + 1];
    }
  }

  /** The Rust `reset`: clearing to index 0 lands on the initial behavior with
      empty memory, and does nothing when the initial behavior is current. */
  lemma ClearToInitial<B>(s: Stack<B>)
    ensures Clear(s, InitialIndex()).stack == Stack(s.Bottom(), [])
    ensures s.Index() == 0 ==> Clear(s, InitialIndex()).events == []
  {
    ClearResumesTarget(s, 0);
    if s.Index() > 0 {
      var r := Clear(s, 0);
      assert r.stack.Frames() == [s.Bottom()];
    }
  }
}
