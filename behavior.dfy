/** The policy surface of a behavior type (the `Behavior` trait) and the
    bookkeeping of stack positions (`BehaviorIndex`).

    A trait with overridable methods becomes a record of functions: the
    engine is generic in the behavior type `B` and consults only this record. */
module Behaviors {
  import opened Wrappers

  /** The hooks the transition engine consults.
      - `filterNext(current, next)`: may `next` start while `current` is active?
      - `filterYield(current, next)`: during an interrupt, may `current` be
        stopped to make room for `next`?
      - `isResumable(b)`: is `b` kept on the memory stack when something starts
        on top of it (otherwise it is stopped and discarded)? */
  datatype Policy<-B> = Policy(
    filterNext: (B, B) -> bool,
    filterYield: (B, B) -> bool,
    isResumable: B -> bool)

  /** Default of `allows_next` / `filter_next`: every behavior may follow every other. */
  predicate DefaultAllowsNext<B>(current: B, next: B)
  {
    true
  }

  /** Default of `is_resumable`: every behavior is resumable. */
  predicate DefaultIsResumable<B>(b: B)
  {
    true
  }

  /** Without an overriding `filter_yield`, no behavior is ever stopped by an
      interrupt (the revision that carries the defaults has no interrupts). */
  predicate DefaultFilterYield<B>(current: B, next: B)
  {
    false
  }

  /** The policy of a behavior type that overrides nothing. */
  function DefaultPolicy<B(!new)>(): (p: Policy<B>)
    ensures forall current: B, next: B :: p.filterNext(current, next) && !p.filterYield(current, next)
    ensures forall b: B :: p.isResumable(b)
  {
    Policy(DefaultAllowsNext, DefaultFilterYield, DefaultIsResumable)
  }

  /** Position of a behavior in the conceptual stack: 0 is the initial
      (bottom) behavior and the current behavior sits at the depth of memory. */
  type BehaviorIndex = nat

  function InitialIndex(): BehaviorIndex
  {
    0
  }

  /** `BehaviorIndex::previous`: the index one level down, none below the initial one. */
  function PreviousIndex(i: BehaviorIndex): (r: Option<BehaviorIndex>)
    ensures r.None? <==> i == InitialIndex()
    ensures r.Some? ==> r.value < i && NextIndex(r.value) == i
  {
    if i == 0 then None else Some(i - 1)
  }

  /** `BehaviorIndex::next`: the index of a frame pushed on top of `i`. */
  function NextIndex(i: BehaviorIndex): (r: BehaviorIndex)
    ensures r > i
  {
    i + 1
  }

  /** `previous` undoes `next`, so a queue waiting on `next()` of the current
      index and a test resuming `previous()` of it agree on positions. */
  lemma PreviousOfNext(i: BehaviorIndex)
    ensures PreviousIndex(NextIndex(i)) == Some(i)
  {
  }
}
