/** `Memory`: the stack of paused behaviors beneath the current one,
    bottom first. `push` and `pop` change it in place. */
module MemoryStack {
  import opened Wrappers

  /** `s` read from its last element to its first. */
  function Reverse<B>(s: seq<B>): (r: seq<B>)
    ensures |r| == |s|
    ensures forall i :: 0 <= i < |s| ==> r[i] == s[|s| - 1 - i]
  {
    if s == [] then [] else [s[|s| - 1]] + Reverse(s[..|s| - 1])
  }

  /** Reading a stack backwards neither loses nor invents an element. */
  lemma ReverseKeepsElements<B>(s: seq<B>, b: B)
    ensures b in Reverse(s) <==> b in s
  {
    var r := Reverse(s);
    if b in s {
      var i :| 0 <= i < |s| && s[i] == b;
      assert r[|s| - 1 - i] == b;
    }
    if b in r {
      var i :| 0 <= i < |r| && r[i] == b;
      assert s[|s| - 1 - i] == b;
    }
  }

  class Memory<B> {
    /** The paused behaviors; the last one is the most recently paused. */
    var stack: seq<B>

    /** `Memory::default`: no paused behavior. */
    constructor Default()
      ensures stack == [] && IsEmpty()
    {
      stack := [];
    }

    /** `Memory::len`: the number of paused behaviors, which is the index of the current one. */
    function Len(): (n: nat)
      reads this
      ensures n == |stack|
    {
      |stack|
    }

    /** `Memory::is_empty`. */
    predicate IsEmpty()
      reads this
      ensures IsEmpty() <==> Len() == 0
    {
      stack == []
    }

    /** `Memory::iter`: the paused behaviors, most recently paused first. */
    function Iter(): (r: seq<B>)
      reads this
      ensures |r| == Len()
      ensures forall i :: 0 <= i < |r| ==> r[i] == stack[Len() - 1 - i]
    {
      Reverse(stack)
    }

    /** `Memory::previous`: the behavior that would be resumed next, the
        most recently paused one. */
    function Previous(): (r: Option<B>)
      reads this
      ensures r.None? <==> IsEmpty()
      ensures r.Some? ==> r.value == stack[Len() - 1]
    {
      if stack == [] then None else Some(stack[|stack| - 1])
    }

    /** `Memory::push`: pause `b` on top of the stack. */
    method Push(b: B)
      modifies this
      ensures stack == old(stack) + [b]
      ensures Previous() == Some(b) && Len() == old(Len()) + 1
    {
      stack := stack + [b];
    }

    /** `Memory::pop`: take the most recently paused behavior, if any. */
    method Pop() returns (r: Option<B>)
      modifies this
      ensures r == old(Previous())
      ensures old(IsEmpty()) ==> stack == []
      ensures !old(IsEmpty()) ==> stack == old(stack[..|stack| - 1])
    {
      if stack == [] {
        r := None;
      } else {
        r := Some(stack[|stack| - 1]);
        stack := stack[..|stack| - 1];
      }
    }
  }

  /** The behavior `previous` names is the first one `iter` yields. */
  lemma PreviousLeadsIter<B>(m: Memory<B>)
    ensures m.Previous().None? <==> m.Iter() == []
    ensures m.Previous().Some? ==> m.Previous().value == m.Iter()[0]
  {
  }

  /** `Memory::contains` (only for behaviors with equality, as the Rust
      `where B: PartialEq` bound says): some paused behavior equals `b`,
      equivalently `Iter` yields it. */
  predicate Contains<B(==)>(m: Memory<B>, b: B)
    reads m
    ensures Contains(m, b) <==> exists i :: 0 <= i < m.Len() && m.stack[i] == b
    ensures Contains(m, b) <==> b in m.Iter()
  {
    ReverseKeepsElements(m.stack, b);
    b in m.stack
  }

  /** `push(x)` then `pop()` hands `x` back and restores the stack. */
  method PushPop<B>(m: Memory<B>, x: B) returns (r: Option<B>)
    modifies m
    ensures r == Some(x) && m.stack == old(m.stack)
  {
    m.Push(x);
    r := m.Pop();
  }
}
