/** `Sequence`: the older first-in-first-out list of behaviors to start one
    after another. `push` and `pop` change its deque in place. */
module Sequences {
  import opened Wrappers

  class Sequence<T> {
    /** The pending behaviors, front first. */
    var queue: seq<T>

    /** `Sequence::new`: holds `items` front to back in the given order. */
    constructor New(items: seq<T>)
      ensures queue == items
    {
      queue := items;
    }

    /** `Sequence::empty`. */
    constructor Empty()
      ensures queue == []
    {
      queue := [];
    }

    /** `Sequence::start`: the sequence holding only `next`. */
    constructor Start(next: T)
      ensures queue == [next]
    {
      queue := [];
      new;
      Push(next);
    }

    /** `Sequence::then`: push `next` and hand the same sequence back. */
    method Then(next: T) returns (r: Sequence<T>)
      modifies this
      ensures r == this
      ensures queue == old(queue) + [next]
    {
      Push(next);
      r := this;
    }

    /** `Sequence::push`: append at the back; earlier items keep their places. */
    method Push(next: T)
      modifies this
      ensures queue == old(queue) + [next]
      ensures |queue| == |old(queue)| + 1 && queue[..|old(queue)|] == old(queue)
    {
      queue := queue + [next];
    }

    /** `Sequence::pop`: remove and return the front item, none when empty. */
    method Pop() returns (r: Option<T>)
      modifies this
      ensures old(queue) == [] ==> r == None && queue == []
      ensures old(queue) != [] ==> r == Some(old(queue)[0]) && queue == old(queue)[1..]
    {
      if queue == [] {
        r := None;
      } else {
        r := Some(queue[0]);
        queue := queue[1..];
      }
    }
  }
}
