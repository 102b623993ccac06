/**
 The unbounded action channel: one FIFO queue shared by every sender handle
 (the runtime and the components that were given one) and read by its single
 receiver.
 */
module Channels {
  import opened Events

  class ActionChannel {
    /** The actions sent and not yet received, oldest first. */
    var queue: seq<Action>

    constructor ()
      ensures queue == []
    {
      queue := [];
    }

    /** Sends `a`: it joins the end of the queue. */
    method Send(a: Action)
      modifies this
      ensures queue == old(queue) + [a]
    {
      queue := queue + [a];
    }

    /** Receives without waiting: the oldest action, or `None` when the queue is empty. */
    method TryRecv() returns (r: Option<Action>)
      modifies this
      ensures old(queue) == [] ==> r == None && queue == []
      ensures old(queue) != [] ==> r == Some(old(queue)[0]) && queue == old(queue)[1..]
    {
      if queue == [] {
        r := None;
      } else {
        r := Some(queue[0]);
        queue := queue[1..];
      }
    }
  }
}
