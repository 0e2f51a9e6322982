/** An append-only stand-in for a Go send-only channel (`chan<- T`) and for
    the process's standard output. A send appends one value; nothing is ever
    taken back out within one collection call. */
module Channels {

  class Channel<T> {
    /** Everything sent on this channel so far, in send order. */
    var sent: seq<T>

    constructor ()
      ensures sent == []
    {
      sent := [];
    }

    /** `ch <- x`: appends x and changes nothing else. */
    method Send(x: T)
      modifies this
      ensures sent == old(sent) + [x]
    {
      sent := sent + [x];
    }
  }
}
