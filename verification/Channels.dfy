/** Go channels as values: a capacity, the buffered items in arrival order and a closed flag. */
module Channels {

  datatype Option<+T> = None | Some(value: T)

  datatype Chan<T> = Chan(cap: nat, buf: seq<T>, closed: bool) {

    ghost predicate Valid() {
      |buf| <= cap
    }

    /** A send would neither block nor panic. */
    predicate CanSend() {
      !closed && |buf| < cap
    }

    function Send(x: T): Chan<T>
      requires CanSend()
    {
      this.(buf := buf + [x])
    }

    /** A receive does not block: an item waits, or the channel is closed. */
    predicate CanRecv() {
      buf != [] || closed
    }

    /** What a receive yields: the oldest item, or None (`ok == false`) once a closed channel is drained. */
    function Head(): Option<T>
      requires CanRecv()
    {
      if buf != [] then Some(buf[0]) else None
    }

    function Recv(): Chan<T>
      requires CanRecv()
    {
      if buf != [] then this.(buf := buf[1..]) else this
    }

    function Close(): Chan<T>
      requires !closed
    {
      this.(closed := true)
    }
  }

  function Make<T>(cap: nat): Chan<T> {
    Chan(cap, [], false)
  }
}
