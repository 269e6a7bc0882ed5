/** Python's `queue.Queue` as the producers and consumers here use it: FIFO, unbounded. */
module Queues {

  class Queue<T> {
    /** The queued items, oldest first. */
    var items: seq<T>

    /** `queue.Queue()`. */
    constructor ()
      ensures items == []
    {
      items := [];
    }

    /** `q.put(x)`. */
    method Put(x: T)
      modifies this
      ensures items == old(items) + [x]
    {
      items := items + [x];
    }

    /** `q.get()` on a queue known not to be empty (every caller tests `q.empty()` first). */
    method Get() returns (x: T)
      requires items != []
      modifies this
      ensures x == old(items)[0] && items == old(items)[1..]
    {
      x := items[0];
      items := items[1..];
    }

    /** `q.empty()`. */
    method Empty() returns (e: bool)
      ensures e <==> items == []
    {
      e := items == [];
    }
  }
}
