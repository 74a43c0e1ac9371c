/**
 * The per-chat registry of monitoring cancellations. A cancel function is
 * a handle on the context of one monitoring run; invoking it is recorded
 * in `invoked`, in order, so that the model can say how often a context
 * was cancelled. The lock is left out.
 */
module Cancellation {

  /** The cancel function of the monitoring context with number `context`. */
  datatype CancelFunc = CancelFunc(context: nat)

  class CancelFuncs {
    var data: map<int, CancelFunc>
    /** Every cancel function invoked so far, oldest first. */
    var invoked: seq<CancelFunc>

    /** `NewCancelFuncs`: no chat has a monitoring run to cancel. */
    constructor ()
      ensures data == map[] && invoked == []
    {
      data, invoked := map[], [];
    }

    /**
     * Files `cancel` under the chat `id`. A function already filed there is
     * replaced without being invoked.
     */
    method Add(id: int, cancel: CancelFunc)
      modifies this
      ensures data == old(data)[id := cancel]
      ensures invoked == old(invoked)
    {
      data := data[id := cancel];
    }

    /**
     * Cancels the monitoring run of chat `id`, if it has one: its cancel
     * function is invoked once and the entry deleted. Other chats keep theirs.
     */
    method Remove(id: int)
      modifies this
      ensures data == old(data) - {id}
      ensures invoked == old(invoked) + (if id in old(data) then [old(data)[id]] else [])
    {
      if id in data {
        var cancel := data[id];
        invoked := invoked + [cancel];
        data := data - {id};
      }
    }
  }

  /**
   * Two removals in a row invoke the cancel function at most once: the
   * second finds nothing left to cancel.
   */
  method RemoveTwice(c: CancelFuncs, id: int)
    modifies c
    ensures c.data == old(c.data) - {id}
    ensures c.invoked == old(c.invoked) + (if id in old(c.data) then [old(c.data)[id]] else [])
  {
    c.Remove(id);
    c.Remove(id);
  }

  /** Adding then removing a chat's run cancels exactly the function just added. */
  method AddThenRemove(c: CancelFuncs, id: int, cancel: CancelFunc)
    modifies c
    ensures c.data == old(c.data) - {id}
    ensures c.invoked == old(c.invoked) + [cancel]
  {
    c.Add(id, cancel);
    c.Remove(id);
  }
}
