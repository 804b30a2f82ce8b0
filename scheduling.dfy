/**
 * Bookkeeping for the Node.js timers the device servers arm with
 * `setTimeout` and cancel with `clearTimeout`. Wall-clock time is not
 * modelled: a timer is a token that stays pending until it fires or is
 * cleared. Handles are issued in increasing order, so a fresh handle never
 * names a timer that is already pending.
 */
module Scheduling {

  /** The runtime's pending timers: handle -> delay in milliseconds. */
  datatype TimerQueue = TimerQueue(pending: map<nat, nat>, next: nat) {

    /** Every pending handle was issued before `next`. */
    predicate Valid() {
      forall id :: id in pending ==> id < next
    }

    /** `setTimeout(callback, delay)`: a new pending timer and its handle. */
    function SetTimeout(delay: nat): (r: (TimerQueue, nat))
      requires Valid()
      ensures r.0.Valid()
      ensures r.1 !in pending && r.1 < r.0.next
      ensures r.0.pending == pending[r.1 := delay]
    {
      (TimerQueue(pending[next := delay], next + 1), next)
    }

    /**
     * `clearTimeout(id)`, and what becomes of a timer once it has fired: it
     * is no longer pending. A handle that is not pending is ignored.
     */
    function Cancel(id: nat): (q: TimerQueue)
      requires Valid()
      ensures q.Valid() && q.next == next
      ensures id !in q.pending
      ensures q.pending == pending - {id}
    {
      this.(pending := pending - {id})
    }
  }

  /** No timer pending and no handle issued yet. */
  const NoTimers := TimerQueue(map[], 0)
}
