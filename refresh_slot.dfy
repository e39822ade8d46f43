/**
 * The `currentRefresh: Promise<void> | null` field of both REST strategies,
 * as explicit steps. A caller that finds the slot empty fills it and sends
 * the one refresh request (`Enter` returns false); a caller that finds it
 * filled awaits the pending promise instead (`Enter` returns true). When the
 * request succeeds, the promise resolves every waiter and the slot is emptied
 * (`Succeed`). When it fails, nothing resolves the promise and nothing empties
 * the slot (`Fail`): the waiters wait forever and so does every later caller.
 */
module RefreshSlots {

  class RefreshSlot {
    /** `currentRefresh !== null` */
    var pending: bool
    /** Callers currently awaiting the pending promise. */
    var waiters: nat
    /** Refresh requests sent, and refresh requests that have settled. */
    var issued: nat
    var settled: nat

    /** At most one request is outstanding, and an outstanding request always has the slot filled. */
    ghost predicate Valid()
      reads this
    {
      && settled <= issued <= settled + 1
      && (Outstanding() ==> pending)
      && (!pending ==> waiters == 0)
    }

    /** The owner's request has been sent and has not settled. */
    predicate Outstanding()
      reads this
    {
      issued == settled + 1
    }

    constructor ()
      ensures Valid() && !pending && waiters == 0 && issued == 0 && settled == 0
    {
      pending, waiters, issued, settled := false, 0, 0, 0;
    }

    /** A `refreshToken` call reaching the slot test. */
    method Enter() returns (joined: bool)
      requires Valid()
      modifies this
      ensures Valid()
      ensures joined == old(pending) && pending
      ensures joined ==> waiters == old(waiters) + 1 && issued == old(issued) && settled == old(settled)
      ensures !joined ==> waiters == 0 && issued == old(issued) + 1 && settled == old(settled) && Outstanding()
    {
      if pending {
        joined := true;
        waiters := waiters + 1;
      } else {
        joined := false;
        pending := true;
        issued := issued + 1;
      }
    }

    /** The request succeeded: `resolver()` releases every waiter, then `currentRefresh = null`. */
    method Succeed() returns (released: nat)
      requires Valid() && Outstanding()
      modifies this
      ensures Valid()
      ensures released == old(waiters) && !pending && waiters == 0
      ensures issued == old(issued) && settled == old(settled) + 1
    {
      released := waiters;
      waiters := 0;
      pending := false;
      settled := settled + 1;
    }

    /** The request rejected: the rejection reaches the owner only; the slot stays filled. */
    method Fail()
      requires Valid() && Outstanding()
      modifies this
      ensures Valid()
      ensures pending && waiters == old(waiters)
      ensures issued == old(issued) && settled == old(settled) + 1 && !Outstanding()
    {
      settled := settled + 1;
    }
  }

  /** K calls arriving while one refresh is outstanding: one request in all, K - 1 waiters. */
  method ConcurrentRefreshes(slot: RefreshSlot, k: nat)
    requires slot.Valid() && !slot.pending && k >= 1
    modifies slot
    ensures slot.Valid() && slot.Outstanding()
    ensures slot.issued == old(slot.issued) + 1 && slot.waiters == k - 1
  {
    var joined := slot.Enter();
    var i := 1;
    while i < k
      invariant 1 <= i <= k
      invariant slot.Valid() && slot.Outstanding() && slot.pending
      invariant slot.issued == old(slot.issued) + 1 && slot.waiters == i - 1
    {
      joined := slot.Enter();
      i := i + 1;
    }
  }

  /** After a failed refresh, every later call joins the dead promise and no request is ever sent again. */
  method FailedRefreshBlocksLaterCalls(slot: RefreshSlot) returns (joined: bool)
    requires slot.Valid() && slot.Outstanding()
    modifies slot
    ensures joined && slot.pending && slot.issued == old(slot.issued)
  {
    slot.Fail();
    joined := slot.Enter();
  }
}
