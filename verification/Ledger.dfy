/** What a piece of C code has acquired and not yet released. */
module Resources {

  /** Releasing what is not live would be a double free, acquiring what is live a leak. */
  class Ledger<R(==)> {
    var live: set<R>

    constructor ()
      ensures live == {}
    {
      live := {};
    }

    method Acquire(r: R)
      requires r !in live
      modifies this
      ensures live == old(live) + {r}
    {
      live := live + {r};
    }

    method TryAcquire(r: R, fails: bool) returns (ok: bool)
      requires r !in live
      modifies this
      ensures ok == !fails
      ensures live == if ok then old(live) + {r} else old(live)
    {
      ok := !fails;
      if ok {
        Acquire(r);
      }
    }

    method Release(r: R)
      requires r in live
      modifies this
      ensures live == old(live) - {r}
    {
      live := live - {r};
    }

    method ReleaseIf(owned: bool, r: R)
      requires owned ==> r in live
      modifies this
      ensures live == if owned then old(live) - {r} else old(live)
    {
      if owned {
        Release(r);
      }
    }
  }
}
