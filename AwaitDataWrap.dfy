/** The pooled pair (user data, completion source) handed to the managers as user data. */
module AwaitDataWraps {
  import opened Wrappers
  import opened ReferencePools
  import opened Tasks

  class AwaitDataWrap<T> {
    var userData: object?
    var source: CompletionSource?<T>

    /** The state a pooled wrapper is returned to. */
    ghost predicate IsCleared()
      reads this
    {
      userData == null && source == null
    }

    constructor ()
      ensures IsCleared()
    {
      userData := null;
      source := null;
    }

    /** `Clear`: drops both references. */
    method Clear()
      modifies this
      ensures IsCleared()
    {
      userData := null;
      source := null;
    }

    /** `Create`: acquires a wrapper from the pool and stores both arguments in it. */
    static method Create(pool: Pool<AwaitDataWrap<T>>, userData: object?, source: CompletionSource<T>)
      returns (w: AwaitDataWrap<T>)
      modifies pool, if pool.free == [] then {} else {pool.free[0]}
      ensures w.userData == userData && w.source == source
      ensures old(pool.free) != [] ==> w == old(pool.free)[0] && pool.free == old(pool.free)[1..]
      ensures old(pool.free) == [] ==> fresh(w) && pool.free == []
    {
      var reused := pool.Take();
      if reused.Some? {
        w := reused.value;
      } else {
        w := new AwaitDataWrap<T>();
      }
      w.userData := userData;
      w.source := source;
    }

    /** `ReferencePool.Release(wrap)`: clears the wrapper and enqueues it in the pool. */
    static method Release(pool: Pool<AwaitDataWrap<T>>, w: AwaitDataWrap<T>)
      modifies pool, w
      ensures w.IsCleared()
      ensures pool.free == old(pool.free) + [w]
    {
      w.Clear();
      pool.Put(w);
    }
  }
}
