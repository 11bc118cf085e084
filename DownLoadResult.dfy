/** The pooled outcome of an awaitable download. */
module DownLoadResults {
  import opened ReferencePools

  /** The three properties have private setters: only `Create` and `Clear` assign them. */
  class DownLoadResult {
    var isError: bool
    var errorMessage: string
    var userData: object?

    /** The state `Clear` leaves behind. */
    ghost predicate IsCleared()
      reads this
    {
      !isError && errorMessage == "" && userData == null
    }

    /** The three properties hold exactly the given values. */
    ghost predicate Holds(isError: bool, errorMessage: string, userData: object?)
      reads this
    {
      this.isError == isError && this.errorMessage == errorMessage && this.userData == userData
    }

    constructor ()
      ensures IsCleared()
    {
      isError := false;
      errorMessage := "";
      userData := null;
    }

    /** `Create`: acquires an object from the pool and stores the three arguments in it. */
    static method Create(pool: Pool<DownLoadResult>, isError: bool, errorMessage: string, userData: object?)
      returns (r: DownLoadResult)
      modifies pool, if pool.free == [] then {} else {pool.free[0]}
      ensures r.Holds(isError, errorMessage, userData)
      ensures old(pool.free) != [] ==> r == old(pool.free)[0] && pool.free == old(pool.free)[1..]
      ensures old(pool.free) == [] ==> fresh(r) && pool.free == []
    {
      var reused := pool.Take();
      if reused.Some? {
        r := reused.value;
      } else {
        r := new DownLoadResult();
      }
      r.isError := isError;
      r.errorMessage := errorMessage;
      r.userData := userData;
    }

    /** `Clear`: back to no error, empty message and null user data, whatever the state before. */
    method Clear()
      modifies this
      ensures IsCleared()
    {
      isError := false;
      errorMessage := "";
      userData := null;
    }

    /** `ReferencePool.Release(result)`: clears the object and enqueues it in the pool. */
    static method Release(pool: Pool<DownLoadResult>, r: DownLoadResult)
      modifies pool, r
      ensures r.IsCleared()
      ensures pool.free == old(pool.free) + [r]
    {
      r.Clear();
      pool.Put(r);
    }
  }
}
