/** The pooled outcome of an awaitable web request. */
module WebResults {
  import opened Wrappers
  import opened ReferencePools

  /** `byte[]`; `None` stands for a null array. */
  type Bytes = Option<seq<bv8>>

  /**
   * The four properties have private setters, so only `Create`, `Init` and
   * `Clear` below assign them.
   */
  class WebResult {
    var bytes: Bytes
    var isError: bool
    var errorMessage: string
    var userData: object?

    /** The state `Clear` leaves behind. */
    ghost predicate IsCleared()
      reads this
    {
      bytes == None && !isError && errorMessage == "" && userData == null
    }

    /** The four properties hold exactly the given values. */
    ghost predicate Holds(bytes: Bytes, isError: bool, errorMessage: string, userData: object?)
      reads this
    {
      this.bytes == bytes && this.isError == isError
      && this.errorMessage == errorMessage && this.userData == userData
    }

    constructor ()
      ensures IsCleared()
    {
      bytes := None;
      isError := false;
      errorMessage := "";
      userData := null;
    }

    /** `Create`: acquires an object from the pool and stores the four arguments in it. */
    static method Create(pool: Pool<WebResult>, bytes: Bytes, isError: bool, errorMessage: string, userData: object?)
      returns (r: WebResult)
      modifies pool, if pool.free == [] then {} else {pool.free[0]}
      ensures r.Holds(bytes, isError, errorMessage, userData)
      ensures old(pool.free) != [] ==> r == old(pool.free)[0] && pool.free == old(pool.free)[1..]
      ensures old(pool.free) == [] ==> fresh(r) && pool.free == []
    {
      var reused := pool.Take();
      if reused.Some? {
        r := reused.value;
      } else {
        r := new WebResult();
      }
      r.bytes := bytes;
      r.isError := isError;
      r.errorMessage := errorMessage;
      r.userData := userData;
    }

    /** `Init`: overwrites the four properties of this object and returns it. */
    method Init(bytes: Bytes, isError: bool, errorMessage: string, userData: object?) returns (self: WebResult)
      modifies this
      ensures self == this
      ensures Holds(bytes, isError, errorMessage, userData)
    {
      this.bytes := bytes;
      this.isError := isError;
      this.errorMessage := errorMessage;
      this.userData := userData;
      self := this;
    }

    /** `Clear`: back to null bytes, no error, empty message and null user data, whatever the state before. */
    method Clear()
      modifies this
      ensures IsCleared()
    {
      bytes := None;
      isError := false;
      errorMessage := "";
      userData := null;
    }

    /** `ReferencePool.Release(result)`: clears the object and enqueues it in the pool. */
    static method Release(pool: Pool<WebResult>, r: WebResult)
      modifies pool, r
      ensures r.IsCleared()
      ensures pool.free == old(pool.free) + [r]
    {
      r.Clear();
      pool.Put(r);
    }
  }

  /**
   * `Clear` followed by `Init` leaves the same observable properties as
   * `Create` with the same arguments.
   */
  method ClearThenInitMatchesCreate(pool: Pool<WebResult>, x: WebResult, bytes: Bytes, isError: bool, errorMessage: string, userData: object?)
    returns (y: WebResult, z: WebResult)
    modifies pool, x, if pool.free == [] then {} else {pool.free[0]}
    ensures y == x && x.Holds(bytes, isError, errorMessage, userData)
    ensures z.Holds(x.bytes, x.isError, x.errorMessage, x.userData)
  {
    x.Clear();
    y := x.Init(bytes, isError, errorMessage, userData);
    z := WebResult.Create(pool, bytes, isError, errorMessage, userData);
    assert z != x ==> x.Holds(bytes, isError, errorMessage, userData);
  }
}
