/**
 * Stand-ins for the two library objects the completion bridge relies on:
 * the framework's reference pool and the task completion source.
 */
module ReferencePools {
  import opened Wrappers

  /** No object occurs twice in `s`. */
  ghost predicate Distinct<T>(s: seq<T>) {
    forall i, j :: 0 <= i < j < |s| ==> s[i] != s[j]
  }

  /** The free list after one acquire: the head is handed out when there is one. */
  function AfterAcquire<T>(free: seq<T>): seq<T> {
    if free == [] then [] else free[1..]
  }

  /** Concatenating two duplicate-free lists with no common element gives a duplicate-free list. */
  lemma DistinctAppend<T>(a: seq<T>, b: seq<T>)
    requires Distinct(a) && Distinct(b)
    requires forall x :: x in b ==> x !in a
    ensures Distinct(a + b)
  {
    forall i, j | 0 <= i < j < |a + b| ensures (a + b)[i] != (a + b)[j] {
      if j >= |a| && i < |a| {
        assert (a + b)[j] == b[j - |a|];
        assert (a + b)[j] in b;
      }
    }
  }

  /**
   * One per-type reference pool: a FIFO of released objects. Acquiring takes
   * the oldest released object, or reports that a new one must be allocated.
   */
  class Pool<T> {
    var free: seq<T>

    constructor ()
      ensures free == []
    {
      free := [];
    }

    /** The dequeue half of `ReferencePool.Acquire<T>`. */
    method Take() returns (r: Option<T>)
      modifies this
      ensures old(free) == [] ==> r == None && free == []
      ensures old(free) != [] ==> r == Some(old(free)[0]) && free == old(free)[1..]
    {
      if free == [] {
        r := None;
      } else {
        r := Some(free[0]);
        free := free[1..];
      }
    }

    /** The enqueue half of `ReferencePool.Release` (the caller clears the object first). */
    method Put(x: T)
      modifies this
      ensures free == old(free) + [x]
    {
      free := free + [x];
    }
  }
}

module Tasks {
  import opened Wrappers

  /** A `TaskCompletionSource<T>`: a cell that can be set once; its task is the cell itself. */
  class CompletionSource<T> {
    var result: Option<T>

    constructor ()
      ensures result == None
    {
      result := None;
    }

    /** Sets the result if none was set yet; reports whether it did. */
    method TrySetResult(r: T) returns (ok: bool)
      modifies this
      ensures ok <==> old(result) == None
      ensures result == if ok then Some(r) else old(result)
    {
      ok := result == None;
      if ok {
        result := Some(r);
      }
    }
  }
}
