/**
 * The web request component: the public `AddWebRequest` overloads, which only
 * fill in defaults, and the await extension, which turns the manager's
 * success and failure events into resolved completion sources.
 */
module WebRequestComponents {
  import opened Wrappers
  import opened ReferencePools
  import opened Tasks
  import opened AwaitDataWraps
  import opened WebResults

  const DEFAULT_PRIORITY: int := 0

  /** A `WWWForm` body: its fields only. */
  datatype WWWForm = WWWForm(fields: seq<(string, string)>)

  /** `WWWFormInfo`: the form and the user data, bundled for the manager. */
  datatype WWWFormInfo = WWWFormInfo(wwwForm: Option<WWWForm>, userData: object?)

  /** What the component hands to `IWebRequestManager.AddWebRequest`. */
  datatype WebRequestTask = WebRequestTask(uri: string, postData: Bytes, tag: Option<string>, priority: int, info: WWWFormInfo)

  /** The body argument of an overload: none, a `byte[]` or a `WWWForm`. */
  datatype Body = NoBody | PostData(data: Bytes) | Form(form: Option<WWWForm>)

  /** The private six-argument `AddWebRequest`: what reaches the manager. */
  function AddWebRequestTask(uri: string, postData: Bytes, wwwForm: Option<WWWForm>, tag: Option<string>, priority: int, userData: object?): (t: WebRequestTask)
    ensures t.uri == uri && t.postData == postData && t.tag == tag && t.priority == priority
    ensures t.info.wwwForm == wwwForm && t.info.userData == userData
  {
    WebRequestTask(uri, postData, tag, priority, WWWFormInfo(wwwForm, userData))
  }

  /**
   * The 24 public `AddWebRequest` overloads (three body kinds times each
   * choice of passing tag, priority and user data). Every one forwards to the
   * six-argument form; what it leaves out becomes null, and priority 0.
   */
  function AddWebRequest(uri: string, body: Body, tag: Arg<Option<string>>, priority: Arg<int>, userData: Arg<object?>): (t: WebRequestTask)
    ensures t.uri == uri
    ensures t.postData == (if body.PostData? then body.data else None)
    ensures t.info.wwwForm == (if body.Form? then body.form else None)
    ensures tag.Omitted? ==> t.tag == None
    ensures tag.Given? ==> t.tag == tag.value
    ensures priority.Omitted? ==> t.priority == DEFAULT_PRIORITY == 0
    ensures priority.Given? ==> t.priority == priority.value
    ensures userData.Omitted? ==> t.info.userData == null
    ensures userData.Given? ==> t.info.userData == userData.value
  {
    var postData := match body case PostData(d) => d case _ => None;
    var wwwForm := match body case Form(f) => f case _ => None;
    AddWebRequestTask(uri, postData, wwwForm, tag.GetOr(None), priority.GetOr(DEFAULT_PRIORITY), userData.GetOr(null))
  }

  /** How an event handler ended. */
  datatype Handling =
    | Untracked                      // the serial id was not awaited: nothing happened
    | Handled(result: Option<WebResult>)  // id retired; a result was created when the user data was a wrapper
    | Thrown(acquired: WebResult)    // the wrapper was already cleared: `Source.TrySetResult` threw

  class WebRequestComponent {
    var webSerialIds: set<int>
    var delayReleaseWebResult: seq<WebResult>
    const resultPool: Pool<WebResult>
    const wrapPool: Pool<AwaitDataWrap<WebResult>>

    /**
     * Results wait in the delayed list only while some request is awaited,
     * none is in the list twice, and none of them is already back in the pool.
     */
    ghost predicate Valid()
      reads this, resultPool
    {
      && (webSerialIds == {} ==> delayReleaseWebResult == [])
      && PoolConsistent()
    }

    /** No result is both delayed and free, and neither list holds one twice. */
    ghost predicate PoolConsistent()
      reads this, resultPool
    {
      && Distinct(delayReleaseWebResult)
      && Distinct(resultPool.free)
      && (forall r :: r in delayReleaseWebResult ==> r !in resultPool.free)
    }

    constructor (resultPool: Pool<WebResult>, wrapPool: Pool<AwaitDataWrap<WebResult>>)
      requires Distinct(resultPool.free)
      ensures Valid()
      ensures webSerialIds == {} && delayReleaseWebResult == []
      ensures this.resultPool == resultPool && this.wrapPool == wrapPool
    {
      webSerialIds := {};
      delayReleaseWebResult := [];
      this.resultPool := resultPool;
      this.wrapPool := wrapPool;
    }

    /**
     * `AddWebRequestAsync`, both overloads: `NoBody` and `Form(f)` stand for the
     * form overload (a left-out form is null), `PostData(d)` for the byte one.
     * `serialId` is what the manager returns for the request.
     */
    method AddWebRequestAsync(webRequestUri: string, body: Body, userData: object?, serialId: int)
      returns (task: CompletionSource<WebResult>, wrap: AwaitDataWrap<WebResult>, request: WebRequestTask)
      requires Valid()
      modifies this, wrapPool, if wrapPool.free == [] then {} else {wrapPool.free[0]}
      ensures Valid()
      ensures fresh(task) && task.result == None
      ensures wrap.userData == userData && wrap.source == task
      ensures old(wrapPool.free) != [] ==> wrap == old(wrapPool.free)[0]
      ensures old(wrapPool.free) == [] ==> fresh(wrap)
      ensures wrapPool.free == AfterAcquire(old(wrapPool.free))
      ensures request.uri == webRequestUri && request.tag == None && request.priority == DEFAULT_PRIORITY
      ensures request.postData == (if body.PostData? then body.data else None)
      ensures request.info == WWWFormInfo(if body.Form? then body.form else None, wrap)
      ensures webSerialIds == old(webSerialIds) + {serialId}
      ensures delayReleaseWebResult == old(delayReleaseWebResult)
    {
      task := new CompletionSource<WebResult>();
      wrap := AwaitDataWrap.Create(wrapPool, userData, task);
      var forwarded := if body.NoBody? then Form(None) else body;
      request := AddWebRequest(webRequestUri, forwarded, Omitted, Omitted, Given(wrap));
      webSerialIds := webSerialIds + {serialId};
    }

    /** Releases every delayed result to the pool, in list order, and empties the list. */
    method ReleaseDelayed()
      requires PoolConsistent()
      modifies this, resultPool, delayReleaseWebResult
      ensures delayReleaseWebResult == []
      ensures resultPool.free == old(resultPool.free) + old(delayReleaseWebResult)
      ensures Distinct(resultPool.free)
      ensures forall r :: r in old(delayReleaseWebResult) ==> r.IsCleared()
      ensures webSerialIds == old(webSerialIds)
    {
      var i := 0;
      while i < |delayReleaseWebResult|
        invariant 0 <= i <= |delayReleaseWebResult|
        invariant delayReleaseWebResult == old(delayReleaseWebResult)
        invariant webSerialIds == old(webSerialIds)
        invariant resultPool.free == old(resultPool.free) + delayReleaseWebResult[..i]
        invariant forall k :: 0 <= k < i ==> delayReleaseWebResult[k].IsCleared()
      {
        WebResult.Release(resultPool, delayReleaseWebResult[i]);
        i := i + 1;
      }
      assert delayReleaseWebResult[..i] == delayReleaseWebResult;
      DistinctAppend(old(resultPool.free), delayReleaseWebResult);
      delayReleaseWebResult := [];
    }

    /** Forgets `serialId`; when no request is awaited any more, releases the whole batch. */
    method Retire(serialId: int)
      requires Valid()
      modifies this, resultPool, delayReleaseWebResult
      ensures Valid()
      ensures webSerialIds == old(webSerialIds) - {serialId}
      ensures webSerialIds != {} ==> delayReleaseWebResult == old(delayReleaseWebResult) && resultPool.free == old(resultPool.free)
      ensures webSerialIds == {} ==> delayReleaseWebResult == []
      ensures webSerialIds == {} ==> resultPool.free == old(resultPool.free) + old(delayReleaseWebResult)
      ensures webSerialIds == {} ==> forall r :: r in old(delayReleaseWebResult) ==> r.IsCleared()
      ensures webSerialIds != {} ==> forall r :: r in old(delayReleaseWebResult) ==> unchanged(r)
    {
      webSerialIds := webSerialIds - {serialId};
      if webSerialIds == {} {
        ReleaseDelayed();
      }
    }

    /** Appends a result just acquired from the pool to the delayed list. */
    method Delay(r: WebResult)
      requires Valid()
      requires r !in delayReleaseWebResult && r !in resultPool.free
      requires webSerialIds != {}
      modifies this
      ensures Valid()
      ensures delayReleaseWebResult == old(delayReleaseWebResult) + [r]
      ensures webSerialIds == old(webSerialIds)
    {
      DistinctAppend(delayReleaseWebResult, [r]);
      delayReleaseWebResult := delayReleaseWebResult + [r];
    }

    /**
     * `OnWebRequestSuccess`. `wrap` is the event's user data when it is an
     * `AwaitDataWrap<WebResult>`, null otherwise.
     */
    method OnWebRequestSuccess(serialId: int, wrap: AwaitDataWrap?<WebResult>, responseBytes: seq<bv8>)
      returns (h: Handling)
      requires Valid()
      modifies this, resultPool, wrapPool, wrap, delayReleaseWebResult
      modifies if resultPool.free == [] then {} else {resultPool.free[0]}
      modifies if wrap != null && wrap.source != null then {wrap.source} else {}
      ensures Valid()
      // an event for an id that is not awaited changes nothing
      ensures serialId !in old(webSerialIds) ==>
        && h == Untracked
        && unchanged(this, resultPool, wrapPool)
        && (wrap != null ==> unchanged(wrap) && (wrap.source != null ==> unchanged(wrap.source)))
      // user data that is not a wrapper: the id is retired and nothing is created
      ensures serialId in old(webSerialIds) && wrap == null ==>
        && h == Handled(None)
        && webSerialIds == old(webSerialIds) - {serialId}
        && unchanged(wrapPool)
      // a cleared wrapper: the result is already delayed when the call throws
      ensures serialId in old(webSerialIds) && wrap != null && old(wrap.source) == null ==>
        && h.Thrown?
        && h.acquired.Holds(Some(responseBytes), false, "", old(wrap.userData))
        && webSerialIds == old(webSerialIds)
        && delayReleaseWebResult == old(delayReleaseWebResult) + [h.acquired]
        && resultPool.free == AfterAcquire(old(resultPool.free))
        && unchanged(wrap, wrapPool)
      // a live wrapper: its source gets the result, the wrapper goes back to its pool
      ensures serialId in old(webSerialIds) && wrap != null && old(wrap.source) != null ==>
        && h.Handled? && h.result.Some?
        && (old(wrap.source.result) == None ==> old(wrap.source).result == Some(h.result.value))
        && (old(wrap.source.result) != None ==> old(wrap.source).result == old(wrap.source.result))
        && wrap.IsCleared()
        && wrapPool.free == old(wrapPool.free) + [wrap]
        && webSerialIds == old(webSerialIds) - {serialId}
      ensures h.Handled? && h.result.Some? && webSerialIds != {} ==>
        wrap != null && h.result.value.Holds(Some(responseBytes), false, "", old(wrap.userData))
      // the batch: delayed while some request is awaited, all released when none is
      // the result is the pool's oldest free object, or a new one when the pool is empty
      ensures h.Handled? && h.result.Some? ==>
        if old(resultPool.free) == [] then fresh(h.result.value) else h.result.value == old(resultPool.free)[0]
      ensures h.Thrown? ==>
        if old(resultPool.free) == [] then fresh(h.acquired) else h.acquired == old(resultPool.free)[0]
      ensures h.Handled? ==>
        var batch := old(delayReleaseWebResult) + (if h.result.Some? then [h.result.value] else []);
        var kept := if h.result.Some? then AfterAcquire(old(resultPool.free)) else old(resultPool.free);
        && (webSerialIds != {} ==> delayReleaseWebResult == batch && resultPool.free == kept)
        && (webSerialIds == {} ==> delayReleaseWebResult == [] && resultPool.free == kept + batch)
        && (webSerialIds == {} ==> forall r :: r in batch ==> r.IsCleared())
    {
      if serialId !in webSerialIds {
        return Untracked;
      }
      var created: Option<WebResult> := None;
      if wrap != null {
        var result := WebResult.Create(resultPool, Some(responseBytes), false, "", wrap.userData);
        Delay(result);
        assert result in delayReleaseWebResult;
        if wrap.source == null {
          return Thrown(result);
        }
        var _ := wrap.source.TrySetResult(result);
        AwaitDataWrap.Release(wrapPool, wrap);
        created := Some(result);
      }
      Retire(serialId);
      h := Handled(created);
    }

    /**
     * `OnWebRequestFailure`: like success, but the result carries no bytes,
     * IsError and the event's message, and the source is set before the
     * result is delayed. The source is resolved, never faulted.
     */
    method OnWebRequestFailure(serialId: int, wrap: AwaitDataWrap?<WebResult>, errorMessage: string)
      returns (h: Handling)
      requires Valid()
      modifies this, resultPool, wrapPool, wrap, delayReleaseWebResult
      modifies if resultPool.free == [] then {} else {resultPool.free[0]}
      modifies if wrap != null && wrap.source != null then {wrap.source} else {}
      ensures Valid()
      ensures serialId !in old(webSerialIds) ==>
        && h == Untracked
        && unchanged(this, resultPool, wrapPool)
        && (wrap != null ==> unchanged(wrap) && (wrap.source != null ==> unchanged(wrap.source)))
      ensures serialId in old(webSerialIds) && wrap == null ==>
        && h == Handled(None)
        && webSerialIds == old(webSerialIds) - {serialId}
        && unchanged(wrapPool)
      // a cleared wrapper: the call throws before the result is delayed, so it is never released
      ensures serialId in old(webSerialIds) && wrap != null && old(wrap.source) == null ==>
        && h.Thrown?
        && h.acquired.Holds(None, true, errorMessage, old(wrap.userData))
        && h.acquired !in delayReleaseWebResult && h.acquired !in resultPool.free
        && webSerialIds == old(webSerialIds)
        && delayReleaseWebResult == old(delayReleaseWebResult)
        && resultPool.free == AfterAcquire(old(resultPool.free))
        && unchanged(wrap, wrapPool)
      ensures serialId in old(webSerialIds) && wrap != null && old(wrap.source) != null ==>
        && h.Handled? && h.result.Some?
        && (old(wrap.source.result) == None ==> old(wrap.source).result == Some(h.result.value))
        && (old(wrap.source.result) != None ==> old(wrap.source).result == old(wrap.source.result))
        && wrap.IsCleared()
        && wrapPool.free == old(wrapPool.free) + [wrap]
        && webSerialIds == old(webSerialIds) - {serialId}
      ensures h.Handled? && h.result.Some? && webSerialIds != {} ==>
        wrap != null && h.result.value.Holds(None, true, errorMessage, old(wrap.userData))
      // the result is the pool's oldest free object, or a new one when the pool is empty
      ensures h.Handled? && h.result.Some? ==>
        if old(resultPool.free) == [] then fresh(h.result.value) else h.result.value == old(resultPool.free)[0]
      ensures h.Thrown? ==>
        if old(resultPool.free) == [] then fresh(h.acquired) else h.acquired == old(resultPool.free)[0]
      ensures h.Handled? ==>
        var batch := old(delayReleaseWebResult) + (if h.result.Some? then [h.result.value] else []);
        var kept := if h.result.Some? then AfterAcquire(old(resultPool.free)) else old(resultPool.free);
        && (webSerialIds != {} ==> delayReleaseWebResult == batch && resultPool.free == kept)
        && (webSerialIds == {} ==> delayReleaseWebResult == [] && resultPool.free == kept + batch)
        && (webSerialIds == {} ==> forall r :: r in batch ==> r.IsCleared())
    {
      if serialId !in webSerialIds {
        return Untracked;
      }
      var created: Option<WebResult> := None;
      if wrap != null {
        var result := WebResult.Create(resultPool, None, true, errorMessage, wrap.userData);
        if wrap.source == null {
          return Thrown(result);
        }
        var _ := wrap.source.TrySetResult(result);
        Delay(result);
        assert result in delayReleaseWebResult;
        AwaitDataWrap.Release(wrapPool, wrap);
        created := Some(result);
      }
      Retire(serialId);
      h := Handled(created);
    }
  }

  /**
   * The lifetime hazard of batched release. Requests A and B are awaited; A
   * succeeds first and its source receives a result holding A's bytes. When
   * B completes last, that same result is cleared and queued in the pool for
   * reuse, while A's source still hands it out.
   */
  method SiblingCompletionReleasesDeliveredResult(c: WebRequestComponent, a: int, b: int, bytesA: seq<bv8>, bytesB: seq<bv8>)
    returns (taskA: CompletionSource<WebResult>, rA: WebResult)
    requires c.Valid() && c.webSerialIds == {} && a != b
    requires Distinct(c.wrapPool.free)
    modifies c, c.resultPool, c.wrapPool, c.resultPool.free, c.wrapPool.free
    ensures taskA.result == Some(rA)
    ensures rA.IsCleared() && rA in c.resultPool.free
    ensures c.webSerialIds == {} && c.delayReleaseWebResult == []
  {
    var wrapA, wrapB, request;
    taskA, wrapA, request := c.AddWebRequestAsync("A", NoBody, null, a);
    var taskB;
    taskB, wrapB, request := c.AddWebRequestAsync("B", NoBody, null, b);
    assert wrapA != wrapB;
    var hA := c.OnWebRequestSuccess(a, wrapA, bytesA);
    rA := hA.result.value;
    assert rA.Holds(Some(bytesA), false, "", null);
    assert c.webSerialIds == {b};
    var hB := c.OnWebRequestSuccess(b, wrapB, bytesB);
    assert rA in c.resultPool.free;
  }
}
