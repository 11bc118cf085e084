/**
 * The download component: the public `AddDownload` overloads, which only fill
 * in defaults, and the await extension over the manager's success and
 * failure events.
 */
module DownloadComponents {
  import opened Wrappers
  import opened ReferencePools
  import opened Tasks
  import opened AwaitDataWraps
  import opened DownLoadResults

  const DEFAULT_PRIORITY: int := 0

  /** What the component hands to `IDownloadManager.AddDownload`. */
  datatype DownloadTask = DownloadTask(downloadPath: string, downloadUri: string, tag: Option<string>, priority: int, userData: object?)

  /**
   * The eight public `AddDownload` overloads (each choice of passing tag,
   * priority and user data). The five-argument one passes everything to the
   * manager; the others forward to it with null, and priority 0, for what they leave out.
   */
  function AddDownload(downloadPath: string, downloadUri: string, tag: Arg<Option<string>>, priority: Arg<int>, userData: Arg<object?>): (t: DownloadTask)
    ensures t.downloadPath == downloadPath && t.downloadUri == downloadUri
    ensures tag.Omitted? ==> t.tag == None
    ensures tag.Given? ==> t.tag == tag.value
    ensures priority.Omitted? ==> t.priority == DEFAULT_PRIORITY == 0
    ensures priority.Given? ==> t.priority == priority.value
    ensures userData.Omitted? ==> t.userData == null
    ensures userData.Given? ==> t.userData == userData.value
  {
    DownloadTask(downloadPath, downloadUri, tag.GetOr(None), priority.GetOr(DEFAULT_PRIORITY), userData.GetOr(null))
  }

  /** How an event handler ended. */
  datatype Handling =
    | Untracked                      // the serial id was not awaited: nothing happened
    | Handled(result: Option<DownLoadResult>)  // id retired; a result was created when the user data was a wrapper
    | Thrown(acquired: DownLoadResult)    // the wrapper was already cleared: `Source.TrySetResult` threw

  class DownloadComponent {
    var downloadSerialIds: set<int>
    var delayReleaseDownloadResult: seq<DownLoadResult>
    const resultPool: Pool<DownLoadResult>
    const wrapPool: Pool<AwaitDataWrap<DownLoadResult>>

    /**
     * Results wait in the delayed list only while some download is awaited,
     * none is in the list twice, and none of them is already back in the pool.
     */
    ghost predicate Valid()
      reads this, resultPool
    {
      && (downloadSerialIds == {} ==> delayReleaseDownloadResult == [])
      && PoolConsistent()
    }

    /** No result is both delayed and free, and neither list holds one twice. */
    ghost predicate PoolConsistent()
      reads this, resultPool
    {
      && Distinct(delayReleaseDownloadResult)
      && Distinct(resultPool.free)
      && (forall r :: r in delayReleaseDownloadResult ==> r !in resultPool.free)
    }

    constructor (resultPool: Pool<DownLoadResult>, wrapPool: Pool<AwaitDataWrap<DownLoadResult>>)
      requires Distinct(resultPool.free)
      ensures Valid()
      ensures downloadSerialIds == {} && delayReleaseDownloadResult == []
      ensures this.resultPool == resultPool && this.wrapPool == wrapPool
    {
      downloadSerialIds := {};
      delayReleaseDownloadResult := [];
      this.resultPool := resultPool;
      this.wrapPool := wrapPool;
    }

    /** `AddDownloadAsync`; `serialId` is what the manager returns for the download. */
    method AddDownloadAsync(downloadPath: string, downloadUri: string, userData: object?, serialId: int)
      returns (task: CompletionSource<DownLoadResult>, wrap: AwaitDataWrap<DownLoadResult>, request: DownloadTask)
      requires Valid()
      modifies this, wrapPool, if wrapPool.free == [] then {} else {wrapPool.free[0]}
      ensures Valid()
      ensures fresh(task) && task.result == None
      ensures wrap.userData == userData && wrap.source == task
      ensures old(wrapPool.free) != [] ==> wrap == old(wrapPool.free)[0]
      ensures old(wrapPool.free) == [] ==> fresh(wrap)
      ensures wrapPool.free == AfterAcquire(old(wrapPool.free))
      ensures request == DownloadTask(downloadPath, downloadUri, None, DEFAULT_PRIORITY, wrap)
      ensures downloadSerialIds == old(downloadSerialIds) + {serialId}
      ensures delayReleaseDownloadResult == old(delayReleaseDownloadResult)
    {
      task := new CompletionSource<DownLoadResult>();
      wrap := AwaitDataWrap.Create(wrapPool, userData, task);
      request := AddDownload(downloadPath, downloadUri, Omitted, Omitted, Given(wrap));
      downloadSerialIds := downloadSerialIds + {serialId};
    }

    /** Releases every delayed result to the pool, in list order, and empties the list. */
    method ReleaseDelayed()
      requires PoolConsistent()
      modifies this, resultPool, delayReleaseDownloadResult
      ensures delayReleaseDownloadResult == []
      ensures resultPool.free == old(resultPool.free) + old(delayReleaseDownloadResult)
      ensures Distinct(resultPool.free)
      ensures forall r :: r in old(delayReleaseDownloadResult) ==> r.IsCleared()
      ensures downloadSerialIds == old(downloadSerialIds)
    {
      var i := 0;
      while i < |delayReleaseDownloadResult|
        invariant 0 <= i <= |delayReleaseDownloadResult|
        invariant delayReleaseDownloadResult == old(delayReleaseDownloadResult)
        invariant downloadSerialIds == old(downloadSerialIds)
        invariant resultPool.free == old(resultPool.free) + delayReleaseDownloadResult[..i]
        invariant forall k :: 0 <= k < i ==> delayReleaseDownloadResult[k].IsCleared()
      {
        DownLoadResult.Release(resultPool, delayReleaseDownloadResult[i]);
        i := i + 1;
      }
      assert delayReleaseDownloadResult[..i] == delayReleaseDownloadResult;
      DistinctAppend(old(resultPool.free), delayReleaseDownloadResult);
      delayReleaseDownloadResult := [];
    }

    /** Forgets `serialId`; when no download is awaited any more, releases the whole batch. */
    method Retire(serialId: int)
      requires Valid()
      modifies this, resultPool, delayReleaseDownloadResult
      ensures Valid()
      ensures downloadSerialIds == old(downloadSerialIds) - {serialId}
      ensures downloadSerialIds != {} ==> delayReleaseDownloadResult == old(delayReleaseDownloadResult) && resultPool.free == old(resultPool.free)
      ensures downloadSerialIds == {} ==> delayReleaseDownloadResult == []
      ensures downloadSerialIds == {} ==> resultPool.free == old(resultPool.free) + old(delayReleaseDownloadResult)
      ensures downloadSerialIds == {} ==> forall r :: r in old(delayReleaseDownloadResult) ==> r.IsCleared()
      ensures downloadSerialIds != {} ==> forall r :: r in old(delayReleaseDownloadResult) ==> unchanged(r)
    {
      downloadSerialIds := downloadSerialIds - {serialId};
      if downloadSerialIds == {} {
        ReleaseDelayed();
      }
    }

    /** Appends a result just acquired from the pool to the delayed list. */
    method Delay(r: DownLoadResult)
      requires Valid()
      requires r !in delayReleaseDownloadResult && r !in resultPool.free
      requires downloadSerialIds != {}
      modifies this
      ensures Valid()
      ensures delayReleaseDownloadResult == old(delayReleaseDownloadResult) + [r]
      ensures downloadSerialIds == old(downloadSerialIds)
    {
      DistinctAppend(delayReleaseDownloadResult, [r]);
      delayReleaseDownloadResult := delayReleaseDownloadResult + [r];
    }

    /**
     * `OnDownloadSuccess` (`isError` false, empty message) and
     * `OnDownloadFailure` (`isError` true, the event's message): both delay
     * the result before setting the source, and neither faults it.
     * `wrap` is the event's user data when it is an
     * `AwaitDataWrap<DownLoadResult>`, null otherwise.
     */
    method OnDownloadCompleted(serialId: int, wrap: AwaitDataWrap?<DownLoadResult>, isError: bool, errorMessage: string)
      returns (h: Handling)
      requires Valid()
      modifies this, resultPool, wrapPool, wrap, delayReleaseDownloadResult
      modifies if resultPool.free == [] then {} else {resultPool.free[0]}
      modifies if wrap != null && wrap.source != null then {wrap.source} else {}
      ensures Valid()
      ensures serialId !in old(downloadSerialIds) ==>
        && h == Untracked
        && unchanged(this, resultPool, wrapPool)
        && (wrap != null ==> unchanged(wrap) && (wrap.source != null ==> unchanged(wrap.source)))
      ensures serialId in old(downloadSerialIds) && wrap == null ==>
        && h == Handled(None)
        && downloadSerialIds == old(downloadSerialIds) - {serialId}
        && unchanged(wrapPool)
      ensures serialId in old(downloadSerialIds) && wrap != null && old(wrap.source) == null ==>
        && h.Thrown?
        && h.acquired.Holds(isError, errorMessage, old(wrap.userData))
        && downloadSerialIds == old(downloadSerialIds)
        && delayReleaseDownloadResult == old(delayReleaseDownloadResult) + [h.acquired]
        && resultPool.free == AfterAcquire(old(resultPool.free))
        && unchanged(wrap, wrapPool)
      ensures serialId in old(downloadSerialIds) && wrap != null && old(wrap.source) != null ==>
        && h.Handled? && h.result.Some?
        && (old(wrap.source.result) == None ==> old(wrap.source).result == Some(h.result.value))
        && (old(wrap.source.result) != None ==> old(wrap.source).result == old(wrap.source.result))
        && wrap.IsCleared()
        && wrapPool.free == old(wrapPool.free) + [wrap]
        && downloadSerialIds == old(downloadSerialIds) - {serialId}
      ensures h.Handled? && h.result.Some? && downloadSerialIds != {} ==>
        wrap != null && h.result.value.Holds(isError, errorMessage, old(wrap.userData))
      ensures h.Handled? && h.result.Some? ==>
        if old(resultPool.free) == [] then fresh(h.result.value) else h.result.value == old(resultPool.free)[0]
      ensures h.Thrown? ==>
        if old(resultPool.free) == [] then fresh(h.acquired) else h.acquired == old(resultPool.free)[0]
      ensures h.Handled? ==>
        var batch := old(delayReleaseDownloadResult) + (if h.result.Some? then [h.result.value] else []);
        var kept := if h.result.Some? then AfterAcquire(old(resultPool.free)) else old(resultPool.free);
        && (downloadSerialIds != {} ==> delayReleaseDownloadResult == batch && resultPool.free == kept)
        && (downloadSerialIds == {} ==> delayReleaseDownloadResult == [] && resultPool.free == kept + batch)
        && (downloadSerialIds == {} ==> forall r :: r in batch ==> r.IsCleared())
    {
      if serialId !in downloadSerialIds {
        return Untracked;
      }
      var created: Option<DownLoadResult> := None;
      if wrap != null {
        var result := DownLoadResult.Create(resultPool, isError, errorMessage, wrap.userData);
        Delay(result);
        assert result in delayReleaseDownloadResult;
        if wrap.source == null {
          return Thrown(result);
        }
        var _ := wrap.source.TrySetResult(result);
        AwaitDataWrap.Release(wrapPool, wrap);
        created := Some(result);
      }
      Retire(serialId);
      h := Handled(created);
    }

    /** `OnDownloadSuccess`. */
    method OnDownloadSuccess(serialId: int, wrap: AwaitDataWrap?<DownLoadResult>) returns (h: Handling)
      requires Valid()
      modifies this, resultPool, wrapPool, wrap, delayReleaseDownloadResult
      modifies if resultPool.free == [] then {} else {resultPool.free[0]}
      modifies if wrap != null && wrap.source != null then {wrap.source} else {}
      ensures Valid()
      ensures serialId !in old(downloadSerialIds) ==> h == Untracked && unchanged(this, resultPool, wrapPool)
      ensures serialId in old(downloadSerialIds) && wrap != null && old(wrap.source) != null ==>
        && h.Handled? && h.result.Some?
        && (old(wrap.source.result) == None ==> old(wrap.source).result == Some(h.result.value))
        && downloadSerialIds == old(downloadSerialIds) - {serialId}
      ensures h.Handled? && h.result.Some? && downloadSerialIds != {} ==>
        wrap != null && h.result.value.Holds(false, "", old(wrap.userData))
    {
      h := OnDownloadCompleted(serialId, wrap, false, "");
    }

    /** `OnDownloadFailure`. */
    method OnDownloadFailure(serialId: int, wrap: AwaitDataWrap?<DownLoadResult>, errorMessage: string) returns (h: Handling)
      requires Valid()
      modifies this, resultPool, wrapPool, wrap, delayReleaseDownloadResult
      modifies if resultPool.free == [] then {} else {resultPool.free[0]}
      modifies if wrap != null && wrap.source != null then {wrap.source} else {}
      ensures Valid()
      ensures serialId !in old(downloadSerialIds) ==> h == Untracked && unchanged(this, resultPool, wrapPool)
      ensures serialId in old(downloadSerialIds) && wrap != null && old(wrap.source) != null ==>
        && h.Handled? && h.result.Some?
        && (old(wrap.source.result) == None ==> old(wrap.source).result == Some(h.result.value))
        && downloadSerialIds == old(downloadSerialIds) - {serialId}
      ensures h.Handled? && h.result.Some? && downloadSerialIds != {} ==>
        wrap != null && h.result.value.Holds(true, errorMessage, old(wrap.userData))
    {
      h := OnDownloadCompleted(serialId, wrap, true, errorMessage);
    }
  }
}
