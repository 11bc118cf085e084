/**
 * The editor's scriptable singleton: a settings asset loaded from (or
 * created for) a project-relative file named by a path attribute, cached in
 * a static field.
 */
module ScriptableSingletons {
  import opened Wrappers
  import opened Text

  /**
   * The `FilePathAttribute` constructor: an empty path is refused (`None`,
   * the ArgumentException); a single leading '/' is dropped.
   */
  function FilePath(path: string): (filepath: Option<string>)
    ensures filepath.None? <==> path == ""
    ensures filepath.Some? ==> && |path| - 1 <= |filepath.value| <= |path|
                               && filepath.value == path[|path| - |filepath.value|..]
    ensures filepath.Some? && path[0] != '/' ==> filepath.value == path
    ensures path == "/" ==> filepath == Some("")
  {
    if path == "" then None
    else if path[0] == '/' then Some(path[1..])
    else Some(path)
  }

  /** The constructor undoes a leading '/', and only one: a path and its '/'-prefixed form name the same file. */
  lemma {:induction false} FilePathDropsOneSlash(relative: string)
    ensures FilePath("/" + relative) == Some(relative)
    ensures relative != "" && relative[0] != '/' ==> FilePath(relative) == FilePath("/" + relative)
    ensures FilePath("//" + relative) == Some("/" + relative)
  {
    assert ("/" + relative)[1..] == relative;
    assert ("//" + relative)[1..] == "/" + relative;
  }

  /** A serialised object; only its exact type matters here. */
  class ScriptableObject {
    const typeName: string

    constructor (typeName: string)
      ensures this.typeName == typeName
    {
      this.typeName := typeName;
    }
  }

  /** What `Save` does. */
  datatype SaveAction = NoInstance | NoPath | Thrown | Write(filePath: string, objects: seq<ScriptableObject>)

  /** The static state of `ScriptableSingleton<T>`, `T` being the type named `instanceType`. */
  class ScriptableSingleton {
    const instanceType: string
    var instance: ScriptableObject?

    constructor (instanceType: string)
      ensures this.instanceType == instanceType && instance == null
    {
      this.instanceType := instanceType;
      instance := null;
    }

    /**
     * `LoadOrCreate`, with `filePath` the attribute's path ("" when there is
     * none) and `loaded` the objects read from that file. The first loaded
     * object becomes the instance (null when it is not a `T`); an empty file
     * keeps the instance, creating one if there is none; no path reports an
     * error and changes nothing.
     */
    method LoadOrCreate(filePath: string, loaded: seq<ScriptableObject>) returns (r: ScriptableObject?, reportedError: bool)
      modifies this
      ensures r == instance
      ensures reportedError <==> filePath == ""
      ensures filePath == "" ==> instance == old(instance)
      ensures filePath != "" && |loaded| > 0 ==>
        instance == (if loaded[0].typeName == instanceType then loaded[0] else null)
      ensures filePath != "" && |loaded| == 0 && old(instance) != null ==> instance == old(instance)
      ensures filePath != "" && |loaded| == 0 && old(instance) == null ==>
        instance != null && fresh(instance) && instance.typeName == instanceType
    {
      reportedError := false;
      if filePath != "" {
        if |loaded| > 0 {
          instance := if loaded[0].typeName == instanceType then loaded[0] else null;
        } else if instance == null {
          instance := new ScriptableObject(instanceType);
        }
      } else {
        reportedError := true;
      }
      r := instance;
    }

    /** `Instance`: the cached instance, loading or creating it only when there is none. */
    method Instance(filePath: string, loaded: seq<ScriptableObject>) returns (r: ScriptableObject?)
      modifies this
      ensures r == instance
      ensures old(instance) != null ==> r == old(instance) && unchanged(this)
      ensures old(instance) == null && filePath != "" && |loaded| > 0 ==>
        r == (if loaded[0].typeName == instanceType then loaded[0] else null)
      ensures old(instance) == null && filePath != "" && |loaded| == 0 ==>
        r != null && fresh(r) && r.typeName == instanceType
      ensures old(instance) == null && filePath == "" ==> r == null && instance == null
    {
      if instance == null {
        var _, _ := LoadOrCreate(filePath, loaded);
      }
      r := instance;
    }

    /**
     * `Save`: refused without an instance or a path. A path with no directory
     * part makes the directory creation throw; otherwise the instance alone
     * is written to the path.
     */
    method Save(filePath: string) returns (action: SaveAction)
      ensures instance == null ==> action == NoInstance
      ensures instance != null && filePath == "" ==> action == NoPath
      ensures instance != null && filePath != "" && GetDirectoryName(filePath) == "" ==> action == Thrown
      ensures instance != null && filePath != "" && GetDirectoryName(filePath) != "" ==> action == Write(filePath, [instance])
      ensures action.Write? ==> exists k :: 0 <= k < |filePath| && IsSeparator(filePath[k])
    {
      if instance == null {
        return NoInstance;
      }
      if filePath == "" {
        return NoPath;
      }
      if GetDirectoryName(filePath) == "" {
        return Thrown;
      }
      assert IsSeparator(filePath[LastSeparator(filePath)]);
      action := Write(filePath, [instance]);
    }
  }
}
