/**
 * The build-settings menu commands and editor window: turning the loaded
 * lists into the engine's build-scene list, and the two-step "pick a file for
 * an empty entry" interaction of the editor window.
 */
module BuildSettingsEditor {
  import Wrappers
  import opened Text
  import opened BuildSettingsControllers

  /** An entry of the engine's build-scene list. */
  datatype EditorBuildSettingsScene = EditorBuildSettingsScene(path: string, enabled: bool)

  /** No two entries have the same path. */
  ghost predicate DistinctPaths(scenes: seq<EditorBuildSettingsScene>) {
    forall i, j :: 0 <= i < j < |scenes| ==> scenes[i].path != scenes[j].path
  }

  /** The paths of `scenes`. */
  ghost function Paths(scenes: seq<EditorBuildSettingsScene>): set<string> {
    set i | 0 <= i < |scenes| :: scenes[i].path
  }

  /** The names of `names` as a set. */
  ghost function NameSet(names: seq<string>): set<string> {
    set i | 0 <= i < |names| :: names[i]
  }

  lemma NameSetAppend(a: seq<string>, b: seq<string>)
    ensures NameSet(a + b) == NameSet(a) + NameSet(b)
  {
    forall x | x in NameSet(a + b) ensures x in NameSet(a) + NameSet(b) {
      var i :| 0 <= i < |a + b| && (a + b)[i] == x;
      if i >= |a| {
        assert b[i - |a|] == x;
      }
    }
    forall x | x in NameSet(b) ensures x in NameSet(a + b) {
      var j :| 0 <= j < |b| && b[j] == x;
      assert (a + b)[|a| + j] == x;
    }
    forall x | x in NameSet(a) ensures x in NameSet(a + b) {
      var j :| 0 <= j < |a| && a[j] == x;
      assert (a + b)[j] == x;
    }
  }

  /**
   * The body of `DefaultScenes` and `AllScenes` once loading succeeded:
   * the names go through a hash set, and each distinct name becomes one
   * enabled build scene, in the set's (unspecified) enumeration order.
   */
  method ScenesFrom(names: seq<string>) returns (scenes: seq<EditorBuildSettingsScene>)
    ensures DistinctPaths(scenes)
    ensures forall i :: 0 <= i < |scenes| ==> scenes[i].enabled
    ensures Paths(scenes) == NameSet(names)
  {
    var sceneNames: set<string> := {};
    for i := 0 to |names|
      invariant sceneNames == NameSet(names[..i])
    {
      assert NameSet(names[..i + 1]) == NameSet(names[..i]) + {names[i]} by {
        assert forall j :: 0 <= j < i ==> names[..i + 1][j] == names[..i][j];
      }
      sceneNames := sceneNames + {names[i]};
    }
    assert names[..|names|] == names;
    var remaining := sceneNames;
    scenes := [];
    while remaining != {}
      invariant DistinctPaths(scenes)
      invariant forall i :: 0 <= i < |scenes| ==> scenes[i].enabled
      invariant Paths(scenes) + remaining == sceneNames
      invariant forall i :: 0 <= i < |scenes| ==> scenes[i].path !in remaining
      decreases remaining
    {
      var sceneName :| sceneName in remaining;
      assert Paths(scenes + [EditorBuildSettingsScene(sceneName, true)]) == Paths(scenes) + {sceneName} by {
        assert forall i :: 0 <= i < |scenes| ==> (scenes + [EditorBuildSettingsScene(sceneName, true)])[i] == scenes[i];
        assert (scenes + [EditorBuildSettingsScene(sceneName, true)])[|scenes|].path == sceneName;
      }
      scenes := scenes + [EditorBuildSettingsScene(sceneName, true)];
      remaining := remaining - {sceneName};
    }
  }

  /** The state the two menu commands work on: the shared controller and the engine's build-scene list. */
  class BuildSettingsMenu {
    var controller: BuildSettingsController?
    var buildScenes: seq<EditorBuildSettingsScene>

    constructor (buildScenes: seq<EditorBuildSettingsScene>)
      ensures controller == null && this.buildScenes == buildScenes
    {
      controller := null;
      this.buildScenes := buildScenes;
    }

    /**
     * The menu command "Default Scenes": the controller is created on first
     * use and loaded; on success the build list becomes the distinct default
     * scenes, all enabled; on failure it is left as it was.
     */
    method DefaultScenes(rootDir: string, file: ConfigurationFile) returns (ok: bool)
      modifies this, if controller == null then {file} else {controller, controller.file}
      ensures controller != null && (old(controller) != null ==> controller == old(controller))
      ensures !ok ==> buildScenes == old(buildScenes)
      ensures ok ==> && DistinctPaths(buildScenes)
                     && (forall i :: 0 <= i < |buildScenes| ==> buildScenes[i].enabled)
                     && Paths(buildScenes) == NameSet(controller.defaultScenes)
    {
      if controller == null {
        controller := new BuildSettingsController(rootDir, file);
      }
      ok := controller.Load();
      if ok {
        buildScenes := ScenesFrom(controller.defaultScenes);
      }
    }

    /**
     * The menu command "All Scenes": as "Default Scenes", with the scenes
     * found under the search paths (`foundScenes`, the asset search's
     * answer) added to the set.
     */
    method AllScenes(rootDir: string, file: ConfigurationFile, foundScenes: seq<string>) returns (ok: bool)
      modifies this, if controller == null then {file} else {controller, controller.file}
      ensures controller != null && (old(controller) != null ==> controller == old(controller))
      ensures !ok ==> buildScenes == old(buildScenes)
      ensures ok ==> && DistinctPaths(buildScenes)
                     && (forall i :: 0 <= i < |buildScenes| ==> buildScenes[i].enabled)
                     && Paths(buildScenes) == NameSet(controller.defaultScenes) + NameSet(foundScenes)
    {
      if controller == null {
        controller := new BuildSettingsController(rootDir, file);
      }
      ok := controller.Load();
      if ok {
        NameSetAppend(controller.defaultScenes, foundScenes);
        buildScenes := ScenesFrom(controller.defaultScenes + foundScenes);
      }
    }
  }

  /** Which list the open-panel request is for. */
  datatype OpenPanelType = None | DefaultScene | SearchScenePath

  /** A pending request to pick a file or folder for entry `index` of a list. */
  datatype OpenPanelOption = OpenPanelOption(index: int, panelType: OpenPanelType) {
    predicate Valid(): (valid: bool)
      ensures valid <==> panelType in {DefaultScene, SearchScenePath} && index >= 0
    {
      panelType != None && index >= 0
    }
  }

  /** `s_Defalut`: no request pending. */
  const DefaultOption := OpenPanelOption(-1, None)

  /** Only a request naming a list and a non-negative index is acted on; the default one never is. */
  lemma DefaultOptionIsInvalid(o: OpenPanelOption)
    ensures !DefaultOption.Valid()
    ensures o.Valid() ==> o.panelType in {DefaultScene, SearchScenePath} && o.index >= 0
  {
  }

  /** `path.Substring(path.IndexOf("Asset"))`, or `None` when the substring call throws. */
  function FromAsset(path: string): (r: Wrappers.Option<string>)
    ensures r.None? <==> forall k :: 0 <= k ==> !OccursAt(path, "Asset", k)
    ensures r.Some? ==> && |r.value| <= |path| && r.value == path[|path| - |r.value|..]
                        && OccursAt(r.value, "Asset", 0)
                        && forall k :: 0 <= k < |path| - |r.value| ==> !OccursAt(path, "Asset", k)
  {
    var k := IndexOf(path, "Asset");
    assert k >= 0 ==> path[k..][0..5] == path[k..k + 5];
    if k < 0 then Wrappers.None else Wrappers.Some(path[k..])
  }

  /** What `ProcessOpenPanelOption` did. */
  datatype PanelOutcome = Idle | Done | Thrown

  /** The part of the editor window that picks a path for an empty list entry. */
  class BuilderSetting {
    const controller: BuildSettingsController
    var openPanelOption: OpenPanelOption

    constructor (controller: BuildSettingsController)
      ensures this.controller == controller && openPanelOption == DefaultOption
    {
      this.controller := controller;
      openPanelOption := DefaultOption;
    }

    /**
     * The empty-entry branch of `DrawDefaultScenesElement` and
     * `DrawSearchScenePathsElement`: clicking the placeholder of an empty
     * entry records which entry of which list is to be filled.
     */
    method DrawElement(panelType: OpenPanelType, index: int, clicked: bool)
      requires panelType != None
      requires 0 <= index < |if panelType == DefaultScene then controller.defaultScenes else controller.searchScenePaths|
      modifies this
      ensures var entry := (if panelType == DefaultScene then controller.defaultScenes else controller.searchScenePaths)[index];
        openPanelOption == (if entry == "" && clicked then OpenPanelOption(index, panelType) else old(openPanelOption))
      ensures clicked && old(openPanelOption) == DefaultOption ==> (openPanelOption.Valid() <==> openPanelOption != DefaultOption)
    {
      var entry := if panelType == DefaultScene then controller.defaultScenes[index] else controller.searchScenePaths[index];
      if entry != "" {
        return;
      }
      if clicked {
        openPanelOption := OpenPanelOption(index, panelType);
      }
    }

    /**
     * `ProcessOpenPanelOption`, with `chosenPath` the dialog's answer (empty
     * when cancelled). A pending request overwrites its entry with the part
     * of the path from "Asset" on, when a path was chosen and the entry still
     * exists, and is then cleared. A path without "Asset" makes the substring
     * call throw before anything changes.
     */
    method ProcessOpenPanelOption(chosenPath: string) returns (outcome: PanelOutcome)
      modifies this, controller
      ensures !old(openPanelOption).Valid() ==> outcome == Idle && unchanged(this, controller)
      ensures old(openPanelOption).Valid() ==>
        var option := old(openPanelOption);
        var list := if option.panelType == DefaultScene then old(controller.defaultScenes) else old(controller.searchScenePaths);
        if chosenPath == "" || option.index >= |list| then
          && outcome == Done && openPanelOption == DefaultOption
          && controller.defaultScenes == old(controller.defaultScenes)
          && controller.searchScenePaths == old(controller.searchScenePaths)
        else if FromAsset(chosenPath).None? then
          outcome == Thrown && unchanged(this, controller)
        else
          var value := FromAsset(chosenPath).value;
          && outcome == Done && openPanelOption == DefaultOption
          && (option.panelType == DefaultScene ==>
                controller.defaultScenes == old(controller.defaultScenes)[option.index := value]
                && controller.searchScenePaths == old(controller.searchScenePaths))
          && (option.panelType == SearchScenePath ==>
                controller.searchScenePaths == old(controller.searchScenePaths)[option.index := value]
                && controller.defaultScenes == old(controller.defaultScenes))
      ensures controller.defaultScenes != old(controller.defaultScenes) ==> outcome == Done
      ensures |controller.defaultScenes| == |old(controller.defaultScenes)|
      ensures |controller.searchScenePaths| == |old(controller.searchScenePaths)|
    {
      if !openPanelOption.Valid() {
        return Idle;
      }
      var index := openPanelOption.index;
      match openPanelOption.panelType {
        case DefaultScene =>
          if chosenPath != "" && index < |controller.defaultScenes| {
            var start := IndexOf(chosenPath, "Asset");
            if start < 0 {
              return Thrown;
            }
            controller.defaultScenes := controller.defaultScenes[index := chosenPath[start..]];
          }
        case SearchScenePath =>
          if chosenPath != "" && index < |controller.searchScenePaths| {
            var start := IndexOf(chosenPath, "Asset");
            if start < 0 {
              return Thrown;
            }
            controller.searchScenePaths := controller.searchScenePaths[index := chosenPath[start..]];
          }
      }
      openPanelOption := DefaultOption;
      outcome := Done;
    }
  }
}
