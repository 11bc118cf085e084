/**
 * The build-settings file: two string lists saved to and loaded from a fixed
 * XML element tree
 *
 *   UnityGameFramework / BuildSettings / DefaultScenes / DefaultScene[Name]
 *                                      / SearchScenePaths / SearchScenePath[Path]
 *
 * The XML document is an abstract element tree; the file is an object whose
 * content `Load` reads and `Save` replaces.
 */
module BuildSettingsControllers {
  import opened Wrappers
  import opened Text

  /** An XML element: its name, its attributes and its child elements in document order. */
  datatype XmlNode = Element(name: string, attributes: map<string, string>, children: seq<XmlNode>)

  /** What is at the configuration path: nothing, a file that does not parse, or a document's top-level nodes. */
  datatype ConfigFile = Absent | Unparsable | Present(document: seq<XmlNode>)

  /** The configuration file, shared by every controller built on the same root directory. */
  class ConfigurationFile {
    var content: ConfigFile

    constructor (content: ConfigFile)
      ensures this.content == content
    {
      this.content := content;
    }
  }

  const ConfigurationFileName := "BuildSettings.xml"

  /** `SelectSingleNode(name)`: the first of `nodes` with that name. */
  function SelectSingleNode(nodes: seq<XmlNode>, name: string): (r: Option<XmlNode>)
    ensures r.None? <==> forall i :: 0 <= i < |nodes| ==> nodes[i].name != name
    ensures r.Some? ==> r.value.name == name && exists i :: 0 <= i < |nodes| && nodes[i] == r.value
  {
    if nodes == [] then None
    else if nodes[0].name == name then Some(nodes[0])
    else SelectSingleNode(nodes[1..], name)
  }

  /** The node found is the first with the name: every node before it has another name. */
  lemma {:induction false} SelectSingleNodeIsFirst(nodes: seq<XmlNode>, name: string)
    ensures SelectSingleNode(nodes, name).Some? ==>
      exists i :: 0 <= i < |nodes| && nodes[i] == SelectSingleNode(nodes, name).value
        && forall j :: 0 <= j < i ==> nodes[j].name != name
  {
    if nodes != [] && nodes[0].name != name && SelectSingleNode(nodes, name).Some? {
      SelectSingleNodeIsFirst(nodes[1..], name);
      var i :| 0 <= i < |nodes[1..]| && nodes[1..][i] == SelectSingleNode(nodes[1..], name).value
        && forall j :: 0 <= j < i ==> nodes[1..][j].name != name;
      assert forall j :: 0 <= j < i + 1 ==> nodes[j].name != name by {
        forall j | 0 <= j < i + 1 ensures nodes[j].name != name {
          if j > 0 { assert nodes[j] == nodes[1..][j - 1]; }
        }
      }
      assert nodes[i + 1] == SelectSingleNode(nodes, name).value;
    }
  }

  /** The values gathered by one loop of `Load`, and whether it ran to the end. */
  datatype Scan = Scan(values: seq<string>, complete: bool)

  /**
   * One loop of `Load` over `children`: elements with another name are
   * skipped; an element named `elementName` contributes its `attributeName`
   * attribute, and one lacking it stops the scan with what was gathered so far.
   */
  function Collect(children: seq<XmlNode>, elementName: string, attributeName: string): (s: Scan)
    ensures |s.values| <= |children|
  {
    if children == [] then Scan([], true)
    else
      var before := Collect(children[..|children| - 1], elementName, attributeName);
      var last := children[|children| - 1];
      if !before.complete || last.name != elementName then before
      else if attributeName !in last.attributes then Scan(before.values, false)
      else Scan(before.values + [last.attributes[attributeName]], true)
  }

  /** What `Load` appends to each list, and whether it succeeds. */
  datatype LoadResult = LoadResult(defaultScenes: seq<string>, searchScenePaths: seq<string>, ok: bool)

  /**
   * The effect of `Load` on a parsed document. A missing root, BuildSettings
   * or DefaultScenes node fails before anything is gathered; a missing
   * SearchScenePaths node or attribute fails after the default scenes were.
   */
  function LoadFrom(document: seq<XmlNode>): (r: LoadResult)
  {
    var root := SelectSingleNode(document, "UnityGameFramework");
    if root.None? then LoadResult([], [], false)
    else
      var buildSettings := SelectSingleNode(root.value.children, "BuildSettings");
      if buildSettings.None? then LoadResult([], [], false)
      else
        SectionsFrom(buildSettings.value)
  }

  /** The part of `LoadFrom` below the BuildSettings node: its two lists. */
  function SectionsFrom(buildSettings: XmlNode): (r: LoadResult)
  {
    var defaultScenes := SelectSingleNode(buildSettings.children, "DefaultScenes");
    var searchScenePaths := SelectSingleNode(buildSettings.children, "SearchScenePaths");
    if defaultScenes.None? then LoadResult([], [], false)
    else
      var d := Collect(defaultScenes.value.children, "DefaultScene", "Name");
      if !d.complete || searchScenePaths.None? then LoadResult(d.values, [], false)
      else
        var p := Collect(searchScenePaths.value.children, "SearchScenePath", "Path");
        LoadResult(d.values, p.values, p.complete)
  }

  /** The elements `Save` writes for `values`, one per value, in order. */
  function Elements(values: seq<string>, elementName: string, attributeName: string): (nodes: seq<XmlNode>)
    ensures |nodes| == |values|
  {
    if values == [] then []
    else
      var last := Element(elementName, map[attributeName := values[|values| - 1]], []);
      Elements(values[..|values| - 1], elementName, attributeName) + [last]
  }

  /** The document `Save` writes (the XML declaration is not modelled). */
  function Document(defaultScenes: seq<string>, searchScenePaths: seq<string>): seq<XmlNode> {
    [Element("UnityGameFramework", map[], [
      Element("BuildSettings", map[], [
        Element("DefaultScenes", map[], Elements(defaultScenes, "DefaultScene", "Name")),
        Element("SearchScenePaths", map[], Elements(searchScenePaths, "SearchScenePath", "Path"))])])]
  }

  /** Scanning the saved elements gives back every value, in order. */
  lemma {:induction false} CollectElements(values: seq<string>, elementName: string, attributeName: string)
    ensures Collect(Elements(values, elementName, attributeName), elementName, attributeName) == Scan(values, true)
  {
    if values != [] {
      var nodes := Elements(values, elementName, attributeName);
      assert nodes[..|nodes| - 1] == Elements(values[..|values| - 1], elementName, attributeName);
      CollectElements(values[..|values| - 1], elementName, attributeName);
      assert values[..|values| - 1] + [values[|values| - 1]] == values;
    }
  }

  /** Loading what was saved succeeds and yields exactly the saved lists. */
  lemma SaveThenLoad(defaultScenes: seq<string>, searchScenePaths: seq<string>)
    ensures LoadFrom(Document(defaultScenes, searchScenePaths)) == LoadResult(defaultScenes, searchScenePaths, true)
  {
    var ds := Element("DefaultScenes", map[], Elements(defaultScenes, "DefaultScene", "Name"));
    var sp := Element("SearchScenePaths", map[], Elements(searchScenePaths, "SearchScenePath", "Path"));
    var bs := Element("BuildSettings", map[], [ds, sp]);
    assert SelectSingleNode(Document(defaultScenes, searchScenePaths), "UnityGameFramework") == Some(Element("UnityGameFramework", map[], [bs]));
    assert SelectSingleNode([bs], "BuildSettings") == Some(bs);
    assert SelectSingleNode([ds, sp], "DefaultScenes") == Some(ds);
    assert SelectSingleNode([ds, sp], "SearchScenePaths") == Some(sp) by {
      assert [ds, sp][1..] == [sp];
    }
    CollectElements(defaultScenes, "DefaultScene", "Name");
    CollectElements(searchScenePaths, "SearchScenePath", "Path");
  }

  /** Elements with other names are ignored: adding one anywhere changes nothing gathered. */
  lemma {:induction false} CollectSkipsOthers(children: seq<XmlNode>, other: XmlNode, k: nat, elementName: string, attributeName: string)
    requires other.name != elementName && k <= |children|
    ensures Collect(children[..k] + [other] + children[k..], elementName, attributeName)
         == Collect(children, elementName, attributeName)
    decreases |children|
  {
    var withOther := children[..k] + [other] + children[k..];
    if k == |children| {
      assert withOther[..|withOther| - 1] == children;
    } else {
      var shorter := children[..|children| - 1];
      assert withOther[..|withOther| - 1] == shorter[..k] + [other] + shorter[k..];
      assert withOther[|withOther| - 1] == children[|children| - 1];
      CollectSkipsOthers(shorter, other, k, elementName, attributeName);
    }
  }

  /** An element lacking the attribute stops the scan: what follows it is never gathered. */
  lemma {:induction false} CollectStopsAtMissingAttribute(children: seq<XmlNode>, bad: XmlNode, rest: seq<XmlNode>, elementName: string, attributeName: string)
    requires bad.name == elementName && attributeName !in bad.attributes
    requires Collect(children, elementName, attributeName).complete
    ensures Collect(children + [bad] + rest, elementName, attributeName)
         == Scan(Collect(children, elementName, attributeName).values, false)
    decreases |rest|
  {
    if rest == [] {
      assert (children + [bad] + rest)[..|children| + 1 - 1] == children;
    } else {
      var all := children + [bad] + rest;
      assert all[..|all| - 1] == children + [bad] + rest[..|rest| - 1];
      CollectStopsAtMissingAttribute(children, bad, rest[..|rest| - 1], elementName, attributeName);
    }
  }

  class BuildSettingsController {
    const configurationPath: string
    const file: ConfigurationFile
    var defaultScenes: seq<string>
    var searchScenePaths: seq<string>

    /** Both lists start empty; the file is `BuildSettings.xml` in the settings root directory. */
    constructor (rootDir: string, file: ConfigurationFile)
      ensures defaultScenes == [] && searchScenePaths == [] && this.file == file
      ensures configurationPath == CombinePath(rootDir, ConfigurationFileName)
      ensures configurationPath[|configurationPath| - |ConfigurationFileName|..] == ConfigurationFileName
    {
      defaultScenes := [];
      searchScenePaths := [];
      configurationPath := CombinePath(rootDir, ConfigurationFileName);
      this.file := file;
    }

    /**
     * `Load`: appends the gathered values to the lists. A missing file fails
     * with nothing changed; any other failure deletes the file and keeps
     * what was appended before it.
     */
    method Load() returns (ok: bool)
      modifies this, file
      ensures old(file.content).Absent? ==> !ok && unchanged(this) && unchanged(file)
      ensures old(file.content).Unparsable? ==>
        && !ok && defaultScenes == old(defaultScenes) && searchScenePaths == old(searchScenePaths)
        && file.content == Absent
      ensures old(file.content).Present? ==>
        var r := LoadFrom(old(file.content).document);
        && ok == r.ok
        && defaultScenes == old(defaultScenes) + r.defaultScenes
        && searchScenePaths == old(searchScenePaths) + r.searchScenePaths
        && file.content == (if ok then old(file.content) else Absent)
    {
      if file.content.Absent? {
        return false;
      }
      if file.content.Unparsable? {
        file.content := Absent;
        return false;
      }
      var document := file.content.document;
      var root := SelectSingleNode(document, "UnityGameFramework");
      if root.None? {
        file.content := Absent;
        return false;
      }
      var buildSettings := SelectSingleNode(root.value.children, "BuildSettings");
      if buildSettings.None? {
        file.content := Absent;
        return false;
      }
      ok := LoadSections(buildSettings.value);
      if !ok {
        file.content := Absent;
      }
    }

    /**
     * The two loops of `Load` under the BuildSettings node: the default
     * scenes are appended first, then the search paths; a missing node or
     * attribute stops with what was appended so far.
     */
    method LoadSections(buildSettings: XmlNode) returns (ok: bool)
      modifies this
      ensures var r := SectionsFrom(buildSettings);
        && ok == r.ok
        && defaultScenes == old(defaultScenes) + r.defaultScenes
        && searchScenePaths == old(searchScenePaths) + r.searchScenePaths
    {
      var xmlDefaultScenes := SelectSingleNode(buildSettings.children, "DefaultScenes");
      var xmlSearchScenePaths := SelectSingleNode(buildSettings.children, "SearchScenePaths");
      if xmlDefaultScenes.None? {
        return false;
      }
      var complete := ScanInto(xmlDefaultScenes.value.children, "DefaultScene", "Name", true);
      if !complete || xmlSearchScenePaths.None? {
        return false;
      }
      ok := ScanInto(xmlSearchScenePaths.value.children, "SearchScenePath", "Path", false);
    }

    /**
     * One loop of `Load`: appends the attribute of each matching child to the
     * default scenes (or to the search paths) until a matching child lacks it.
     */
    method ScanInto(children: seq<XmlNode>, elementName: string, attributeName: string, intoDefaults: bool)
      returns (complete: bool)
      modifies this
      ensures complete == Collect(children, elementName, attributeName).complete
      ensures var gathered := Collect(children, elementName, attributeName).values;
        && defaultScenes == old(defaultScenes) + (if intoDefaults then gathered else [])
        && searchScenePaths == old(searchScenePaths) + (if intoDefaults then [] else gathered)
    {
      var i := 0;
      while i < |children|
        invariant 0 <= i <= |children|
        invariant Collect(children[..i], elementName, attributeName).complete
        invariant var gathered := Collect(children[..i], elementName, attributeName).values;
          && defaultScenes == old(defaultScenes) + (if intoDefaults then gathered else [])
          && searchScenePaths == old(searchScenePaths) + (if intoDefaults then [] else gathered)
      {
        var node := children[i];
        assert children[..i + 1][..i] == children[..i];
        if node.name != elementName {
          i := i + 1;
          continue;
        }
        if attributeName !in node.attributes {
          CollectStopsAtMissingAttribute(children[..i], node, children[i + 1..], elementName, attributeName);
          assert children[..i] + [node] + children[i + 1..] == children;
          return false;
        }
        if intoDefaults {
          defaultScenes := defaultScenes + [node.attributes[attributeName]];
        } else {
          searchScenePaths := searchScenePaths + [node.attributes[attributeName]];
        }
        i := i + 1;
      }
      assert children[..i] == children;
      complete := true;
    }

    /**
     * `Save`: writes the document for the two lists. `ioFails` stands for a
     * failure of the directory creation or of the write, after which an
     * existing file is deleted.
     */
    method Save(ioFails: bool) returns (ok: bool)
      modifies file
      ensures ok == !ioFails
      ensures ok ==> file.content == Present(Document(defaultScenes, searchScenePaths))
      ensures !ok ==> file.content == Absent
    {
      var xmlDefaultScenes := BuildElements(defaultScenes, "DefaultScene", "Name");
      var xmlSearchScenePaths := BuildElements(searchScenePaths, "SearchScenePath", "Path");
      var document := [Element("UnityGameFramework", map[], [
        Element("BuildSettings", map[], [
          Element("DefaultScenes", map[], xmlDefaultScenes),
          Element("SearchScenePaths", map[], xmlSearchScenePaths)])])];
      if ioFails {
        if !file.content.Absent? {
          file.content := Absent;
        }
        return false;
      }
      file.content := Present(document);
      ok := true;
    }
  }

  /** One `foreach` of `Save`: an element per value, each carrying the value as its one attribute. */
  method BuildElements(values: seq<string>, elementName: string, attributeName: string) returns (nodes: seq<XmlNode>)
    ensures nodes == Elements(values, elementName, attributeName)
    ensures forall i :: 0 <= i < |values| ==>
      nodes[i].name == elementName && nodes[i].attributes == map[attributeName := values[i]]
  {
    nodes := [];
    var i := 0;
    while i < |values|
      invariant 0 <= i <= |values|
      invariant nodes == Elements(values[..i], elementName, attributeName)
      invariant forall j :: 0 <= j < i ==>
        nodes[j].name == elementName && nodes[j].attributes == map[attributeName := values[j]]
    {
      assert values[..i + 1][..i] == values[..i];
      nodes := nodes + [Element(elementName, map[attributeName := values[i]], [])];
      i := i + 1;
    }
    assert values[..i] == values;
  }

  /** Saving, then loading into a new controller on the same file, gives back both lists. */
  method SaveThenLoadIntoNew(c: BuildSettingsController, rootDir: string) returns (loaded: BuildSettingsController)
    modifies c.file
    ensures loaded.defaultScenes == c.defaultScenes && loaded.searchScenePaths == c.searchScenePaths
  {
    var saved := c.Save(false);
    loaded := new BuildSettingsController(rootDir, c.file);
    SaveThenLoad(c.defaultScenes, c.searchScenePaths);
    var ok := loaded.Load();
  }
}
