/**
 * The "convert script encoding" menu command: it acts only on a selected C#
 * source file, recognised by its extension.
 */
module ScriptEncodingFormatTools {
  import opened Wrappers
  import opened Text

  /** Index of the last '.' after the last separator of `path`, or -1. */
  function ExtensionStart(path: string): (i: int)
    ensures -1 <= i < |path|
    ensures i >= 0 ==> path[i] == '.'
    ensures i >= 0 ==> forall k :: i < k < |path| ==> path[k] != '.' && !IsSeparator(path[k])
    ensures i < 0 ==> forall k :: LastSeparator(path) < k < |path| ==> path[k] != '.'
  {
    if path == [] then -1
    else if path[|path| - 1] == '.' then |path| - 1
    else if IsSeparator(path[|path| - 1]) then -1
    else ExtensionStart(path[..|path| - 1])
  }

  /** `Path.GetExtension`: from the last '.' of the file name on, or "" when there is none or it ends the name. */
  function GetExtension(path: string): (ext: string)
    ensures ext == "" || (ext[0] == '.' && 2 <= |ext| <= |path| && ext == path[|path| - |ext|..])
    ensures ext != "" ==> forall k :: 1 <= k < |ext| ==> ext[k] != '.' && !IsSeparator(ext[k])
    ensures ext == "" ==> (|path| > 0 && path[|path| - 1] == '.') || forall k :: LastSeparator(path) < k < |path| ==> path[k] != '.'
  {
    var i := ExtensionStart(path);
    if i < 0 || i == |path| - 1 then "" else path[i..]
  }

  /** `Path.GetFileName`: what follows the last separator. */
  function GetFileName(path: string): (name: string)
    ensures |name| <= |path| && name == path[|path| - |name|..]
    ensures forall k :: 0 <= k < |name| ==> !IsSeparator(name[k])
    ensures |name| == |path| || IsSeparator(path[|path| - |name| - 1])
  {
    path[LastSeparator(path) + 1..]
  }

  /** A path directly under the root keeps the root; a deeper one drops its last separator. */
  lemma GetDirectoryNameExamples()
    ensures GetDirectoryName("/Assets") == "/"
    ensures GetDirectoryName("/home/game/Assets") == "/home/game"
    ensures GetDirectoryName("game//Assets") == "game"
    ensures GetDirectoryName("Assets") == "" && GetDirectoryName("/") == ""
  {
    LastSeparatorAt("/Assets", 0);
    LastSeparatorAt("/home/game/Assets", 10);
    assert "/home/game/Assets"[..10] == "/home/game";
    LastSeparatorAt("game//Assets", 5);
    assert "game//Assets"[..5] == "game/";
    assert "game/"[..4] == "game";
    assert LastSeparator("Assets") == -1;
  }

  /** `IsCSharpFile`: the extension, lower-cased, is ".cs". */
  predicate IsCSharpFile(fileName: string): (isCSharp: bool)
    ensures isCSharp ==> |fileName| >= 3 && fileName[|fileName| - 3] == '.'
  {
    ToLower(GetExtension(fileName)) == ".cs"
  }

  /** A name ending in '.' and two characters that are neither '.' nor separators has those three as its extension. */
  lemma ThreeCharacterExtension(fileName: string)
    requires |fileName| >= 3 && fileName[|fileName| - 3] == '.'
    requires fileName[|fileName| - 2] != '.' && !IsSeparator(fileName[|fileName| - 2])
    requires fileName[|fileName| - 1] != '.' && !IsSeparator(fileName[|fileName| - 1])
    ensures GetExtension(fileName) == fileName[|fileName| - 3..]
  {
    assert ExtensionStart(fileName) == |fileName| - 3;
  }

  /** A file is C# exactly when its name ends in '.', 'c' or 'C', then 's' or 'S'. */
  lemma IsCSharpFileCharacterised(fileName: string)
    ensures IsCSharpFile(fileName) <==>
      && |fileName| >= 3 && fileName[|fileName| - 3] == '.'
      && LowerChar(fileName[|fileName| - 2]) == 'c' && LowerChar(fileName[|fileName| - 1]) == 's'
  {
    var n := |fileName|;
    if n >= 3 && fileName[n - 3] == '.' && LowerChar(fileName[n - 2]) == 'c' && LowerChar(fileName[n - 1]) == 's' {
      ThreeCharacterExtension(fileName);
      var lowered := ToLower(fileName[n - 3..]);
      assert lowered[0] == '.' && lowered[1] == 'c' && lowered[2] == 's';
      assert lowered == ".cs";
    }
    if IsCSharpFile(fileName) {
      var ext := GetExtension(fileName);
      assert |ext| == 3;
      assert ext[0] == fileName[n - 3] && ext[1] == fileName[n - 2] && ext[2] == fileName[n - 1];
    }
  }

  /** Upper-case extensions are accepted; ".cs" followed by another extension, or no extension, is not. */
  lemma IsCSharpFileExamples()
    ensures IsCSharpFile("A.CS") && IsCSharpFile("Player.cs")
    ensures !IsCSharpFile("A.cs.meta") && !IsCSharpFile("cs") && !IsCSharpFile("A.")
  {
    IsCSharpFileCharacterised("A.CS");
    IsCSharpFileCharacterised("Player.cs");
    IsCSharpFileCharacterised("A.cs.meta");
    IsCSharpFileCharacterised("cs");
    IsCSharpFileCharacterised("A.");
  }

  /** What the menu command does. */
  datatype MenuAction = WarnNoSelection | LogNotCSharp | Convert(absolutePath: string)

  /**
   * `CustomMenu`, with `selection` the asset path of the selected object (or
   * none) and `dataPath` the project's data folder: only a selected C# file
   * is converted, at its absolute path under the project folder.
   */
  function CustomMenu(selection: Option<string>, dataPath: string): (action: MenuAction)
    ensures action == WarnNoSelection <==> selection.None?
    ensures action == LogNotCSharp <==> selection.Some? && !IsCSharpFile(GetFileName(selection.value))
    ensures action.Convert? <==> selection.Some? && IsCSharpFile(GetFileName(selection.value))
    ensures action.Convert? ==> action.absolutePath == CombinePath(GetDirectoryName(dataPath), selection.value)
  {
    match selection
    case None => WarnNoSelection
    case Some(relativeAssetPath) =>
      var projectPath := GetDirectoryName(dataPath);
      var absoluteAssetPath := CombinePath(projectPath, relativeAssetPath);
      var fileName := GetFileName(relativeAssetPath);
      if IsCSharpFile(fileName) then Convert(absoluteAssetPath) else LogNotCSharp
  }
}
