/**
 * The folder picker of the settings pages: a folder chosen under the
 * project's data folder is stored as an "Assets/…/" path.
 */
module ABSettingsProviders {
  import opened Text

  /** What a folder choice does to the stored value. */
  datatype FolderChoice = Keep | Store(value: string) | Thrown

  /**
   * The stored value for `path`, chosen in the dialog, under data folder
   * `dataPath`: a cancelled dialog keeps the old value; the data folder
   * itself is "Assets/"; any other folder is "Assets", the path with every
   * occurrence of the data folder removed, and "/". Removing an empty data
   * folder throws.
   */
  function ChosenFolderValue(dataPath: string, path: string): (c: FolderChoice)
    ensures c == Keep <==> path == ""
    ensures c == Thrown <==> path != "" && path != dataPath && dataPath == ""
    ensures c.Store? ==> |c.value| >= 7 && c.value[..6] == "Assets" && c.value[|c.value| - 1] == '/'
    ensures path != "" && path == dataPath ==> c == Store("Assets/")
  {
    if path == "" then Keep
    else if path == dataPath then Store("Assets/")
    else if dataPath == "" then Thrown
    else Store("Assets" + RemoveAll(path, dataPath) + "/")
  }

  /** A sub-folder of the data folder is stored relative to "Assets". */
  lemma SubFolderValue(dataPath: string, relative: string)
    requires dataPath != "" && relative != ""
    requires forall k :: 0 <= k ==> !OccursAt(relative, dataPath, k)
    ensures ChosenFolderValue(dataPath, dataPath + relative) == Store("Assets" + relative + "/")
  {
    RemoveAllLeading(dataPath, relative);
    RemoveAllAbsent(relative, dataPath);
  }

  /** The folder the dialog opens at: the stored folder when it exists, else the data folder. */
  function DialogFolder(dataPath: string, storedValue: string, existingFolders: set<string>): (folder: string)
    ensures CombinePath(dataPath, storedValue) in existingFolders ==> folder == CombinePath(dataPath, storedValue)
    ensures CombinePath(dataPath, storedValue) !in existingFolders ==> folder == dataPath
    ensures storedValue == "" ==> folder == dataPath
  {
    var folder := CombinePath(dataPath, storedValue);
    if folder !in existingFolders then dataPath else folder
  }

  /** The string value of the serialised setting being edited. */
  class SerializedProperty {
    var stringValue: string

    constructor (stringValue: string)
      ensures this.stringValue == stringValue
    {
      this.stringValue := stringValue;
    }
  }

  /**
   * The button branch of `SelectionFolderPath`: `chosenPath` is the dialog's
   * answer; the result is the folder the dialog opened at, and whether
   * storing the answer threw.
   */
  method SelectionFolderPath(property: SerializedProperty, dataPath: string, existingFolders: set<string>, chosenPath: string)
    returns (openedAt: string, thrown: bool)
    modifies property
    ensures openedAt == DialogFolder(dataPath, old(property.stringValue), existingFolders)
    ensures old(property.stringValue) == "" ==> openedAt == dataPath
    ensures thrown <==> ChosenFolderValue(dataPath, chosenPath) == Thrown
    ensures ChosenFolderValue(dataPath, chosenPath).Store? ==> property.stringValue == ChosenFolderValue(dataPath, chosenPath).value
    ensures !ChosenFolderValue(dataPath, chosenPath).Store? ==> property.stringValue == old(property.stringValue)
  {
    openedAt := CombinePath(dataPath, property.stringValue);
    if openedAt !in existingFolders {
      openedAt := dataPath;
    }
    thrown := false;
    if chosenPath != "" {
      if chosenPath == dataPath {
        property.stringValue := "Assets/";
      } else if dataPath == "" {
        thrown := true;
      } else {
        property.stringValue := "Assets" + RemoveAll(chosenPath, dataPath) + "/";
      }
    }
  }
}
