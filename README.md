# UnityGameFramework runtime and editor core, modelled in Dafny

This project models the parts of UnityGameFramework (a Unity game framework) that have logic of their own.

- **The await extension of the web-request and download components.** An awaitable request creates a completion source and wraps it, together with the user data, in a pooled `AwaitDataWrap`. It then registers the manager's serial id. The success and failure handlers:
  - look the id up;
  - build a pooled `WebResult` or `DownLoadResult`;
  - resolve the completion source and return the wrapper to its pool;
  - retire the id.

  Results are kept in a delayed-release list. They are returned to their pool together, once no request is awaited any more.
- **The double-buffered file log writer.** Producers enqueue records in a waiting queue. The worker swaps the queues when its writing queue is empty and drains it front first. Each record becomes one line, or a four-line block for errors and exceptions.
- **The game entry's component registry.** It never holds two components of the same runtime type.
- **The base component's game-speed state machine**, and the screen-DPI fallback.
- **The build-settings file.** Two string lists are saved to and loaded from a fixed XML element tree. The same unit covers the editor commands that turn the lists into build scenes, and the editor window's "pick a file for an empty entry" interaction.
- **Four small editor helpers:**
  - the path attribute and load-or-create cache of the settings singleton;
  - the focus watcher that reloads settings when the editor regains focus;
  - the folder picker that stores "Assets/…/" paths;
  - the C#-file test of the script-encoding menu command.

Each C# class whose fields change becomes a Dafny class with those fields. Its methods are proved against pure functions or against invariants (`Valid`).

Two library objects get small stand-ins (`Library.dfy`):
- the framework's reference pool is a FIFO free list, so acquiring takes the oldest released object, or allocates a new one when the list is empty;
- a `TaskCompletionSource` is a cell that can be set once.

External inputs are method parameters:
- serial ids returned by the managers;
- dialog answers;
- timestamps;
- file contents;
- the application's focus.

In the handlers, an event's user data becomes a parameter that is null when it is not an `AwaitDataWrap`.

The proofs bring out two consequences of the code as written.

**A delivered result can be reused while its caller still holds it.** `SiblingCompletionReleasesDeliveredResult` shows this. Request A's caller receives a result, and request B completes last. The release of the batch then clears that same object and puts it back in the pool, where the next acquire reuses it.

**A wrapper that was already cleared makes the handler throw.** Such a wrapper has no completion source, so the `TrySetResult` call throws. What happens to the result depends on the handler:
- the web success handler has already put the result in the delayed list;
- the web failure handler calls `TrySetResult` before that, so its result is neither delayed nor pooled, and is leaked.

In both cases the id stays registered. The `Thrown` outcome models this.

Three more behaviours of the code are kept as they are:
- the log writer has no level or thread filter: the base component passes a thread id and a level to a constructor that takes no arguments;
- `Log` still enqueues after `Close`;
- the worker loop handles no write failure.

## Model

| member | source | states |
|---|---|---|
| AwaitDataWraps.AwaitDataWrap.Create | Scripts/Runtime/WebRequest/AwaitDataWrap.cs:32-38 | The wrapper is the pool's oldest free one, or a fresh one when the pool is empty. It holds exactly the given user data and completion source. |
| AwaitDataWraps.AwaitDataWrap.Clear | Scripts/Runtime/WebRequest/AwaitDataWrap.cs:43-47 | Both references are null afterwards, whatever they were before. |
| AwaitDataWraps.AwaitDataWrap.Release | Scripts/Runtime/WebRequest/WebRequestComponent.cs:673 | Returning a wrapper clears it and appends it to the pool's free list. |
| WebResults.WebResult.Create | Scripts/Runtime/WebRequest/WebResult.cs:55-63 | The result comes from the pool (its oldest free object, or a new one). It holds exactly the four arguments. |
| WebResults.WebResult.Init | Scripts/Runtime/WebRequest/WebResult.cs:73-80 | It returns the same object, which now holds exactly the four arguments. |
| WebResults.WebResult.Clear | Scripts/Runtime/WebRequest/WebResult.cs:85-91 | Afterwards bytes are null, IsError is false, the message is empty and the user data is null, from any state; so a second Clear changes nothing. |
| WebResults.WebResult.Release | Scripts/Runtime/WebRequest/WebRequestComponent.cs:679-682 | A released result is cleared and appended to the pool's free list. |
| WebResults.ClearThenInitMatchesCreate | Scripts/Runtime/WebRequest/WebResult.cs:55-91 | Clear then Init on an object gives the same four properties as Create with the same arguments. |
| DownLoadResults.DownLoadResult.Create | Scripts/Runtime/Download/DownLoadResult.cs:46-53 | The result comes from the pool and holds exactly the three arguments. |
| DownLoadResults.DownLoadResult.Clear | Scripts/Runtime/Download/DownLoadResult.cs:58-63 | Afterwards there is no error, an empty message and null user data, from any state. |
| DownLoadResults.DownLoadResult.Release | Scripts/Runtime/Download/DownloadComponent.cs:517-520 | A released result is cleared and appended to the pool's free list. |
| WebRequestComponents.AddWebRequestTask | Scripts/Runtime/WebRequest/WebRequestComponent.cs:588-591 | The manager receives the uri, post data, tag and priority unchanged, with the form and user data bundled in a form info. |
| WebRequestComponents.AddWebRequest | Scripts/Runtime/WebRequest/WebRequestComponent.cs:241-526 | Each of the 24 public overloads passes what it is given. An omitted body, tag or user data becomes null, and an omitted priority becomes DEFAULT_PRIORITY = 0. |
| WebRequestComponents.WebRequestComponent.constructor | Scripts/Runtime/WebRequest/WebRequestComponent.cs:32-37 | The id set and the delayed list start empty, which establishes the invariant. |
| WebRequestComponents.WebRequestComponent.AddWebRequestAsync | Scripts/Runtime/WebRequest/WebRequestComponent.cs:638-655 | A fresh, unresolved completion source is created. A pooled wrapper holds it with the user data, and the wrapper is the user data of a request with default tag and priority. The manager's id joins the set. |
| WebRequestComponents.WebRequestComponent.ReleaseDelayed | Scripts/Runtime/WebRequest/WebRequestComponent.cs:677-685 | Every delayed result is cleared and appended to the pool in list order; the list is then empty. The pool stays free of duplicates. |
| WebRequestComponents.WebRequestComponent.Retire | Scripts/Runtime/WebRequest/WebRequestComponent.cs:676-685 | The id leaves the set. If the set is now empty, the whole batch is released. Otherwise no delayed result is touched. |
| WebRequestComponents.WebRequestComponent.Delay | Scripts/Runtime/WebRequest/WebRequestComponent.cs:671 | A result is appended to the delayed list; the invariant is kept. |
| WebRequestComponents.WebRequestComponent.OnWebRequestSuccess | Scripts/Runtime/WebRequest/WebRequestComponent.cs:662-687 | An untracked id changes nothing. A tracked id is retired, unless the wrapper was already cleared (`Thrown`), when it stays registered. For a live wrapper, its source gets a result with the response bytes, no error, an empty message and the wrapper's user data, and the wrapper returns to its pool. Results are released only when the set becomes empty. A cleared wrapper throws after the result was delayed. |
| WebRequestComponents.WebRequestComponent.OnWebRequestFailure | Scripts/Runtime/WebRequest/WebRequestComponent.cs:694-718 | Same as success, but the result has null bytes, IsError and the event's message. The source is resolved, never faulted. A cleared wrapper throws before the result is delayed, so that result is neither delayed nor pooled. |
| WebRequestComponents.SiblingCompletionReleasesDeliveredResult | Scripts/Runtime/WebRequest/WebRequestComponent.cs:662-687 | For two awaited requests, A's source holds its result and B completes last. That result is then cleared and back in the pool. |
| DownloadComponents.AddDownload | Scripts/Runtime/Download/DownloadComponent.cs:297-389 | Each of the 8 public overloads passes what it is given. An omitted tag or user data becomes null, and an omitted priority becomes 0. |
| DownloadComponents.DownloadComponent.constructor | Scripts/Runtime/Download/DownloadComponent.cs:38-43 | The id set and delayed list start empty. |
| DownloadComponents.DownloadComponent.AddDownloadAsync | Scripts/Runtime/Download/DownloadComponent.cs:487-494 | A fresh completion source is wrapped with the user data in a pooled wrapper, which is the user data of a request with default tag and priority. The id joins the set. |
| DownloadComponents.DownloadComponent.ReleaseDelayed | Scripts/Runtime/Download/DownloadComponent.cs:515-523 | Every delayed result is cleared and appended to the pool in order, and the list is emptied. |
| DownloadComponents.DownloadComponent.Retire | Scripts/Runtime/Download/DownloadComponent.cs:514-523 | The id leaves the set. The batch is released exactly when the set becomes empty. |
| DownloadComponents.DownloadComponent.Delay | Scripts/Runtime/Download/DownloadComponent.cs:509 | A result is appended to the delayed list; the invariant is kept. |
| DownloadComponents.DownloadComponent.OnDownloadCompleted | Scripts/Runtime/Download/DownloadComponent.cs:501-556 | An untracked id changes nothing. A tracked id is retired, unless the wrapper was already cleared (`Thrown`), when it stays registered. A live wrapper's source gets a result with the given error flag and message and the wrapper's user data, delayed before the source is set. Batch release happens only when the set becomes empty. |
| DownloadComponents.DownloadComponent.OnDownloadSuccess | Scripts/Runtime/Download/DownloadComponent.cs:501-525 | Untracked ids are ignored. A tracked one is retired unless the wrapper was already cleared (`Thrown`), when it stays registered. The result has no error and an empty message. |
| DownloadComponents.DownloadComponent.OnDownloadFailure | Scripts/Runtime/Download/DownloadComponent.cs:532-556 | Untracked ids are ignored. A tracked one is retired unless the wrapper was already cleared (`Thrown`), when it stays registered. The result has IsError and the event's message; the source is resolved, not faulted. |
| FileLogOutputs.LevelCode | Scripts/Runtime/Utility/LogOutputLevel.cs:9-16 | Codes lie in 0..4, and 4 belongs to MAX alone. |
| FileLogOutputs.LevelOf | Scripts/Runtime/Utility/FileLogOutput.cs:40-47 | Log, Warning and Assert map to LOG, WARNING and ASSERT; Error and Exception both map to ERROR; nothing maps to MAX. |
| FileLogOutputs.Dashes | Scripts/Runtime/Utility/FileLogOutput.cs:139 | The separator line is 117 dashes. |
| FileLogOutputs.FormatRecord | Scripts/Runtime/Utility/FileLogOutput.cs:137-147 | Errors and exceptions give separator, "time TAB message newline", stack trace, separator. Every other type gives the single line "time TAB message". |
| FileLogOutputs.FormatAll | Scripts/Runtime/Utility/FileLogOutput.cs:133-148 | A batch takes four lines per error or exception and one per other record. |
| FileLogOutputs.FormatAllAppend | Scripts/Runtime/Utility/FileLogOutput.cs:133-148 | Formatting distributes over concatenation, so each record's lines stay together and in record order. |
| FileLogOutputs.LogErrorWarning | Scripts/Runtime/Utility/FileLogOutput.cs:137-147 | A log, an error and a warning give one line, a four-line block, then one line. |
| FileLogOutputs.FileLogOutput.constructor | Scripts/Runtime/Utility/FileLogOutput.cs:87-106 | Both queues start empty, the writer is running and nothing has been written. |
| FileLogOutputs.FileLogOutput.Log | Scripts/Runtime/Utility/FileLogOutput.cs:157-164 | The record goes to the tail of the waiting queue, and the writing queue is untouched. Conservation (drained, then writing, then waiting, equals everything logged, in call order) is kept. |
| FileLogOutputs.FileLogOutput.SwapQueues | Scripts/Runtime/Utility/FileLogOutput.cs:120-129 | With an empty writing queue, the queues swap exactly when records are waiting, leaving waiting empty. Otherwise the worker blocks and nothing changes. |
| FileLogOutputs.FileLogOutput.WriteRecord | Scripts/Runtime/Utility/FileLogOutput.cs:135-147 | The record's formatted lines are appended to the file. |
| FileLogOutputs.FileLogOutput.DrainOne | Scripts/Runtime/Utility/FileLogOutput.cs:135-147 | The front record leaves the writing queue, is counted as drained with its time, and its lines are appended. Conservation and the file's formatting are kept. |
| FileLogOutputs.FileLogOutput.DrainWriting | Scripts/Runtime/Utility/FileLogOutput.cs:133-148 | The writing queue is emptied front first. Each record is drained exactly once, and the file grows by exactly their formatted lines in order. Conservation is kept. |
| FileLogOutputs.FileLogOutput.WriteLogIteration | Scripts/Runtime/Utility/FileLogOutput.cs:116-151 | A closed writer does nothing. Otherwise an empty writing queue leads to a swap or a block, and a non-empty one is drained. |
| FileLogOutputs.FileLogOutput.Close | Scripts/Runtime/Utility/FileLogOutput.cs:169-174 | Running becomes false, after which an iteration is a no-op. Queues and file are unchanged. |
| GameEntries.IndexOfType | Scripts/Runtime/Base/GameEntry.cs:43-57 | The position of the first component of exactly that type, or -1 exactly when there is none. |
| GameEntries.IndexOfName | Scripts/Runtime/Base/GameEntry.cs:64-79 | The position of the first component whose type's full or short name is the string, or -1 exactly when there is none. |
| GameEntries.AppendedIsFound | Scripts/Runtime/Base/GameEntry.cs:146-160 | A component appended to a list with none of its type is the one found for that type. |
| GameEntries.FoundIsOnly | Scripts/Runtime/Base/GameEntry.cs:146-160 | With unique types, the component found for a type is the only one of it. |
| GameEntries.GameEntry.constructor | Scripts/Runtime/Base/GameEntry.cs:21 | The registry starts empty. |
| GameEntries.GameEntry.GetComponentByType | Scripts/Runtime/Base/GameEntry.cs:43-57 | The search returns the first component of exactly that type, or null exactly when none is registered. |
| GameEntries.GameEntry.GetComponentByName | Scripts/Runtime/Base/GameEntry.cs:64-79 | The search returns the first component whose type's full name or short name matches, or null. |
| GameEntries.GameEntry.RegisterComponent | Scripts/Runtime/Base/GameEntry.cs:138-161 | Null is refused and a component whose type is present is refused, both leaving the list unchanged. Otherwise the component is appended and then found for its type. Types stay unique. |
| GameEntries.GameEntry.Shutdown | Scripts/Runtime/Base/GameEntry.cs:102-131 | Every shutdown type leaves the registry empty. |
| BaseComponents.EffectiveDpi | Scripts/Runtime/Base/BaseComponent.cs:225-229 | A positive screen DPI is kept, and any other is replaced by 96; the result is always positive. |
| BaseComponents.Clamp | Scripts/Runtime/Base/BaseComponent.cs:131 | The stored speed is the value when it is non-negative, else 0. |
| BaseComponents.SetSpeed | Scripts/Runtime/Base/BaseComponent.cs:123-133 | Only the speed changes. The game is then paused exactly when the value was at most 0. |
| BaseComponents.Paused | Scripts/Runtime/Base/BaseComponent.cs:320-329 | The game is paused afterwards. Pausing a paused game changes nothing; otherwise the speed is saved and set to 0. |
| BaseComponents.Resumed | Scripts/Runtime/Base/BaseComponent.cs:334-342 | A running game is unchanged. A paused one gets its saved speed back, and is running afterwards in every reachable state. |
| BaseComponents.NormalSpeed | Scripts/Runtime/Base/BaseComponent.cs:347-355 | The speed is 1 afterwards, and the saved speed is untouched. |
| BaseComponents.ReachableIsInvariant | Scripts/Runtime/Base/BaseComponent.cs:25-355 | The declared initial state is reachable, and every operation keeps the speed non-negative and the saved speed positive. |
| BaseComponents.PauseThenResume | Scripts/Runtime/Base/BaseComponent.cs:320-342 | Pausing a running game and resuming it restores its speed. |
| BaseComponents.PauseIsIdempotent | Scripts/Runtime/Base/BaseComponent.cs:320-329 | A second pause changes nothing, and in particular it keeps the saved speed. |
| BaseComponents.BaseComponent.constructor | Scripts/Runtime/Base/BaseComponent.cs:25-58 | The speed starts at its serialised value and the saved speed at 1. The invariant holds exactly when that value is not negative. |
| BaseComponents.BaseComponent.IsGamePaused | Scripts/Runtime/Base/BaseComponent.cs:138-144 | Paused exactly when the speed is at most 0, which is the state machine's IsPaused. In a valid state this means the speed is exactly 0. |
| BaseComponents.BaseComponent.IsNormalGameSpeed | Scripts/Runtime/Base/BaseComponent.cs:149-155 | Normal exactly when the speed is 1; a normal-speed game is never paused. |
| BaseComponents.BaseComponent.SetGameSpeed | Scripts/Runtime/Base/BaseComponent.cs:123-133 | The setter's new state is SetSpeed of the old one, and the invariant is kept. |
| BaseComponents.BaseComponent.PauseGame | Scripts/Runtime/Base/BaseComponent.cs:320-329 | The new state is Paused of the old one, and the invariant is kept. |
| BaseComponents.BaseComponent.ResumeGame | Scripts/Runtime/Base/BaseComponent.cs:334-342 | The new state is Resumed of the old one, and the invariant is kept. |
| BaseComponents.BaseComponent.ResetNormalGameSpeed | Scripts/Runtime/Base/BaseComponent.cs:347-355 | The new state is NormalSpeed of the old one, and the invariant is kept. |
| BuildSettingsControllers.SelectSingleNode | Scripts/Editor/Misc/BuildSettingsController.cs:65-68 | A node of the list with the name, or none exactly when no node has it. |
| BuildSettingsControllers.SelectSingleNodeIsFirst | Scripts/Editor/Misc/BuildSettingsController.cs:65-68 | The node found is the first with the name: every node before it has another name. |
| BuildSettingsControllers.Collect | Scripts/Editor/Misc/BuildSettingsController.cs:73-97 | A scan gathers at most one value per child. |
| BuildSettingsControllers.CollectSkipsOthers | Scripts/Editor/Misc/BuildSettingsController.cs:77-80 | Inserting an element with another name anywhere changes nothing gathered. |
| BuildSettingsControllers.CollectStopsAtMissingAttribute | Scripts/Editor/Misc/BuildSettingsController.cs:82-103 | A matching element without the attribute stops the scan as failed, keeping exactly what was gathered before it. |
| BuildSettingsControllers.Elements | Scripts/Editor/Misc/BuildSettingsController.cs:134-150 | Saving writes one element per value. |
| BuildSettingsControllers.CollectElements | Scripts/Editor/Misc/BuildSettingsController.cs:73-150 | Scanning the saved elements gives back every value, in order, and completes. |
| BuildSettingsControllers.SaveThenLoad | Scripts/Editor/Misc/BuildSettingsController.cs:54-158 | Loading the saved document succeeds and yields exactly the saved lists. |
| BuildSettingsControllers.BuildSettingsController.constructor | Scripts/Editor/Misc/BuildSettingsController.cs:41-48 | Both lists start empty, and the configuration path ends in "BuildSettings.xml". |
| BuildSettingsControllers.BuildSettingsController.Load | Scripts/Editor/Misc/BuildSettingsController.cs:54-106 | A missing file fails with nothing changed. An unparsable file, or a missing node or attribute, fails and deletes the file, keeping what was appended before. Otherwise the gathered values are appended, not substituted. |
| BuildSettingsControllers.BuildSettingsController.LoadSections | Scripts/Editor/Misc/BuildSettingsController.cs:66-97 | The default scenes are appended first, then the search paths, exactly as the document gives them. A missing node or attribute fails, keeping what was appended before it. |
| BuildSettingsControllers.BuildSettingsController.ScanInto | Scripts/Editor/Misc/BuildSettingsController.cs:73-97 | One loop appends exactly the values the scan gathers, to one list, and reports whether it ran to the end. |
| BuildSettingsControllers.BuildSettingsController.Save | Scripts/Editor/Misc/BuildSettingsController.cs:112-172 | On success the file holds the document for the two lists. On failure the file is deleted and false is returned. |
| BuildSettingsControllers.BuildElements | Scripts/Editor/Misc/BuildSettingsController.cs:134-150 | Each value becomes an element with that value as its one attribute, in list order. |
| BuildSettingsControllers.SaveThenLoadIntoNew | Scripts/Editor/Misc/BuildSettingsController.cs:54-172 | Saving, then loading into a new controller on the same file, gives back both lists. |
| BuildSettingsEditor.ScenesFrom | Scripts/Editor/Misc/BuildSettings.cs:33-45 | The build scenes are duplicate-free and all enabled, and their paths are exactly the distinct names. |
| BuildSettingsEditor.BuildSettingsMenu.constructor | Scripts/Editor/Misc/BuildSettings.cs:22 | No controller exists yet. |
| BuildSettingsEditor.BuildSettingsMenu.DefaultScenes | Scripts/Editor/Misc/BuildSettings.cs:28-53 | The controller is created once and then reused. A failed load leaves the build scenes untouched; a successful one sets them to the distinct default scenes, all enabled. |
| BuildSettingsEditor.BuildSettingsMenu.AllScenes | Scripts/Editor/Misc/BuildSettings.cs:59-91 | Same as DefaultScenes, with the found scene paths added to the set. |
| BuildSettingsEditor.DefaultOptionIsInvalid | Scripts/Editor/Misc/BuildSettings.cs:139-148 | The default option (-1, None) is invalid, and a valid one names a list and a non-negative index. |
| BuildSettingsEditor.OpenPanelOption.Valid | Scripts/Editor/Misc/BuildSettings.cs:144-147 | An option is valid exactly when it names one of the two lists and a non-negative index. |
| BuildSettingsEditor.FromAsset | Scripts/Editor/Misc/BuildSettings.cs:288 | It returns the suffix of the path starting at its first "Asset", or none (the substring call throws) exactly when "Asset" does not occur. |
| BuildSettingsEditor.BuilderSetting.constructor | Scripts/Editor/Misc/BuildSettings.cs:172 | The window starts with the default option. |
| BuildSettingsEditor.BuilderSetting.DrawElement | Scripts/Editor/Misc/BuildSettings.cs:223-269 | Clicking the placeholder of an empty entry records that entry and list; anything else leaves the option as it was. |
| BuildSettingsEditor.BuilderSetting.ProcessOpenPanelOption | Scripts/Editor/Misc/BuildSettings.cs:274-309 | An invalid option changes nothing. A valid one overwrites its entry with the path from "Asset" on, only for a non-empty path and an index below the count; other entries and list lengths stay the same, and the option is reset. A path without "Asset" throws before any change. |
| ScriptableSingletons.FilePath | Scripts/Editor/Settings/ScriptableSingleton.cs:101-112 | An empty path is refused. Otherwise the stored path is a suffix at most one character shorter; it is unchanged without a leading '/', and "/" gives "". |
| ScriptableSingletons.FilePathDropsOneSlash | Scripts/Editor/Settings/ScriptableSingleton.cs:107-111 | Exactly one leading '/' is removed. |
| ScriptableSingletons.ScriptableSingleton.constructor | Scripts/Editor/Settings/ScriptableSingleton.cs:19 | There is no instance at first. |
| ScriptableSingletons.ScriptableSingleton.LoadOrCreate | Scripts/Editor/Settings/ScriptableSingleton.cs:36-49 | With no path, an error is reported and nothing changes. A non-empty file's first object becomes the instance, or null when it is not of the singleton's type. An empty file keeps the instance, or creates one if there is none. |
| ScriptableSingletons.ScriptableSingleton.Instance | Scripts/Editor/Settings/ScriptableSingleton.cs:20-30 | An existing instance is returned untouched; otherwise it is loaded or created first. With no path, an error is reported and null is returned. |
| ScriptableSingletons.ScriptableSingleton.Save | Scripts/Editor/Settings/ScriptableSingleton.cs:55-74 | Without an instance, or without a path, nothing is written. A path with no directory part makes the directory creation throw, so nothing is written. Otherwise exactly the instance is written to the path, which then contains a separator. |
| EditorStatusWatchers.Reloads | Scripts/Editor/Settings/UGFSettingsEditorStatusWatcher.cs:36-47 | A reload happens at most once per poll. |
| EditorStatusWatchers.ReloadsBound | Scripts/Editor/Settings/UGFSettingsEditorStatusWatcher.cs:38-45 | Reloads need a lost focus in between, so there is at most one per two polls (rounded up when starting unfocused). |
| EditorStatusWatchers.SteadyFocusNoReload | Scripts/Editor/Settings/UGFSettingsEditorStatusWatcher.cs:38 | An unchanged activity value never reloads. |
| EditorStatusWatchers.StatusWatcher.constructor | Scripts/Editor/Settings/UGFSettingsEditorStatusWatcher.cs:26 | The watcher starts unfocused. |
| EditorStatusWatchers.StatusWatcher.Update | Scripts/Editor/Settings/UGFSettingsEditorStatusWatcher.cs:36-47 | Focus then equals the current activity. Reload happens only on a rising edge, and the callback fires once for it, only when one is subscribed. An unchanged activity changes nothing. |
| ABSettingsProviders.ChosenFolderValue | Scripts/Editor/Settings/ABSettingsProvider.cs:43-49 | A cancelled dialog keeps the value, and the data folder gives "Assets/". Every stored value starts with "Assets" and ends with "/". An empty data folder with another path throws. |
| ABSettingsProviders.SubFolderValue | Scripts/Editor/Settings/ABSettingsProvider.cs:48 | A sub-folder of the data folder is stored as "Assets" + its relative part + "/". |
| ABSettingsProviders.DialogFolder | Scripts/Editor/Settings/ABSettingsProvider.cs:37-41 | The dialog opens at the data folder combined with the stored value when that folder exists, else at the data folder. An empty stored value always opens at the data folder itself. |
| ABSettingsProviders.SelectionFolderPath | Scripts/Editor/Settings/ABSettingsProvider.cs:35-50 | The dialog opens at DialogFolder, so an empty stored value opens at the data folder. The property takes the chosen value when one is stored, and stays unchanged otherwise. |
| ScriptEncodingFormatTools.ExtensionStart | Scripts/Editor/ScriptTools/ScriptEncodingFormatTool.cs:68 | It finds the last '.' after the last separator, if any. |
| ScriptEncodingFormatTools.GetExtension | Scripts/Editor/ScriptTools/ScriptEncodingFormatTool.cs:68 | A non-empty extension is the suffix from the last '.' of the file name: at least two characters, with no '.' or separator after the first. It is empty exactly when the path ends in '.' or its file name has no '.'. |
| ScriptEncodingFormatTools.GetFileName | Scripts/Editor/ScriptTools/ScriptEncodingFormatTool.cs:30 | The file name is the whole separator-free suffix of the path: it is the path itself, or a separator precedes it. |
| Text.GetDirectoryName | Scripts/Editor/ScriptTools/ScriptEncodingFormatTool.cs:26 | The directory is a proper prefix of the path and keeps its root. It does not end with a separator unless it is the root. It ends no later than the last separator (or the root), and only separators lie between them. |
| ScriptEncodingFormatTools.GetDirectoryNameExamples | Scripts/Editor/ScriptTools/ScriptEncodingFormatTool.cs:26 | "/Assets" gives "/", "/home/game/Assets" gives "/home/game", "game//Assets" gives "game", and "Assets" and "/" give "". |
| Text.CombinePath | Scripts/Editor/Settings/ABSettingsProvider.cs:37 | An empty name gives the directory. A rooted name, or an empty directory, gives the name. Otherwise the directory, exactly one separator and the name. |
| Text.IndexOf | Scripts/Editor/Misc/BuildSettings.cs:288 | The position of the first occurrence of the pattern, or -1 exactly when it does not occur. |
| Text.RemoveAll | Scripts/Editor/Settings/ABSettingsProvider.cs:48 | The result is never longer than the string. It is exactly as long, and then the string itself, only when the pattern does not occur. |
| ScriptEncodingFormatTools.IsCSharpFileCharacterised | Scripts/Editor/ScriptTools/ScriptEncodingFormatTool.cs:65-77 | A file is C# exactly when its name ends in '.', 'c' or 'C', then 's' or 'S'. |
| ScriptEncodingFormatTools.IsCSharpFile | Scripts/Editor/ScriptTools/ScriptEncodingFormatTool.cs:65-77 | A C# file name has at least three characters, the third from last being '.'. IsCSharpFileCharacterised gives the full test. |
| ScriptEncodingFormatTools.IsCSharpFileExamples | Scripts/Editor/ScriptTools/ScriptEncodingFormatTool.cs:65-77 | "A.CS" is accepted; "A.cs.meta", "cs" and "A." are rejected. |
| ScriptEncodingFormatTools.CustomMenu | Scripts/Editor/ScriptTools/ScriptEncodingFormatTool.cs:16-48 | No selection gives a warning, a non-C# file a log message, and conversion happens exactly for a selected C# file, at its absolute path. |

## Left out

- **Threads in the log writer.** The worker thread, the lock, `Monitor.Wait`/`Pulse`, the unsynchronised queue-count read and a `Close` that never wakes a waiting worker are all left out. Enqueue, swap and drain are atomic steps, and a worker waiting for records is the `Blocked` step.
- **Log file output.** Opening and naming the log file, creating its directory, and closing the stream writer are I/O. The time read for each record is the `now` input. A `Close` that lands in the middle of a drain would make the worker write to a disposed writer; the atomic steps exclude this.
- **Log level or thread filter.** Neither exists in the writer, so none is modelled.
- **Reference pool.** Only its FIFO free list is modelled. The strict-mode checks are left out, such as the error raised on releasing the same object twice. So is the pool's per-type registry.
- **Task completion source.** Only the set-once cell is modelled. Continuations, task scheduling and faulting (which the code never uses) are left out.
- **Manager pass-throughs and wiring.** These are left out:
  - the web-request and download managers themselves, agents and agent helpers, and the info and remove calls;
  - re-firing of events, and the subscription wiring in `Awake`/`Start`.

  Serial ids are inputs.
- **Overloads.** `WebRequestComponents.AddWebRequest` and `DownloadComponents.AddDownload` stand for all public overloads at once. They take an argument datatype that records which arguments were passed, instead of one member per overload.
- DownloadComponents.DownloadComponent.OnDownloadSuccess: states only the untracked, retired and result-content cases. The full contract is on `OnDownloadCompleted`, which it calls.
- DownloadComponents.DownloadComponent.OnDownloadFailure: states only the untracked, retired and result-content cases. The full contract is on `OnDownloadCompleted`, which it calls.
- **Null strings.** A null string is modelled as the empty string. Tags, which stay null, are an `Option`.
- **Base component.** The `float` speeds and the screen DPI are `real`s, so there are no NaN values and no rounding. A NaN DPI, which the source keeps because its "at most 0" test is false for NaN, is not modelled. These are left out:
  - `Time.timeScale`, the engine's copy of the speed;
  - helper creation by reflection, the other Unity settings, low-memory handling and the quit/destroy hooks.
- **Game entry.** A runtime type is modelled by its full and short names, so two different types with the same names would count as equal. `GetComponent<T>`'s cast, the error logging (returned as a `Registration` outcome), and the base-component shutdown, scene reload and application quit done by `Shutdown` are left out.
- **Build settings file.** These are external and left out:
  - real XML parsing, escaping and the XML declaration;
  - non-element nodes;
  - `Utility.Path.GetRegularPath`;
  - the settings lookup of the root directory, which is a constructor parameter because the settings class declares no field of the name the code reads;
  - the asset database refresh.

  The file is a `ConfigurationFile` object. A save failure (directory creation or write) is the `ioFails` input.
- **Build settings editor.** List drawing, the file and folder dialogs (their answer is an input), the asset search (its answer is `foundScenes`), and the log messages of the window and menu commands are left out. The hash set's enumeration order is unspecified, so the scene order is chosen nondeterministically.
- **String operations.** `IndexOf`, `Replace` and `ToLower` are ordinal, and `ToLower` changes only ASCII letters; culture-sensitive comparison is not modelled. `Path.Combine` treats only a leading '/' or '\\' as rooted, so drive letters are not modelled. The path functions split on '/' and '\\' only, as .NET does on Windows, while `Text.CombinePath` joins with '/', as on macOS and Linux; the model mixes the two platforms. On macOS and Linux '\\' is an ordinary character, so `GetFileName("a\\b")` is "a\\b" there.
- Text.CombinePath: joins with '/', as .NET does on macOS and Linux; on Windows it joins with '\\'.
- Text.GetDirectoryName: gives "" where .NET gives null (a path that is only a root or empty), so a following `Path.Combine` would throw; the project's data folder always has a parent. Repeated separators inside the directory are not collapsed into one.
- **Settings singleton.** Unity's destroyed-object test on the cached instance is modelled as a null test. These are inputs: the attribute lookup by reflection (`filePath`, "" when absent) and the deserialised objects (`loaded`). `as T` is an exact type match, so subclasses of `T` are not modelled. Serialisation and directory creation are I/O; what `Save` would write is its returned action. The one directory-creation outcome modelled is the throw for a path with no directory part, `Thrown`.
- **Focus watcher.** The application's focus is an input. Reloading the settings and invoking the callback are counted, not performed.
- **Folder picker.** The GUI layout is left out. Directory existence is a set of existing folders, and the dialog's answer is an input.
- ABSettingsProviders.DialogFolder: a folder exists when its exact string is in the set, so a folder written with and without a trailing separator counts as two entries.
- **Script encoding tool.** The GB2312 to UTF-8 conversion, marking the asset dirty and the refresh are I/O. The menu validator only tests the selection for null, which `CustomMenu`'s first case covers.
- **Other files.** `Singleton.cs` and `SingletonRaw.cs` (lazy creation under a lock, with engine object lookups) are not part of this model. Neither are the settings GUI providers, the preset receiver, the menu provider and the plain attribute and settings declarations.
