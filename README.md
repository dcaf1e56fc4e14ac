# File chooser dialog: navigation state machine and decision logic

This project models the core of `FileChooserDialog.kt` from the Compose
Desktop helper library `mess_drawer`: a modal dialog that lets a user browse
the filesystem and pick a directory or a file. The Compose rendering is not
modelled. What is modelled is the state and decision logic the rendering is
built on:

- the view model `FileChooserViewModel` and its state record
  `FileChooserUiState` (`currentPath`, `firstLoad`, `fileSelection`,
  `selectedFileOrDirectory`), with its three updates `setSelectionType`,
  `setNewFolder` and `selectFileOrDirectory`;
- the once-only seeding of the current folder from the caller's
  `baseDirectory`, guarded by `firstLoad`;
- the filter that decides which children of the current folder are listed;
- what a click does on a listed entry, on the home button, on the ".." tag,
  on the parent-name tag and on the current-name tag;
- what the `onFileChoosen` callback receives on accept and on cancel, or
  whether it fires at all;
- the breadcrumb labels of `PathContainer`.

The filesystem is abstract (`filesystem.dfy`). A path is the sequence of its
name components and the root is the empty sequence. `Name` is the last
component, or `""` at the root. `Parent` drops the last component and is
absent at the root. `AbsolutePath` prints `/a/b`, and `/` for the root. A
`FileSystem` value is a snapshot: a map saying which paths exist and whether
each is a directory, and for each readable directory its ordered child list.
A directory without a child list stands for `listFiles()` returning null.
The process working directory (`user.dir`) is a parameter, `userDir`.

Modules:

- `Wrappers`: the `Option` type that stands for Kotlin's nullable types.
- `FileSystem`: the abstract paths and filesystem.
- `ChooserState`: `UiState` and its updates as pure functions, with lemmas.
- `ViewModel`: the class `FileChooserViewModel`. It holds the state in one
  mutable field, as the source's `MutableStateFlow` does. Its methods update
  that field in place and are specified by the `ChooserState` functions.
- `Dialog`: the listing filter, the click dispatch, accept and cancel, the
  breadcrumb labels, and the event handlers that drive a live view model.
- `Traces`: whole sessions, as sequences of gestures, and the invariants that
  hold along every session.

The callback is modelled as the value `Option<(Option<Path>, bool)>` returned
by `Accept` and `Cancel`. `None` means the callback does not fire.

Behaviour of `FileChooserDialog.kt` worth noting:

- Moving to another folder does not clear the selection. `setNewFolder`
  (FileChooserDialog.kt:61-65) copies only `currentPath` and `firstLoad`. So
  with files allowed, a file selected in one folder is still what accept
  returns after moving to another folder. `Traces.ScenarioSelectionKeptAcrossFolders`
  shows such a session.
- A base directory that is not a directory is ignored and leaves `firstLoad`
  true, so the seeding is tried again on every composition until some
  navigation succeeds. A later seeding is shut out only after one with an
  actual directory (`ChooserState.SeedOnce`, `ChooserState.SeedRejected`).
- `fileSelection` is written on every composition but never read. Accept and
  the filter use the `onlyDirectories` parameter of the current composition
  directly.
- The home button calls `setNewFolder` too, so it is ignored if the working
  directory is not a directory.
- The listing keeps the order `listFiles()` gives, with every occurrence of a
  kept child. The code does not sort it.

## Model

| member | source | states |
|---|---|---|
| `ViewModel.FileChooserViewModel.constructor` | FileChooserDialog.kt:48-53 | A fresh view model is at the working directory, with `firstLoad` and `fileSelection` true and nothing selected. |
| `ViewModel.FileChooserViewModel.SetSelectionType` | FileChooserDialog.kt:57-59 | Sets `fileSelection` to the negation of `onlyDirectories`. Path, first-load flag and selection are unchanged. |
| `ViewModel.FileChooserViewModel.SetNewFolder` | FileChooserDialog.kt:61-65 | A non-directory leaves the whole state unchanged. A directory becomes the current path and clears `firstLoad`. Mode and selection are kept. |
| `ViewModel.FileChooserViewModel.SelectFileOrDirectory` | FileChooserDialog.kt:67-69 | Sets the selection, possibly to null. Everything else is unchanged. |
| `ChooserState.SetSelectionType` | FileChooserDialog.kt:57-59 | The new `fileSelection` is `!onlyDirectories`, and no other field differs from the old state. |
| `ChooserState.SetNewFolder` | FileChooserDialog.kt:61-65 | The result equals the old state for a non-directory. For a directory: current path is the folder, `firstLoad` false, mode and selection are the old ones. |
| `ChooserState.SelectFileOrDirectory` | FileChooserDialog.kt:67-69 | The selection is the argument, and no other field differs from the old state. |
| `ChooserState.SeedBaseDirectory` | FileChooserDialog.kt:92-93 | While `firstLoad` holds, a base directory that is a directory becomes the current path and `firstLoad` is cleared. Without a base directory, or once `firstLoad` is false, nothing changes. A seeding that leaves `firstLoad` true changes nothing. A seeding that clears it moved to the base directory, which is a directory. Mode and selection are never touched. |
| `ChooserState.SetSelectionTypeLastWins` | FileChooserDialog.kt:57-59 | A later `setSelectionType` overrides an earlier one. Applying it twice with the same argument equals applying it once. |
| `ChooserState.FirstLoadNeverReturns` | FileChooserDialog.kt:57-69 | Once `firstLoad` is false, no update sets it again, and the seeding is the identity. |
| `ChooserState.SeedOnce` | FileChooserDialog.kt:92-93 | After a seeding with a directory, the current path is that directory and `firstLoad` is false. Any later seeding with any base directory changes nothing. |
| `ChooserState.SeedRejected` | FileChooserDialog.kt:61-65 | Seeding with a base that is not a directory leaves the state, `firstLoad` included, unchanged. |
| `FileSystem.RootCharacterised` | FileChooserDialog.kt:246-250 | For a normalised path, the empty name and the absolute path "/" both identify exactly the root. |
| `Dialog.Filter` | FileChooserDialog.kt:205 | The filtered list is a subsequence of the children, in their order. It holds exactly the children that the mode accepts, each as many times as it occurs among the children. |
| `Dialog.FilterKeepsAll` | FileChooserDialog.kt:205 | With files allowed, the filter returns the children unchanged. |
| `Dialog.EntriesSpec` | FileChooserDialog.kt:205 | A null listing shows nothing. With files allowed, all children are listed in order. In only-directories mode, the listing is an ordered subsequence of the children holding exactly the directories, each with its multiplicity among the children. |
| `Dialog.EntryClick` | FileChooserDialog.kt:206-211 | Clicking a directory acts as `setNewFolder` on it and keeps the selection. Clicking a file acts as `selectFileOrDirectory` on it and keeps the path. A click never makes a directory the selection. |
| `Dialog.OnlyDirectoriesClickNavigates` | FileChooserDialog.kt:205-211 | In only-directories mode, clicking any listed entry moves into it and never changes the selection. |
| `Dialog.NavigateUp` | FileChooserDialog.kt:274-285 | At the root, and whenever the current name is empty, ".." and the parent tag change nothing. Otherwise they act as `setNewFolder` on the parent. |
| `Dialog.EnterThenUp` | FileChooserDialog.kt:199-211 | On a well-formed filesystem, entering a listed sub-directory and then clicking ".." returns to the starting folder. |
| `Dialog.Accept` | FileChooserDialog.kt:145-153 | The callback fires exactly when in only-directories mode or when something is selected. It then always carries a path and `true`. In only-directories mode the path is the current folder, whatever the selection. Otherwise it is the selection. |
| `Dialog.AcceptIsNotCancel` | FileChooserDialog.kt:170-172 | Cancel yields `(null, false)` from every state. The close icon at FileChooserDialog.kt:128 does the same. No accept result ever equals a cancel result. |
| `Dialog.ParentLabel` | FileChooserDialog.kt:245-249 | The label is "/" at the root, where there is no parent. It is also "/" one level below the root, where the parent's name is empty. Deeper, it is the parent's name. |
| `Dialog.RootLabels` | FileChooserDialog.kt:245-285 | The current label is empty exactly at the root. There the parent tags do nothing. The parent label is "/" exactly at depth 0 or 1. |
| `Dialog.Compose` | FileChooserDialog.kt:88-93 | Each composition sets the mode from `onlyDirectories`, then applies the base directory if it is present and `firstLoad` holds. |
| `Dialog.OnEntryClick` | FileChooserDialog.kt:206-212 | The entry click handler updates the view model as `EntryClick` says. |
| `Dialog.OnHomeClick` | FileChooserDialog.kt:257-260 | The home button acts as `setNewFolder` on the working directory. |
| `Dialog.OnParentClick` | FileChooserDialog.kt:274-285 | The ".." and parent-tag handler updates the view model as `NavigateUp` says. |
| `Traces.Step` | FileChooserDialog.kt:199-293 | The gesture dispatch. The current-name tag is inert. The ".." and parent-name tags both act as `NavigateUp`. Home acts as `setNewFolder` on the working directory. Only a composition changes the mode. The selection changes only by a click on a file, which becomes the selection. A change of folder always lands on a directory and clears `firstLoad`. |
| `Traces.StepConsistent` | FileChooserDialog.kt:199-285 | Every gesture preserves three facts. A cleared `firstLoad` implies the current path is a directory. The selection is never a directory. A current path that is a directory stays one. It also never sets `firstLoad` again. |
| `Traces.RunConsistent` | FileChooserDialog.kt:199-285 | The same facts hold after any sequence of gestures. |
| `Traces.SessionAccept` | FileChooserDialog.kt:145-153 | From a fresh view model whose working directory exists, after any session the current path is a directory. Accept in only-directories mode returns it. Accept with files allowed never returns a directory. |
| `Traces.SeedNeverAgain` | FileChooserDialog.kt:92-93 | Once `firstLoad` is false, no later session makes it true. A composition afterwards only sets the mode, whatever base directory it passes. |
| `Traces.ComposeIdempotent` | FileChooserDialog.kt:89-93 | Composing twice with the same configuration has the same effect as composing once. |
| `Traces.ScenarioAcceptFile` | FileChooserDialog.kt:145-153 | In /home/user with files allowed, both children are listed. Clicking a.txt and accepting returns `(/home/user/a.txt, true)`. |
| `Traces.ScenarioAcceptDirectory` | FileChooserDialog.kt:146-147 | In only-directories mode, /home/user lists only docs. Accepting with no selection returns `(/home/user, true)`. |
| `Traces.ScenarioRoot` | FileChooserDialog.kt:275-285 | At the root the current label is empty, and ".." and the parent tag leave the state unchanged. |
| `Traces.ScenarioSelectionKeptAcrossFolders` | FileChooserDialog.kt:61-65 | A file selected in /home/user is still returned by accept after moving into docs, where it is not listed. |

`Dialog.Entries`, `Dialog.Cancel`, `Dialog.CurrentLabel`, `Dialog.Recompose`
and `ChooserState.Initial` carry no contract of their own. The lemmas in the
table above state their properties.

## Left out

- All Compose presentation: `Dialog`, `Card`, `Scaffold`, app bars, `FileItem` (with its selected-row highlight), `ContentTag`, icons, colours, titles and button labels, and the dp/sp sizing, including the float padding in `ContentTag`. None of it affects the state or the callback.
- The dialog's `visible` flag and its empty `onCloseRequest`: presentation only.
- `CoroutineScope(Dispatchers.IO)`, `MutableStateFlow`/`StateFlow`, `collectAsState` and recomposition scheduling. Each `update` is modelled as a plain assignment, applied in order. A composition is one `Compose` gesture.
- `java.io.File` and the operating system. These are replaced by the abstract `FileSystem` snapshot and the `userDir` parameter. The filesystem does not change during a session, so a folder that vanishes between listing and click is not modelled.
- Drive letters and other non-POSIX roots: the model has a single root.
- Entry clicks in a session are not limited to the entries currently listed. The invariants in `Traces` hold for any clicked path, so they hold for listed ones in particular.
- Dialog.NavigateUp: only absolute paths are modelled. In the code a relative base directory such as `File("docs")` can become the current folder. Its name is non-empty but its `parent` is null, so a click on ".." or on the parent tag throws a NullPointerException out of the click handler. The model has neither relative paths nor that crash.
- Dialog.ParentLabel: only absolute paths are modelled. For a relative current folder without a parent the code falls back, through its catch, to the folder's absolute path resolved against the working directory. The model does not cover that case.
