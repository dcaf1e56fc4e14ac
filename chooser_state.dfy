/**
 The dialog's navigation state, `FileChooserUiState`, and the three updates
 `FileChooserViewModel` applies to it, written as functions from the old state
 to the new one. The view model in `ViewModel` performs exactly these updates
 in place; the lemmas here are the facts about them that the dialog relies on.
 */
module ChooserState {
  import opened Wrappers
  import opened FileSystem

  datatype UiState = UiState(
    currentPath: Path,
    firstLoad: bool,
    fileSelection: bool,
    selectedFileOrDirectory: Option<Path>)

  /** The state a fresh view model holds: the working directory, nothing chosen yet. */
  function Initial(userDir: Path): UiState {
    UiState(userDir, true, true, None)
  }

  /** `setSelectionType`: files are selectable exactly when not restricted to directories. */
  function SetSelectionType(s: UiState, onlyDirectories: bool): (r: UiState)
    ensures r.fileSelection == !onlyDirectories
    ensures r.(fileSelection := s.fileSelection) == s
  {
    s.(fileSelection := !onlyDirectories)
  }

  /** `setNewFolder`: move into `folder` if it is a directory, otherwise ignore the request. */
  function SetNewFolder(fs: FileSystem, s: UiState, folder: Path): (r: UiState)
    ensures !IsDirectory(fs, folder) ==> r == s
    ensures IsDirectory(fs, folder) ==>
      r.currentPath == folder && !r.firstLoad &&
      r.fileSelection == s.fileSelection &&
      r.selectedFileOrDirectory == s.selectedFileOrDirectory
  {
    if IsDirectory(fs, folder) then s.(currentPath := folder, firstLoad := false) else s
  }

  /** `selectFileOrDirectory`: record the selection (possibly null). */
  function SelectFileOrDirectory(s: UiState, selected: Option<Path>): (r: UiState)
    ensures r.selectedFileOrDirectory == selected
    ensures r.(selectedFileOrDirectory := s.selectedFileOrDirectory) == s
  {
    s.(selectedFileOrDirectory := selected)
  }

  /** The seeding step of every composition: apply the base directory while `firstLoad` holds. */
  function SeedBaseDirectory(fs: FileSystem, s: UiState, baseDirectory: Option<Path>): (r: UiState)
    ensures !s.firstLoad || baseDirectory.None? ==> r == s
    ensures s.firstLoad && baseDirectory.Some? && IsDirectory(fs, baseDirectory.value) ==>
      r.currentPath == baseDirectory.value && !r.firstLoad
    ensures r.firstLoad ==> r == s
    ensures s.firstLoad && !r.firstLoad ==>
      baseDirectory.Some? && IsDirectory(fs, baseDirectory.value) && r.currentPath == baseDirectory.value
    ensures r.fileSelection == s.fileSelection && r.selectedFileOrDirectory == s.selectedFileOrDirectory
  {
    if baseDirectory.Some? && s.firstLoad then SetNewFolder(fs, s, baseDirectory.value) else s
  }

  /** A later `setSelectionType` overrides an earlier one; in particular it is idempotent. */
  lemma SetSelectionTypeLastWins(s: UiState, a: bool, b: bool)
    ensures SetSelectionType(SetSelectionType(s, a), b) == SetSelectionType(s, b)
    ensures SetSelectionType(SetSelectionType(s, b), b) == SetSelectionType(s, b)
  {
  }

  /** Once `firstLoad` is cleared no update sets it again. */
  lemma FirstLoadNeverReturns(fs: FileSystem, s: UiState, folder: Path, b: bool, sel: Option<Path>, base: Option<Path>)
    requires !s.firstLoad
    ensures !SetNewFolder(fs, s, folder).firstLoad
    ensures !SetSelectionType(s, b).firstLoad
    ensures !SelectFileOrDirectory(s, sel).firstLoad
    ensures SeedBaseDirectory(fs, s, base) == s
  {
  }

  /**
   The base directory is honoured once: after a seeding that took, any later
   seeding, with whatever base directory, changes nothing.
   */
  lemma SeedOnce(fs: FileSystem, s: UiState, first: Option<Path>, second: Option<Path>)
    requires s.firstLoad && first.Some? && IsDirectory(fs, first.value)
    ensures SeedBaseDirectory(fs, s, first).currentPath == first.value
    ensures !SeedBaseDirectory(fs, s, first).firstLoad
    ensures SeedBaseDirectory(fs, SeedBaseDirectory(fs, s, first), second) == SeedBaseDirectory(fs, s, first)
  {
  }

  /** A base directory that is not a directory leaves the state, `firstLoad` included, as it was. */
  lemma SeedRejected(fs: FileSystem, s: UiState, base: Path)
    requires !IsDirectory(fs, base)
    ensures SeedBaseDirectory(fs, s, Some(base)) == s
  {
  }
}
