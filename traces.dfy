/**
 Whole sessions of the dialog: a session is a sequence of gestures (a
 recomposition with the caller's current configuration, or a click), applied
 in order to the view model's state. The lemmas here are the invariants that
 hold along every session, whatever the user clicks.
 */
module Traces {
  import opened Wrappers
  import opened FileSystem
  import opened ChooserState
  import opened Dialog

  datatype Gesture =
    | Compose(onlyDirectories: bool, baseDirectory: Option<Path>)
    | EntryClick(file: Path)
    | HomeClick
    | DotDotClick
    | ParentTagClick
    | CurrentTagClick

  /**
   The effect of one gesture on the state; `userDir` is the process working
   directory. The current-name tag is inert, the ".." tag and the parent-name
   tag do the same thing, only a composition changes the mode, and only a
   click on a file changes the selection.
   */
  function Step(fs: FileSystem, userDir: Path, s: UiState, g: Gesture): (r: UiState)
    ensures g.CurrentTagClick? ==> r == s
    ensures g.DotDotClick? || g.ParentTagClick? ==> r == NavigateUp(fs, s)
    ensures g.HomeClick? ==> r == SetNewFolder(fs, s, userDir)
    ensures !g.Compose? ==> r.fileSelection == s.fileSelection
    ensures r.selectedFileOrDirectory != s.selectedFileOrDirectory ==>
      g.EntryClick? && !IsDirectory(fs, g.file) && r.selectedFileOrDirectory == Some(g.file)
    ensures r.currentPath != s.currentPath ==> IsDirectory(fs, r.currentPath) && !r.firstLoad
  {
    match g
    case Compose(onlyDirectories, baseDirectory) => Recompose(fs, s, onlyDirectories, baseDirectory)
    case EntryClick(file) => Dialog.EntryClick(fs, s, file)
    case HomeClick => SetNewFolder(fs, s, userDir)
    case DotDotClick => NavigateUp(fs, s)
    case ParentTagClick => NavigateUp(fs, s)
    case CurrentTagClick => s
  }

  function Run(fs: FileSystem, userDir: Path, s: UiState, gs: seq<Gesture>): UiState
    decreases |gs|
  {
    if gs == [] then s else Run(fs, userDir, Step(fs, userDir, s, gs[0]), gs[1..])
  }

  /**
   The state's consistency: once the first load is over the current folder is
   a directory, and the selection, if any, is never a directory.
   */
  predicate Consistent(fs: FileSystem, s: UiState) {
    && (!s.firstLoad ==> IsDirectory(fs, s.currentPath))
    && (s.selectedFileOrDirectory.Some? ==> !IsDirectory(fs, s.selectedFileOrDirectory.value))
  }

  lemma StepConsistent(fs: FileSystem, userDir: Path, s: UiState, g: Gesture)
    requires Consistent(fs, s)
    ensures Consistent(fs, Step(fs, userDir, s, g))
    ensures IsDirectory(fs, s.currentPath) ==> IsDirectory(fs, Step(fs, userDir, s, g).currentPath)
    ensures !s.firstLoad ==> !Step(fs, userDir, s, g).firstLoad
  {
  }

  lemma {:induction false} RunConsistent(fs: FileSystem, userDir: Path, s: UiState, gs: seq<Gesture>)
    requires Consistent(fs, s)
    ensures Consistent(fs, Run(fs, userDir, s, gs))
    ensures IsDirectory(fs, s.currentPath) ==> IsDirectory(fs, Run(fs, userDir, s, gs).currentPath)
    ensures !s.firstLoad ==> !Run(fs, userDir, s, gs).firstLoad
    decreases |gs|
  {
    if gs != [] {
      StepConsistent(fs, userDir, s, gs[0]);
      RunConsistent(fs, userDir, Step(fs, userDir, s, gs[0]), gs[1..]);
    }
  }

  /**
   Along any session from a fresh view model whose working directory exists:
   the current folder is always a directory, accept in only-directories mode
   returns that folder, and accept with files allowed returns a file or
   nothing, never a directory.
   */
  lemma SessionAccept(fs: FileSystem, userDir: Path, gs: seq<Gesture>)
    requires IsDirectory(fs, userDir)
    ensures IsDirectory(fs, Run(fs, userDir, Initial(userDir), gs).currentPath)
    ensures Accept(true, Run(fs, userDir, Initial(userDir), gs)) ==
      Some((Some(Run(fs, userDir, Initial(userDir), gs).currentPath), true))
    ensures Accept(false, Run(fs, userDir, Initial(userDir), gs)).Some? ==>
      !IsDirectory(fs, Accept(false, Run(fs, userDir, Initial(userDir), gs)).value.0.value)
  {
    RunConsistent(fs, userDir, Initial(userDir), gs);
  }

  /** Once the first load is over, no session brings it back and no composition re-seeds. */
  lemma {:induction false} SeedNeverAgain(fs: FileSystem, userDir: Path, s: UiState, gs: seq<Gesture>,
                                          onlyDirectories: bool, base: Option<Path>)
    requires !s.firstLoad
    ensures !Run(fs, userDir, s, gs).firstLoad
    ensures Run(fs, userDir, s, gs + [Compose(onlyDirectories, base)]) ==
      SetSelectionType(Run(fs, userDir, s, gs), onlyDirectories)
    decreases |gs|
  {
    if gs == [] {
      assert [] + [Compose(onlyDirectories, base)] == [Compose(onlyDirectories, base)];
    } else {
      var t := Step(fs, userDir, s, gs[0]);
      assert (gs + [Compose(onlyDirectories, base)])[1..] == gs[1..] + [Compose(onlyDirectories, base)];
      SeedNeverAgain(fs, userDir, t, gs[1..], onlyDirectories, base);
    }
  }

  /** Composing twice with the same configuration is the same as composing once. */
  lemma ComposeIdempotent(fs: FileSystem, userDir: Path, s: UiState, onlyDirectories: bool, base: Option<Path>)
    ensures Step(fs, userDir, Step(fs, userDir, s, Compose(onlyDirectories, base)), Compose(onlyDirectories, base))
      == Step(fs, userDir, s, Compose(onlyDirectories, base))
  {
  }

  // --------------------------------------------------------------- scenarios

  /** /home/user holding the folder docs and the file a.txt; its parent /home and the root. */
  function Home(): FileSystem {
    FileSystem(
      map[[] := true, ["home"] := true, ["home", "user"] := true,
          ["home", "user", "docs"] := true, ["home", "user", "a.txt"] := false],
      map[[] := [["home"]], ["home"] := [["home", "user"]],
          ["home", "user"] := [["home", "user", "docs"], ["home", "user", "a.txt"]],
          ["home", "user", "docs"] := []])
  }

  /** Files allowed: clicking a.txt and accepting returns it. */
  lemma ScenarioAcceptFile()
    ensures Valid(Home())
    ensures Entries(Home(), ["home", "user"], false) == [["home", "user", "docs"], ["home", "user", "a.txt"]]
    ensures Accept(false, Run(Home(), ["home", "user"], Initial(["home", "user"]),
                              [Compose(false, None), EntryClick(["home", "user", "a.txt"])]))
      == Some((Some(["home", "user", "a.txt"]), true))
  {
    FilterKeepsAll(Home(), [["home", "user", "docs"], ["home", "user", "a.txt"]]);
    var s1 := Step(Home(), ["home", "user"], Initial(["home", "user"]), Compose(false, None));
    assert s1 == Initial(["home", "user"]);
    assert Step(Home(), ["home", "user"], s1, EntryClick(["home", "user", "a.txt"])).selectedFileOrDirectory
      == Some(["home", "user", "a.txt"]);
  }

  /** Only directories: the list hides a.txt and accepting without a selection returns /home/user. */
  lemma ScenarioAcceptDirectory()
    ensures Entries(Home(), ["home", "user"], true) == [["home", "user", "docs"]]
    ensures Accept(true, Run(Home(), ["home", "user"], Initial(["home", "user"]), [Compose(true, None)]))
      == Some((Some(["home", "user"]), true))
  {
  }

  /** At the root the current label is empty and ".." leaves the current folder unchanged. */
  lemma ScenarioRoot()
    ensures var s := Run(Home(), ["home", "user"], Initial(["home", "user"]),
                         [Compose(false, Some([]))]);
      s.currentPath == [] && CurrentLabel(s.currentPath) == "" &&
      Run(Home(), ["home", "user"], s, [DotDotClick, ParentTagClick]) == s
  {
  }

  /**
   The selection survives navigation: a.txt selected in /home/user is still
   what accept returns after moving into docs, although docs does not list it.
   */
  lemma ScenarioSelectionKeptAcrossFolders()
    ensures var s := Run(Home(), ["home", "user"], Initial(["home", "user"]),
                         [Compose(false, None), EntryClick(["home", "user", "a.txt"]),
                          EntryClick(["home", "user", "docs"])]);
      s.currentPath == ["home", "user", "docs"] &&
      ["home", "user", "a.txt"] !in Entries(Home(), s.currentPath, false) &&
      Accept(false, s) == Some((Some(["home", "user", "a.txt"]), true))
  {
  }
}
