/**
 The decision logic inside the `FileChooserDialog` composable and its
 `PathContainer` breadcrumb: which entries are listed, what a click on an
 entry, on the home button or on the parent tags does, what the result
 callback receives on accept and cancel, and the breadcrumb labels. The
 event handlers at the end perform the clicks on a live view model.
 */
module Dialog {
  import opened Wrappers
  import opened FileSystem
  import opened ChooserState
  import opened ViewModel

  /** What `onFileChoosen` is called with: the chosen path (or null) and whether it was accepted. */
  type Callback = (Option<Path>, bool)

  // ---------------------------------------------------------------- listing

  /** `a` is `b` with some elements left out, the rest in their original order. */
  predicate IsSubsequence<T(==)>(a: seq<T>, b: seq<T>)
    decreases |b|
  {
    if b == [] then a == []
    else (a != [] && a[0] == b[0] && IsSubsequence(a[1..], b[1..])) || IsSubsequence(a, b[1..])
  }

  /** The predicate of the listing's `filter`. */
  predicate Keep(fs: FileSystem, onlyDirectories: bool, x: Path) {
    (onlyDirectories && IsDirectory(fs, x)) || !onlyDirectories
  }

  /**
   Kotlin's `filter` with `Keep`: keeps exactly the accepted children, in
   order, each as often as it occurs.
   */
  function Filter(fs: FileSystem, xs: seq<Path>, onlyDirectories: bool): (r: seq<Path>)
    ensures IsSubsequence(r, xs)
    ensures forall x :: x in r <==> x in xs && Keep(fs, onlyDirectories, x)
    ensures forall x :: multiset(r)[x] == if Keep(fs, onlyDirectories, x) then multiset(xs)[x] else 0
  {
    if xs == [] then []
    else
      assert xs == [xs[0]] + xs[1..];
      if Keep(fs, onlyDirectories, xs[0]) then [xs[0]] + Filter(fs, xs[1..], onlyDirectories)
      else Filter(fs, xs[1..], onlyDirectories)
  }

  /** The entries the dialog lists for `dir`; a null listing shows nothing. */
  function Entries(fs: FileSystem, dir: Path, onlyDirectories: bool): seq<Path> {
    match ListFiles(fs, dir)
    case None => []
    case Some(children) => Filter(fs, children, onlyDirectories)
  }

  lemma {:induction false} FilterKeepsAll(fs: FileSystem, xs: seq<Path>)
    ensures Filter(fs, xs, false) == xs
  {
    if xs != [] {
      FilterKeepsAll(fs, xs[1..]);
      assert xs == [xs[0]] + xs[1..];
    }
  }

  /**
   What the list shows: nothing for a null listing; otherwise the children in
   their order, all of them when files are allowed and exactly the directories
   among them in only-directories mode.
   */
  lemma EntriesSpec(fs: FileSystem, dir: Path)
    ensures ListFiles(fs, dir).None? ==> Entries(fs, dir, true) == [] && Entries(fs, dir, false) == []
    ensures ListFiles(fs, dir).Some? ==> Entries(fs, dir, false) == ListFiles(fs, dir).value
    ensures ListFiles(fs, dir).Some? ==> IsSubsequence(Entries(fs, dir, true), ListFiles(fs, dir).value)
    ensures forall x :: x in Entries(fs, dir, true) <==> x in Entries(fs, dir, false) && IsDirectory(fs, x)
    ensures forall x ::
              multiset(Entries(fs, dir, true))[x] ==
              (if IsDirectory(fs, x) then multiset(Entries(fs, dir, false))[x] else 0)
    ensures IsSubsequence(Entries(fs, dir, true), Entries(fs, dir, false))
  {
    if ListFiles(fs, dir).Some? {
      FilterKeepsAll(fs, ListFiles(fs, dir).value);
    }
  }

  // ------------------------------------------------------------------ clicks

  /** A click on a listed entry: a directory is entered, a file is selected. */
  function EntryClick(fs: FileSystem, s: UiState, file: Path): (r: UiState)
    ensures IsDirectory(fs, file) ==> r == SetNewFolder(fs, s, file)
    ensures IsDirectory(fs, file) ==>
      r.currentPath == file && !r.firstLoad && r.selectedFileOrDirectory == s.selectedFileOrDirectory
    ensures !IsDirectory(fs, file) ==> r == SelectFileOrDirectory(s, Some(file))
    ensures !IsDirectory(fs, file) ==>
      r.selectedFileOrDirectory == Some(file) && r.currentPath == s.currentPath && r.firstLoad == s.firstLoad
    ensures r.selectedFileOrDirectory != s.selectedFileOrDirectory ==>
      r.selectedFileOrDirectory.Some? && !IsDirectory(fs, r.selectedFileOrDirectory.value)
  {
    if IsDirectory(fs, file) then SetNewFolder(fs, s, file) else SelectFileOrDirectory(s, Some(file))
  }

  /** The current-folder label, `path.name`. */
  function CurrentLabel(p: Path): string {
    Name(p)
  }

  /** ".." and the parent tag: go to the parent, unless the current label is empty (a root). */
  function NavigateUp(fs: FileSystem, s: UiState): (r: UiState)
    ensures s.currentPath == [] ==> r == s
    ensures CurrentLabel(s.currentPath) == "" ==> r == s
    ensures CurrentLabel(s.currentPath) != "" ==>
      s.currentPath != [] && r == SetNewFolder(fs, s, s.currentPath[..|s.currentPath| - 1])
  {
    if CurrentLabel(s.currentPath) != "" then SetNewFolder(fs, s, Parent(s.currentPath).value) else s
  }

  /** The part of every composition that touches the state: mode, then once-only seeding. */
  function Recompose(fs: FileSystem, s: UiState, onlyDirectories: bool, baseDirectory: Option<Path>): UiState {
    SeedBaseDirectory(fs, SetSelectionType(s, onlyDirectories), baseDirectory)
  }

  // ------------------------------------------------------- accept and cancel

  /**
   The accept button: the current folder in only-directories mode; otherwise
   the selection if there is one, and no callback at all if there is none.
   */
  function Accept(onlyDirectories: bool, s: UiState): (r: Option<Callback>)
    ensures r.Some? <==> onlyDirectories || s.selectedFileOrDirectory.Some?
    ensures r.Some? ==> r.value.1 && r.value.0.Some?
    ensures onlyDirectories ==> r.value.0 == Some(s.currentPath)
    ensures !onlyDirectories && r.Some? ==> r.value.0 == s.selectedFileOrDirectory
  {
    if onlyDirectories then Some((Some(s.currentPath), true))
    else if s.selectedFileOrDirectory != None then Some((s.selectedFileOrDirectory, true))
    else None
  }

  /** The close icon and the cancel button: always `(null, false)`. */
  function Cancel(s: UiState): Option<Callback> {
    Some((None, false))
  }

  /** Accept and cancel can never be confused: an accepted result always carries a path. */
  lemma AcceptIsNotCancel(onlyDirectories: bool, s: UiState, t: UiState)
    ensures Cancel(s) == Cancel(t) && Cancel(s).Some? && Cancel(s).value == (None, false)
    ensures Accept(onlyDirectories, s) != Cancel(t)
  {
  }

  // ------------------------------------------------------------- breadcrumb

  /**
   The parent tag's text: the parent's name, or the parent's absolute path when
   that name is empty (the parent is the root), or the path's own absolute path
   when there is no parent.
   */
  function ParentLabel(p: Path): (r: string)
    ensures p == [] ==> r == "/"
    ensures |p| == 1 ==> r == "/"
    ensures |p| >= 2 && WellFormed(p) ==> r == p[|p| - 2]
  {
    match Parent(p)
    case None => AbsolutePath(p)
    case Some(q) => if Name(q) == "" then AbsolutePath(q) else Name(q)
  }

  /**
   Only a root has the empty current label and prints as "/"; at a root the
   parent tags do nothing; the parent label is "/" exactly one level below the
   root or at it.
   */
  lemma RootLabels(fs: FileSystem, s: UiState)
    requires WellFormed(s.currentPath)
    ensures CurrentLabel(s.currentPath) == "" <==> s.currentPath == []
    ensures s.currentPath == [] ==> NavigateUp(fs, s) == s
    ensures ParentLabel(s.currentPath) == "/" <==> |s.currentPath| <= 1
  {
  }

  /**
   Entering a listed sub-directory and then clicking ".." comes back to the
   folder one started from.
   */
  lemma EnterThenUp(fs: FileSystem, s: UiState, onlyDirectories: bool, c: Path)
    requires Valid(fs) && IsDirectory(fs, s.currentPath)
    requires c in Entries(fs, s.currentPath, onlyDirectories) && IsDirectory(fs, c)
    ensures EntryClick(fs, s, c).currentPath == c
    ensures NavigateUp(fs, EntryClick(fs, s, c)).currentPath == s.currentPath
  {
    var d := s.currentPath;
    assert ListFiles(fs, d).Some?;
    assert c in fs.listing[d];
    assert ChildOf(c, d);
    assert c[|d|] != "" by { assert WellFormed([c[|d|]]); assert [c[|d|]][0] == c[|d|]; }
    assert CurrentLabel(c) == c[|d|];
    assert c[..|c| - 1] == d;
  }

  /** In only-directories mode every listed entry is a directory, so a click on it always navigates. */
  lemma OnlyDirectoriesClickNavigates(fs: FileSystem, s: UiState, c: Path)
    requires c in Entries(fs, s.currentPath, true)
    ensures EntryClick(fs, s, c).currentPath == c
    ensures EntryClick(fs, s, c).selectedFileOrDirectory == s.selectedFileOrDirectory
  {
  }

  // ---------------------------------------------------------- event handlers

  /** The state-changing prologue of the composable: `setSelectionType`, then the guarded seeding. */
  method Compose(vm: FileChooserViewModel, fs: FileSystem, onlyDirectories: bool, baseDirectory: Option<Path>)
    modifies vm
    ensures vm.uiState == Recompose(fs, old(vm.uiState), onlyDirectories, baseDirectory)
  {
    vm.SetSelectionType(onlyDirectories);
    if baseDirectory.Some? && vm.uiState.firstLoad {
      vm.SetNewFolder(fs, baseDirectory.value);
    }
  }

  method OnEntryClick(vm: FileChooserViewModel, fs: FileSystem, file: Path)
    modifies vm
    ensures vm.uiState == EntryClick(fs, old(vm.uiState), file)
  {
    if IsDirectory(fs, file) {
      vm.SetNewFolder(fs, file);
    } else {
      vm.SelectFileOrDirectory(Some(file));
    }
  }

  method OnHomeClick(vm: FileChooserViewModel, fs: FileSystem, userDir: Path)
    modifies vm
    ensures vm.uiState == SetNewFolder(fs, old(vm.uiState), userDir)
  {
    vm.SetNewFolder(fs, userDir);
  }

  /** Shared by the ".." tag and the parent-name tag. */
  method OnParentClick(vm: FileChooserViewModel, fs: FileSystem)
    modifies vm
    ensures vm.uiState == NavigateUp(fs, old(vm.uiState))
  {
    var path := vm.uiState.currentPath;
    if CurrentLabel(path) != "" {
      vm.SetNewFolder(fs, Parent(path).value);
    }
  }
}
