/**
 `FileChooserViewModel`: the single mutable holder of the dialog's state. Each
 method replaces the held `UiState` by a copy with some fields changed, as the
 functions of `ChooserState` describe.
 */
module ViewModel {
  import opened Wrappers
  import opened FileSystem
  import opened ChooserState

  class FileChooserViewModel {
    var uiState: UiState

    /** The lazily created initial state: the working directory, first load, files selectable, no selection. */
    constructor (userDir: Path)
      ensures uiState == Initial(userDir)
      ensures uiState.currentPath == userDir && uiState.firstLoad
      ensures uiState.fileSelection && uiState.selectedFileOrDirectory.None?
    {
      uiState := UiState(userDir, true, true, None);
    }

    method SetSelectionType(onlyDirectories: bool)
      modifies this
      ensures uiState == ChooserState.SetSelectionType(old(uiState), onlyDirectories)
      ensures uiState.fileSelection == !onlyDirectories
      ensures uiState.currentPath == old(uiState).currentPath && uiState.firstLoad == old(uiState).firstLoad
      ensures uiState.selectedFileOrDirectory == old(uiState).selectedFileOrDirectory
    {
      uiState := uiState.(fileSelection := !onlyDirectories);
    }

    method SetNewFolder(fs: FileSystem, folder: Path)
      modifies this
      ensures uiState == ChooserState.SetNewFolder(fs, old(uiState), folder)
      ensures !IsDirectory(fs, folder) ==> uiState == old(uiState)
      ensures IsDirectory(fs, folder) ==> uiState.currentPath == folder && !uiState.firstLoad
      ensures uiState.fileSelection == old(uiState).fileSelection
      ensures uiState.selectedFileOrDirectory == old(uiState).selectedFileOrDirectory
    {
      if IsDirectory(fs, folder) {
        uiState := uiState.(currentPath := folder, firstLoad := false);
      }
    }

    method SelectFileOrDirectory(selected: Option<Path>)
      modifies this
      ensures uiState == ChooserState.SelectFileOrDirectory(old(uiState), selected)
      ensures uiState.selectedFileOrDirectory == selected
      ensures uiState.currentPath == old(uiState).currentPath && uiState.firstLoad == old(uiState).firstLoad
      ensures uiState.fileSelection == old(uiState).fileSelection
    {
      uiState := uiState.(selectedFileOrDirectory := selected);
    }
  }
}
