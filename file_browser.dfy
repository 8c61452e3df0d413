/**
 * The FileBrowser object (FileBrowser.java:20-319): it remembers the directory
 * it last loaded, reads and writes the folder-browser preferences, and builds a
 * directory's listing with loops over the children the file system returns.
 */
module Browser {
  import opened Wrappers
  import opened Entries
  import opened Comparators
  import opened StableSort
  import opened DirectoryListing
  import opened InitialDir

  /** The drawable getHomeDirIcon returns. */
  datatype HomeDirIcon = FolderOutline | FolderRemove | FolderNav

  /** The string resource getHomeDirTitle returns. */
  datatype HomeDirTitle = SetHomeDirTitle | RemoveHomeDirTitle | NavHomeDirTitle

  class FileBrowser {
    /** The directory loadDir last loaded; null until the first load. */
    var currentDir: Option<Dir>
    /** The preferences the SettingsManager holds. */
    var settings: Settings

    constructor (settings: Settings)
      ensures this.settings == settings && currentDir == None
    {
      this.settings := settings;
      currentDir := None;
    }

    /** countFolders: how many entries of a listing are directories. */
    method CountFolders(files: seq<bool>) returns (count: int)
      ensures count == multiset(files)[true]
    {
      count := 0;
      var i := 0;
      while i < |files|
        invariant 0 <= i <= |files|
        invariant count == multiset(files[..i])[true]
      {
        assert files[..i + 1] == files[..i] + [files[i]];
        if files[i] {
          count := count + 1;
        }
        i := i + 1;
      }
      assert files[..i] == files;
    }

    /** countFiles: how many entries of a listing are not directories. */
    method CountFiles(files: seq<bool>) returns (count: int)
      ensures count == multiset(files)[false]
    {
      count := 0;
      var i := 0;
      while i < |files|
        invariant 0 <= i <= |files|
        invariant count == multiset(files[..i])[false]
      {
        assert files[..i + 1] == files[..i] + [files[i]];
        if !files[i] {
          count := count + 1;
        }
        i := i + 1;
      }
      assert files[..i] == files;
    }

    /** createFolderObject: a folder entry counting what its own filtered listing holds. */
    method CreateFolderObject(file: Child) returns (folder: Entry)
      ensures folder == FolderObjectOf(file)
    {
      folder := Folder(file.path, file.name, 0, 0);
      if file.listing.Some? && |file.listing.value| > 0 {
        var folderCount := CountFolders(file.listing.value);
        var fileCount := CountFiles(file.listing.value);
        folder := folder.(folderCount := folderCount, fileCount := fileCount);
      }
    }

    /**
     * createFileObject: fills in path, name, size and extension, gives up when
     * the extension is empty, and only then attaches the tag.
     */
    method CreateFileObject(file: Child) returns (fileObject: Option<Entry>)
      ensures fileObject == FileObjectOf(file)
    {
      var entry := File(file.path, file.title, file.length, file.extension, NoTag);
      if entry.extension == "" {
        return None;
      }
      entry := entry.(tagInfo := file.tag);
      fileObject := Some(entry);
    }

    /** createBaseFileObject: a folder entry for a directory, else a file entry. */
    method CreateBaseFileObject(file: Child) returns (entry: Option<Entry>)
      ensures entry == EntryOf(file)
    {
      if file.isDirectory {
        var folder := CreateFolderObject(file);
        entry := Some(folder);
      } else {
        entry := CreateFileObject(file);
      }
    }

    /**
     * processFiles: each kept child's entry, folders in one list and files in
     * the other, both in listing order; together they are the kept entries.
     */
    method ProcessFiles(files: seq<Child>) returns (folderObjects: seq<Entry>, fileObjects: seq<Entry>)
      ensures folderObjects == FolderObjects(files) && fileObjects == FileObjects(files)
      ensures multiset(folderObjects) + multiset(fileObjects) == multiset(KeptEntries(files))
      ensures forall e :: e in folderObjects ==> e.Folder?
      ensures forall e :: e in fileObjects ==> e.File?
    {
      folderObjects := [];
      fileObjects := [];
      var i := 0;
      while i < |files|
        invariant 0 <= i <= |files|
        invariant folderObjects == FolderObjects(files[..i])
        invariant fileObjects == FileObjects(files[..i])
      {
        assert files[..i + 1][..i] == files[..i];
        var entry := CreateBaseFileObject(files[i]);
        if entry.Some? {
          if entry.value.Folder? {
            folderObjects := folderObjects + [entry.value];
          } else {
            fileObjects := fileObjects + [entry.value];
          }
        }
        i := i + 1;
      }
      assert files[..i] == files;
      ProcessFilesPartitions(files);
    }

    /** sortFolderObjects: the stable sorts the folder order selects, one after the other. */
    method SortFolderObjects(folders: seq<Entry>) returns (sorted: seq<Entry>)
      ensures sorted == SortFolders(folders, settings.foldersSortOrder)
    {
      sorted := folders;
      match settings.foldersSortOrder {
        case CountOrder =>
          sorted := Sort(sorted, FileCount);
          sorted := Sort(sorted, FolderCount);
        case DefaultFolderOrder =>
          sorted := Sort(sorted, FileName);
      }
    }

    /** sortFileObjects: the stable sorts the file order selects, one after the other. */
    method SortFileObjects(files: seq<Entry>) returns (sorted: seq<Entry>)
      ensures sorted == SortFiles(files, settings.filesSortOrder)
    {
      sorted := files;
      match settings.filesSortOrder {
        case SizeOrder => sorted := Sort(sorted, Size);
        case FileNameOrder => sorted := Sort(sorted, FileName);
        case ArtistNameOrder => sorted := Sort(sorted, ArtistName);
        case AlbumNameOrder => sorted := Sort(sorted, AlbumName);
        case TrackNameOrder => sorted := Sort(sorted, TrackName);
        case DefaultFileOrder =>
          sorted := Sort(sorted, TrackNumber);
          sorted := Sort(sorted, AlbumName);
          sorted := Sort(sorted, ArtistName);
      }
    }

    /**
     * sortAndAddObjects: the folder and file lists sorted and oriented by the
     * preferences, folders first, behind a parent link unless the current
     * directory is a root.
     */
    method SortAndAddObjects(folderObjects: seq<Entry>, fileObjects: seq<Entry>) returns (listing: seq<Entry>)
      requires currentDir.Some?
      ensures listing == Arrange(currentDir.value, folderObjects, fileObjects, settings)
    {
      var st := settings;
      var dir := currentDir.value;
      var files := SortFileObjects(fileObjects);
      var folders := SortFolderObjects(folderObjects);
      if !st.filesAscending {
        files := Reverse(files);
      }
      if !st.foldersAscending {
        folders := Reverse(folders);
      }
      listing := folders + files;
      if !dir.isRoot {
        listing := [ParentObject(dir)] + listing;
      }
      ArrangeGroups(dir, folderObjects, fileObjects, st);
    }

    /**
     * loadDir: remembers the directory and returns its listing; files is what
     * the filtered listFiles returned, None for a null array.
     */
    method LoadDir(directory: Dir, files: Option<seq<Child>>) returns (listing: seq<Entry>)
      modifies this
      ensures currentDir == Some(directory) && settings == old(settings)
      ensures listing == Listing(directory, files, settings)
    {
      currentDir := Some(directory);
      var folderObjects: seq<Entry> := [];
      var fileObjects: seq<Entry> := [];
      if files.Some? {
        folderObjects, fileObjects := ProcessFiles(files.value);
      }
      listing := SortAndAddObjects(folderObjects, fileObjects);
    }

    /**
     * getInitialDir: the saved directory if it exists, else the storage
     * heuristic as the code writes it, which falls back to the default.
     */
    function GetInitialDir(p: Platform): (r: Option<string>)
      reads this
      ensures settings.initialDir.Some? && settings.initialDir.value in p.existing ==> r == settings.initialDir
      ensures !(settings.initialDir.Some? && settings.initialDir.value in p.existing) ==>
                r == InitialDirFromStorageAsWritten(p)
      ensures r.None? <==> InitialDirFromSettings(settings.initialDir, p).None? && NoMatch(p, "/", "storage") && !p.mounted
    {
      var fromSettings := InitialDirFromSettings(settings.initialDir, p);
      if fromSettings.Some? then fromSettings
      else
        StorageHeuristicAsWrittenGlues(p);
        InitialDirFromStorageAsWritten(p)
    }

    /** getInitialDir with the storage heuristic descending into the matched children. */
    function GetInitialDirCorrected(p: Platform): (r: Option<string>)
      reads this
      ensures settings.initialDir.Some? && settings.initialDir.value in p.existing ==> r == settings.initialDir
      ensures !(settings.initialDir.Some? && settings.initialDir.value in p.existing) ==>
                r == InitialDirFromStorage(p)
      ensures r.None? <==> InitialDirFromSettings(settings.initialDir, p).None? && NoMatch(p, "/", "storage") && !p.mounted
    {
      var fromSettings := InitialDirFromSettings(settings.initialDir, p);
      if fromSettings.Some? then fromSettings
      else
        StorageHeuristicDescends(p);
        InitialDirFromStorage(p)
    }

    /** clearHomeDir: the saved directory becomes the empty path. */
    method ClearHomeDir()
      modifies this
      ensures settings == old(settings).(initialDir := Some(""))
      ensures currentDir == old(currentDir)
      ensures HasHomeDir() == Ok(false)
    {
      settings := settings.(initialDir := Some(""));
    }

    /** setHomeDir: the current directory, if any, becomes the saved directory. */
    method SetHomeDir()
      modifies this
      ensures old(currentDir).None? ==> settings == old(settings)
      ensures old(currentDir).Some? ==> settings == old(settings).(initialDir := Some(old(currentDir).value.path))
      ensures currentDir == old(currentDir)
      ensures currentDir.Some? ==> AtHomeDirectory() == Ok(true)
    {
      if currentDir.Some? {
        settings := settings.(initialDir := Some(currentDir.value.path));
      }
    }

    /** getHomeDir().getPath(); new File(null) throws. */
    function HomeDir(): (r: Result<string>)
      reads this
      ensures r.Thrown? <==> settings.initialDir.None?
      ensures r.Ok? ==> r.value == settings.initialDir.value
    {
      if settings.initialDir.None? then Thrown(NullPointer) else Ok(settings.initialDir.value)
    }

    /** hasHomeDir: the saved path is not empty. */
    function HasHomeDir(): (r: Result<bool>)
      reads this
      ensures r.Thrown? <==> settings.initialDir.None?
      ensures r == Ok(true) <==> settings.initialDir.Some? && settings.initialDir.value != ""
    {
      match HomeDir()
      case Thrown(x) => Thrown(x)
      case Ok(path) => Ok(path != "")
    }

    /** atHomeDirectory: a directory is loaded and its path is the saved one. */
    function AtHomeDirectory(): (r: Result<bool>)
      reads this
      ensures r.Thrown? <==> settings.initialDir.None?
      ensures r == Ok(true) <==> settings.initialDir.Some? && currentDir.Some? &&
                                 currentDir.value.path == settings.initialDir.value
    {
      match HomeDir()
      case Thrown(x) => Thrown(x)
      case Ok(home) => Ok(currentDir.Some? && currentDir.value.path == home)
    }

    /** getHomeDirIcon: remove at home, navigate when a home is set, else outline. */
    function HomeDirIcon(): (r: Result<HomeDirIcon>)
      reads this
      ensures r.Thrown? <==> settings.initialDir.None?
      ensures r == Ok(FolderRemove) <==> AtHomeDirectory() == Ok(true)
      ensures r == Ok(FolderNav) <==> AtHomeDirectory() == Ok(false) && HasHomeDir() == Ok(true)
      ensures r == Ok(FolderOutline) <==> AtHomeDirectory() == Ok(false) && HasHomeDir() == Ok(false)
    {
      match AtHomeDirectory()
      case Thrown(x) => Thrown(x)
      case Ok(atHome) =>
        if atHome then Ok(FolderRemove)
        else if HasHomeDir() == Ok(true) then Ok(FolderNav)
        else Ok(FolderOutline)
    }

    /** getHomeDirTitle: remove at home, navigate when a home is set, else set. */
    function HomeDirTitle(): (r: Result<HomeDirTitle>)
      reads this
      ensures r.Thrown? <==> settings.initialDir.None?
      ensures r == Ok(RemoveHomeDirTitle) <==> AtHomeDirectory() == Ok(true)
      ensures r == Ok(NavHomeDirTitle) <==> AtHomeDirectory() == Ok(false) && HasHomeDir() == Ok(true)
      ensures r == Ok(SetHomeDirTitle) <==> AtHomeDirectory() == Ok(false) && HasHomeDir() == Ok(false)
    {
      match AtHomeDirectory()
      case Thrown(x) => Thrown(x)
      case Ok(atHome) =>
        if atHome then Ok(RemoveHomeDirTitle)
        else if HasHomeDir() == Ok(true) then Ok(NavHomeDirTitle)
        else Ok(SetHomeDirTitle)
    }

    /**
     * The menu item's icon and title always describe the same action, and at
     * home the saved path is the current directory's, so a home is set unless
     * that path is empty.
     */
    lemma IconMatchesTitle()
      ensures HomeDirIcon() == Ok(FolderRemove) <==> HomeDirTitle() == Ok(RemoveHomeDirTitle)
      ensures HomeDirIcon() == Ok(FolderNav) <==> HomeDirTitle() == Ok(NavHomeDirTitle)
      ensures HomeDirIcon() == Ok(FolderOutline) <==> HomeDirTitle() == Ok(SetHomeDirTitle)
      ensures AtHomeDirectory() == Ok(true) && currentDir.value.path != "" ==> HasHomeDir() == Ok(true)
    {
    }
  }
}
