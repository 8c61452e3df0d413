/**
 * What FileBrowser.loadDir computes for one directory (FileBrowser.java:38-146,
 * 236-275): the children become folder and file entries, each group is sorted
 * with its comparator chain and reversed on its own when not ascending, folders
 * come before files, and a parent link heads the listing of a non-root directory.
 */
module DirectoryListing {
  import opened Wrappers
  import opened JavaLang
  import opened Entries
  import opened Comparators
  import opened StableSort

  /** SortManager.SortFolders; a code the switch does not name falls to DEFAULT. */
  datatype FolderSortOrder = CountOrder | DefaultFolderOrder

  /** SortManager.SortFiles; a code the switch does not name falls to DEFAULT. */
  datatype FileSortOrder =
    | SizeOrder | FileNameOrder | ArtistNameOrder | AlbumNameOrder | TrackNameOrder
    | DefaultFileOrder

  /** The folder-browser preferences the SettingsManager holds. */
  datatype Settings = Settings(
    initialDir: Option<string>,
    foldersSortOrder: FolderSortOrder,
    foldersAscending: bool,
    filesSortOrder: FileSortOrder,
    filesAscending: bool)

  /** FileHelper.PARENT_DIRECTORY. */
  const ParentDirectory: string := "/.."

  /** The isDirectory flags of a listing split into directories and the rest. */
  lemma {:induction false} FlagCountsAddUp(flags: seq<bool>)
    ensures multiset(flags)[true] + multiset(flags)[false] == |flags|
  {
    if flags != [] {
      var init := flags[..|flags| - 1];
      var last := flags[|flags| - 1];
      FlagCountsAddUp(init);
      assert flags == init + [last];
      assert multiset(flags) == multiset(init) + multiset{last};
      if last {
        assert multiset(flags)[false] == multiset(init)[false];
      } else {
        assert multiset(flags)[true] == multiset(init)[true];
      }
    }
  }

  /**
   * createFolderObject: the counts of sub-folders and sub-files of a directory
   * whose filtered listing is non-empty; both stay 0 otherwise.
   */
  function FolderObjectOf(c: Child): (e: Entry)
    ensures e.Folder? && e.path == c.path && e.name == c.name
    ensures e.folderCount == multiset(c.listing.GetOr([]))[true]
    ensures e.fileCount == multiset(c.listing.GetOr([]))[false]
    ensures e.folderCount + e.fileCount == |c.listing.GetOr([])|
  {
    var listing := c.listing.GetOr([]);
    FlagCountsAddUp(listing);
    if c.listing.Some? && |listing| > 0 then
      Folder(c.path, c.name, multiset(listing)[true], multiset(listing)[false])
    else
      Folder(c.path, c.name, 0, 0)
  }

  /** createFileObject: no entry for a file whose extension is empty. */
  function FileObjectOf(c: Child): (r: Option<Entry>)
    ensures r.None? <==> c.extension == ""
    ensures r.Some? ==> r.value.File? && r.value.path == c.path && r.value.name == c.title
    ensures r.Some? ==> r.value.size == c.length && r.value.tagInfo == c.tag
  {
    if c.extension == "" then None
    else Some(File(c.path, c.title, c.length, c.extension, c.tag))
  }

  /** Whether a child survives into the listing: every folder, and every file with an extension. */
  predicate Keeps(c: Child) {
    c.isDirectory || c.extension != ""
  }

  /** createBaseFileObject. */
  function EntryOf(c: Child): (r: Option<Entry>)
    ensures r.Some? <==> Keeps(c)
    ensures r.Some? ==> (r.value.Folder? <==> c.isDirectory) && (r.value.File? <==> !c.isDirectory)
  {
    if c.isDirectory then Some(FolderObjectOf(c)) else FileObjectOf(c)
  }

  /** The entries of the kept children, in the order the file system lists them. */
  function KeptEntries(cs: seq<Child>): seq<Entry> {
    if cs == [] then []
    else
      var e := EntryOf(cs[|cs| - 1]);
      KeptEntries(cs[..|cs| - 1]) + (if e.Some? then [e.value] else [])
  }

  /** The folderObjects list processFiles fills. */
  function FolderObjects(cs: seq<Child>): seq<Entry> {
    if cs == [] then []
    else
      var e := EntryOf(cs[|cs| - 1]);
      FolderObjects(cs[..|cs| - 1]) + (if e.Some? && e.value.Folder? then [e.value] else [])
  }

  /** The fileObjects list processFiles fills. */
  function FileObjects(cs: seq<Child>): seq<Entry> {
    if cs == [] then []
    else
      var e := EntryOf(cs[|cs| - 1]);
      FileObjects(cs[..|cs| - 1]) + (if e.Some? && !e.value.Folder? then [e.value] else [])
  }

  /** Each child's Keeps flag, in listing order. */
  function KeptFlags(cs: seq<Child>): seq<bool> {
    seq(|cs|, i requires 0 <= i < |cs| => Keeps(cs[i]))
  }

  /** There are as many entries as kept children. */
  lemma {:induction false} KeptEntriesCount(cs: seq<Child>)
    ensures |KeptEntries(cs)| == multiset(KeptFlags(cs))[true]
  {
    if cs != [] {
      var init, last := cs[..|cs| - 1], cs[|cs| - 1];
      KeptEntriesCount(init);
      assert KeptFlags(cs) == KeptFlags(init) + [Keeps(last)];
    }
  }

  /** Each kept child's entry is in the listing. */
  lemma {:induction false} KeptChildrenListed(cs: seq<Child>)
    ensures forall c :: c in cs && Keeps(c) ==> EntryOf(c).value in KeptEntries(cs)
  {
    if cs != [] {
      var init, last := cs[..|cs| - 1], cs[|cs| - 1];
      KeptChildrenListed(init);
      assert cs == init + [last];
    }
  }

  /** Each entry in the listing is that of some child. */
  lemma {:induction false} KeptEntriesFromChildren(cs: seq<Child>)
    ensures forall e :: e in KeptEntries(cs) ==> exists c :: c in cs && EntryOf(c) == Some(e)
  {
    if cs != [] {
      var init, last := cs[..|cs| - 1], cs[|cs| - 1];
      KeptEntriesFromChildren(init);
      assert cs == init + [last];
      forall e | e in KeptEntries(cs) ensures exists c :: c in cs && EntryOf(c) == Some(e) {
        if e in KeptEntries(init) {
          var c :| c in init && EntryOf(c) == Some(e);
          assert c in cs;
        } else {
          assert last in cs;
        }
      }
    }
  }

  /**
   * Every kept child contributes its entry, and nothing else does: there are as
   * many entries as kept children, each kept child's entry is among them and
   * each entry is that of some kept child.
   */
  lemma KeptEntriesAreKeptChildren(cs: seq<Child>)
    ensures |KeptEntries(cs)| == multiset(KeptFlags(cs))[true]
    ensures forall c :: c in cs && Keeps(c) ==> EntryOf(c).value in KeptEntries(cs)
    ensures forall e :: e in KeptEntries(cs) ==> exists c :: c in cs && EntryOf(c) == Some(e)
  {
    KeptEntriesCount(cs);
    KeptChildrenListed(cs);
    KeptEntriesFromChildren(cs);
  }

  /** processFiles partitions the kept entries into folders and files. */
  lemma {:induction false} ProcessFilesPartitions(cs: seq<Child>)
    ensures forall e :: e in FolderObjects(cs) ==> e.Folder?
    ensures forall e :: e in FileObjects(cs) ==> e.File?
    ensures multiset(FolderObjects(cs)) + multiset(FileObjects(cs)) == multiset(KeptEntries(cs))
  {
    if cs != [] {
      ProcessFilesPartitions(cs[..|cs| - 1]);
    }
  }

  /** The comparator chain each folder sort order sorts by, most significant first. */
  function FolderSortKeys(order: FolderSortOrder): seq<Comparator> {
    match order
    case CountOrder => [FolderCount, FileCount]
    case DefaultFolderOrder => [FileName]
  }

  /** The comparator chain each file sort order sorts by, most significant first. */
  function FileSortKeys(order: FileSortOrder): seq<Comparator> {
    match order
    case SizeOrder => [Size]
    case FileNameOrder => [FileName]
    case ArtistNameOrder => [ArtistName]
    case AlbumNameOrder => [AlbumName]
    case TrackNameOrder => [TrackName]
    case DefaultFileOrder => [ArtistName, AlbumName, TrackNumber]
  }

  /** sortFolderObjects: COUNT is two stable sorts, by file count and then by folder count. */
  function SortFolders(s: seq<Entry>, order: FolderSortOrder): (r: seq<Entry>)
    ensures multiset(r) == multiset(s)
  {
    match order
    case CountOrder => Sort(Sort(s, FileCount), FolderCount)
    case DefaultFolderOrder => Sort(s, FileName)
  }

  /** sortFileObjects: DEFAULT is three stable sorts, by track number, album and artist. */
  function SortFiles(s: seq<Entry>, order: FileSortOrder): (r: seq<Entry>)
    ensures multiset(r) == multiset(s)
  {
    match order
    case SizeOrder => Sort(s, Size)
    case FileNameOrder => Sort(s, FileName)
    case ArtistNameOrder => Sort(s, ArtistName)
    case AlbumNameOrder => Sort(s, AlbumName)
    case TrackNameOrder => Sort(s, TrackName)
    case DefaultFileOrder => Sort(Sort(Sort(s, TrackNumber), AlbumName), ArtistName)
  }

  /**
   * The folder sorts order the group by the order's chain: COUNT
   * by folder count descending, ties by file count descending.
   */
  lemma SortFoldersOrders(s: seq<Entry>, order: FolderSortOrder)
    requires BoundedForKeys(FolderSortKeys(order), s)
    ensures SortedBy(SortFolders(s, order), FolderSortKeys(order))
  {
    match order
    case CountOrder =>
      assert FileCount in FolderSortKeys(order) && FolderCount in FolderSortKeys(order);
      var byFiles := Sort(s, FileCount);
      SortOrders(s, FileCount);
      SortKeepsBound(s, FileCount, FolderCount);
      SortRefines(byFiles, FolderCount, [FileCount]);
    case DefaultFolderOrder =>
      SortOrders(s, FileName);
  }

  /**
   * The file sorts order the group by the order's chain: DEFAULT
   * by artist, ties by album, remaining ties by ascending track number.
   */
  lemma SortFilesOrders(s: seq<Entry>, order: FileSortOrder)
    requires BoundedForKeys(FileSortKeys(order), s)
    ensures SortedBy(SortFiles(s, order), FileSortKeys(order))
  {
    match order
    case DefaultFileOrder =>
      assert TrackNumber in FileSortKeys(order);
      SortByArtistAlbumTrack(s);
    case SizeOrder =>
      assert Size in FileSortKeys(order);
      SortOrders(s, Size);
    case FileNameOrder => SortOrders(s, FileName);
    case ArtistNameOrder => SortOrders(s, ArtistName);
    case AlbumNameOrder => SortOrders(s, AlbumName);
    case TrackNameOrder => SortOrders(s, TrackName);
  }

  /** The three stable sorts of the DEFAULT file order, least significant key first. */
  lemma SortByArtistAlbumTrack(s: seq<Entry>)
    requires AllBoundedFor(TrackNumber, s)
    ensures SortedBy(Sort(Sort(Sort(s, TrackNumber), AlbumName), ArtistName), [ArtistName, AlbumName, TrackNumber])
  {
    var byTrack := Sort(s, TrackNumber);
    SortOrders(s, TrackNumber);
    var byAlbum := Sort(byTrack, AlbumName);
    SortRefines(byTrack, AlbumName, [TrackNumber]);
    assert [AlbumName] + [TrackNumber] == [AlbumName, TrackNumber];
    SortRefines(byAlbum, ArtistName, [AlbumName, TrackNumber]);
    assert [ArtistName] + [AlbumName, TrackNumber] == [ArtistName, AlbumName, TrackNumber];
  }

  /** Collections.reverse applied when the group's ascending flag is off. */
  function Orient(s: seq<Entry>, ascending: bool): (r: seq<Entry>)
    ensures multiset(r) == multiset(s)
  {
    if ascending then s else Reverse(s)
  }

  /** createParentObject for the directory being listed. */
  function ParentObject(dir: Dir): Entry {
    Parent(dir.helperPath + ParentDirectory, ParentDirectory)
  }

  /** The synthetic parent link, present unless the directory is a file-system root. */
  function Head(dir: Dir): seq<Entry> {
    if dir.isRoot then [] else [ParentObject(dir)]
  }

  /** sortAndAddObjects: sort, orient, folders then files, then the parent link in front. */
  function Arrange(dir: Dir, folders: seq<Entry>, files: seq<Entry>, st: Settings): seq<Entry> {
    Head(dir) + FolderGroup(folders, st) + FileGroup(files, st)
  }

  /** The children listFiles returned; a null array lists nothing. */
  function ChildrenOf(files: Option<seq<Child>>): seq<Child> {
    files.GetOr([])
  }

  /** loadDir(dir) for a directory whose filtered listFiles returns files. */
  function Listing(dir: Dir, files: Option<seq<Child>>, st: Settings): seq<Entry> {
    var cs := ChildrenOf(files);
    Arrange(dir, FolderObjects(cs), FileObjects(cs), st)
  }

  /** Where the folder group starts: after the parent link, if there is one. */
  function Offset(dir: Dir): nat {
    if dir.isRoot then 0 else 1
  }

  /** The groups Arrange places, each sorted and oriented. */
  function FolderGroup(folders: seq<Entry>, st: Settings): (r: seq<Entry>)
    ensures multiset(r) == multiset(folders)
  {
    Orient(SortFolders(folders, st.foldersSortOrder), st.foldersAscending)
  }

  function FileGroup(files: seq<Entry>, st: Settings): (r: seq<Entry>)
    ensures multiset(r) == multiset(files)
  {
    Orient(SortFiles(files, st.filesSortOrder), st.filesAscending)
  }

  /** Arrange, read as sortAndAddObjects builds it: the two groups joined, then the parent link put in front. */
  lemma ArrangeGroups(dir: Dir, folders: seq<Entry>, files: seq<Entry>, st: Settings)
    ensures Arrange(dir, folders, files, st) ==
              (if dir.isRoot then [] else [ParentObject(dir)]) + (FolderGroup(folders, st) + FileGroup(files, st))
  {
  }


  lemma ArrangeSplits(dir: Dir, folders: seq<Entry>, files: seq<Entry>, st: Settings)
    ensures |FolderGroup(folders, st)| == |folders| && |FileGroup(files, st)| == |files|
    ensures |Arrange(dir, folders, files, st)| == Offset(dir) + |folders| + |files|
  {
    assert |multiset(FolderGroup(folders, st))| == |multiset(folders)|;
    assert |multiset(FileGroup(files, st))| == |multiset(files)|;
  }

  /** A parent link (or none), then folders, then files. */
  lemma ConcatShape(head: seq<Entry>, fo: seq<Entry>, fi: seq<Entry>)
    requires |head| <= 1 && (forall e :: e in head ==> e.Parent?)
    requires forall e :: e in fo ==> e.Folder?
    requires forall e :: e in fi ==> e.File?
    ensures var listing := head + fo + fi;
            && (forall i :: 0 <= i < |listing| ==> (listing[i].Parent? <==> i < |head|))
            && (forall i :: |head| <= i < |head| + |fo| ==> listing[i].Folder?)
            && (forall i :: |head| + |fo| <= i < |listing| ==> listing[i].File?)
  {
    var listing := head + fo + fi;
    forall i | 0 <= i < |listing|
      ensures listing[i].Parent? <==> i < |head|
      ensures |head| <= i < |head| + |fo| ==> listing[i].Folder?
      ensures |head| + |fo| <= i ==> listing[i].File?
    {
      if i < |head| {
        assert listing[i] in head;
      } else if i < |head| + |fo| {
        assert listing[i] == fo[i - |head|];
        assert listing[i] in fo;
      } else {
        assert listing[i] == fi[i - |head| - |fo|];
        assert listing[i] in fi;
      }
    }
  }

  lemma ArrangeShape(dir: Dir, folders: seq<Entry>, files: seq<Entry>, st: Settings)
    requires forall e :: e in folders ==> e.Folder?
    requires forall e :: e in files ==> e.File?
    ensures var listing := Arrange(dir, folders, files, st);
            var off, nf := Offset(dir), |folders|;
            && |listing| == off + nf + |files|
            && (!dir.isRoot ==> listing[0] == ParentObject(dir))
            && (forall i :: 0 <= i < |listing| ==> (listing[i].Parent? <==> i < off))
            && (forall i :: off <= i < off + nf ==> listing[i].Folder?)
            && (forall i :: off + nf <= i < |listing| ==> listing[i].File?)
  {
    ArrangeSplits(dir, folders, files, st);
    var fo, fi := FolderGroup(folders, st), FileGroup(files, st);
    forall e | e in fo ensures e.Folder? {
      assert e in multiset(folders);
    }
    forall e | e in fi ensures e.File? {
      assert e in multiset(files);
    }
    ConcatShape(Head(dir), fo, fi);
  }

  /**
   * The listing holds the parent link exactly at index 0 of a non-root directory,
   * then one folder entry per folder, then one file entry per kept file.
   */
  lemma ListingShape(dir: Dir, files: Option<seq<Child>>, st: Settings)
    ensures var cs := ChildrenOf(files);
            var listing := Listing(dir, files, st);
            var off, nf := Offset(dir), |FolderObjects(cs)|;
            && |listing| == off + nf + |FileObjects(cs)|
            && (!dir.isRoot ==> listing[0] == ParentObject(dir))
            && (forall i :: 0 <= i < |listing| ==> (listing[i].Parent? <==> i < off))
            && (forall i :: off <= i < off + nf ==> listing[i].Folder?)
            && (forall i :: off + nf <= i < |listing| ==> listing[i].File?)
  {
    var cs := ChildrenOf(files);
    ProcessFilesPartitions(cs);
    ArrangeShape(dir, FolderObjects(cs), FileObjects(cs), st);
  }

  lemma ConcatTail(head: seq<Entry>, fo: seq<Entry>, fi: seq<Entry>)
    ensures multiset((head + fo + fi)[|head|..]) == multiset(fo) + multiset(fi)
  {
    assert (head + fo + fi)[|head|..] == fo + fi;
  }

  lemma ArrangePermutes(dir: Dir, folders: seq<Entry>, files: seq<Entry>, st: Settings)
    ensures Offset(dir) <= |Arrange(dir, folders, files, st)|
    ensures multiset(Arrange(dir, folders, files, st)[Offset(dir)..]) == multiset(folders) + multiset(files)
  {
    ArrangeSplits(dir, folders, files, st);
    ConcatTail(Head(dir), FolderGroup(folders, st), FileGroup(files, st));
  }

  /** Past the parent link, the listing is a permutation of the kept children's entries. */
  lemma ListingPermutes(dir: Dir, files: Option<seq<Child>>, st: Settings)
    ensures Offset(dir) <= |Listing(dir, files, st)|
    ensures multiset(Listing(dir, files, st)[Offset(dir)..]) == multiset(KeptEntries(ChildrenOf(files)))
  {
    var cs := ChildrenOf(files);
    ProcessFilesPartitions(cs);
    ArrangePermutes(dir, FolderObjects(cs), FileObjects(cs), st);
  }

  /**
   * What a child must meet for its entry to be within comparator k's bound: the
   * value k reads, on the kind of entry the child becomes (a folder's length and
   * tag and a file's listing are never read).
   */
  predicate ChildBoundFor(k: Comparator, c: Child) {
    match k
    case Size => c.isDirectory || 0 <= c.length <= IntMax
    case TrackNumber => c.isDirectory || -0x4000_0000 <= c.tag.trackNumber < 0x4000_0000
    case FolderCount => !c.isDirectory || |c.listing.GetOr([])| <= IntMax
    case FileCount => !c.isDirectory || |c.listing.GetOr([])| <= IntMax
    case _ => true
  }

  /** The entries built from children that meet k's bound are within k's bound. */
  lemma KeptEntriesBounded(cs: seq<Child>, k: Comparator)
    requires forall c :: c in cs ==> ChildBoundFor(k, c)
    ensures AllBoundedFor(k, KeptEntries(cs))
    ensures AllBoundedFor(k, FolderObjects(cs)) && AllBoundedFor(k, FileObjects(cs))
  {
    KeptEntriesAreKeptChildren(cs);
    ProcessFilesPartitions(cs);
    forall e | e in KeptEntries(cs) ensures BoundedFor(k, e) {
      var c :| c in cs && EntryOf(c) == Some(e);
    }
    forall e | e in FolderObjects(cs) ensures BoundedFor(k, e) {
      assert e in multiset(KeptEntries(cs));
    }
    forall e | e in FileObjects(cs) ensures BoundedFor(k, e) {
      assert e in multiset(KeptEntries(cs));
    }
  }

  /** A group is ordered by its chain when ascending and by the reverse of it otherwise. */
  predicate OrientedBy(s: seq<Entry>, keys: seq<Comparator>, ascending: bool) {
    if ascending then SortedBy(s, keys) else SortedDescendingBy(s, keys)
  }

  lemma OrientOrders(s: seq<Entry>, keys: seq<Comparator>, ascending: bool)
    requires SortedBy(s, keys)
    ensures OrientedBy(Orient(s, ascending), keys, ascending)
  {
    if !ascending {
      ReverseFlipsOrder(s, keys);
    }
  }

  lemma ArrangeOrder(dir: Dir, folders: seq<Entry>, files: seq<Entry>, st: Settings)
    requires BoundedForKeys(FolderSortKeys(st.foldersSortOrder), folders)
    requires BoundedForKeys(FileSortKeys(st.filesSortOrder), files)
    ensures var listing := Arrange(dir, folders, files, st);
            var off := Offset(dir);
            var end := off + |folders|;
            && off <= end <= |listing|
            && OrientedBy(listing[off..end], FolderSortKeys(st.foldersSortOrder), st.foldersAscending)
            && OrientedBy(listing[end..], FileSortKeys(st.filesSortOrder), st.filesAscending)
  {
    SortFoldersOrders(folders, st.foldersSortOrder);
    SortFilesOrders(files, st.filesSortOrder);
    OrientOrders(SortFolders(folders, st.foldersSortOrder), FolderSortKeys(st.foldersSortOrder), st.foldersAscending);
    OrientOrders(SortFiles(files, st.filesSortOrder), FileSortKeys(st.filesSortOrder), st.filesAscending);
    ArrangeSplits(dir, folders, files, st);
    var fo, fi := FolderGroup(folders, st), FileGroup(files, st);
    var listing := Arrange(dir, folders, files, st);
    var off := Offset(dir);
    assert listing[off..off + |fo|] == fo;
    assert listing[off + |fo|..] == fi;
  }

  /**
   * The folder group of the listing is ordered by the folder sort order's chain,
   * the file group by the file sort order's chain, each reversed when its
   * ascending flag is off.
   */
  lemma ListingOrder(dir: Dir, files: Option<seq<Child>>, st: Settings)
    requires forall k, c ::
               (k in FolderSortKeys(st.foldersSortOrder) + FileSortKeys(st.filesSortOrder) && c in ChildrenOf(files)) ==>
                 ChildBoundFor(k, c)
    ensures var listing := Listing(dir, files, st);
            var off := Offset(dir);
            var end := off + |FolderObjects(ChildrenOf(files))|;
            && off <= end <= |listing|
            && OrientedBy(listing[off..end], FolderSortKeys(st.foldersSortOrder), st.foldersAscending)
            && OrientedBy(listing[end..], FileSortKeys(st.filesSortOrder), st.filesAscending)
  {
    var cs := ChildrenOf(files);
    forall k | k in FolderSortKeys(st.foldersSortOrder) + FileSortKeys(st.filesSortOrder) {
      KeptEntriesBounded(cs, k);
    }
    ArrangeOrder(dir, FolderObjects(cs), FileObjects(cs), st);
  }

  lemma ArrangeFilesFlag(dir: Dir, folders: seq<Entry>, files: seq<Entry>, st: Settings)
    ensures var up := Arrange(dir, folders, files, st.(filesAscending := true));
            var down := Arrange(dir, folders, files, st.(filesAscending := false));
            var end := Offset(dir) + |folders|;
            && |up| == |down| && end <= |up|
            && down[..end] == up[..end]
            && down[end..] == Reverse(up[end..])
  {
    var asc, desc := st.(filesAscending := true), st.(filesAscending := false);
    ArrangeSplits(dir, folders, files, asc);
    ArrangeSplits(dir, folders, files, desc);
    var front := Head(dir) + FolderGroup(folders, st);
    var sfi := SortFiles(files, st.filesSortOrder);
    var up, down := Arrange(dir, folders, files, asc), Arrange(dir, folders, files, desc);
    assert FolderGroup(folders, asc) == FolderGroup(folders, st) == FolderGroup(folders, desc);
    assert up == front + sfi;
    assert down == front + Reverse(sfi);
    assert up[..|front|] == front && up[|front|..] == sfi;
    assert down[..|front|] == front && down[|front|..] == Reverse(sfi);
  }

  /**
   * Turning the files-ascending flag off reverses exactly the file group and
   * leaves the parent link and the folder group as they were.
   */
  lemma FilesFlagReversesOnlyFiles(dir: Dir, files: Option<seq<Child>>, st: Settings)
    ensures var up := Listing(dir, files, st.(filesAscending := true));
            var down := Listing(dir, files, st.(filesAscending := false));
            var end := Offset(dir) + |FolderObjects(ChildrenOf(files))|;
            && |up| == |down| && end <= |up|
            && down[..end] == up[..end]
            && down[end..] == Reverse(up[end..])
  {
    var cs := ChildrenOf(files);
    ArrangeFilesFlag(dir, FolderObjects(cs), FileObjects(cs), st);
  }

  lemma ArrangeFoldersFlag(dir: Dir, folders: seq<Entry>, files: seq<Entry>, st: Settings)
    ensures var up := Arrange(dir, folders, files, st.(foldersAscending := true));
            var down := Arrange(dir, folders, files, st.(foldersAscending := false));
            var off := Offset(dir);
            var end := off + |folders|;
            && |up| == |down| && off <= end <= |up|
            && down[..off] == up[..off]
            && down[off..end] == Reverse(up[off..end])
            && down[end..] == up[end..]
  {
    var asc, desc := st.(foldersAscending := true), st.(foldersAscending := false);
    ArrangeSplits(dir, folders, files, asc);
    ArrangeSplits(dir, folders, files, desc);
    var sfo := SortFolders(folders, st.foldersSortOrder);
    var fi := FileGroup(files, st);
    var up, down := Arrange(dir, folders, files, asc), Arrange(dir, folders, files, desc);
    assert FileGroup(files, asc) == fi && FileGroup(files, desc) == fi;
    var off, end := Offset(dir), Offset(dir) + |sfo|;
    assert up == Head(dir) + sfo + fi;
    assert down == Head(dir) + Reverse(sfo) + fi;
    assert up[..off] == Head(dir) && up[off..end] == sfo && up[end..] == fi;
    assert down[..off] == Head(dir) && down[off..end] == Reverse(sfo) && down[end..] == fi;
  }

  /**
   * Turning the folders-ascending flag off reverses exactly the folder group and
   * leaves the parent link and the file group as they were.
   */
  lemma FoldersFlagReversesOnlyFolders(dir: Dir, files: Option<seq<Child>>, st: Settings)
    ensures var up := Listing(dir, files, st.(foldersAscending := true));
            var down := Listing(dir, files, st.(foldersAscending := false));
            var off := Offset(dir);
            var end := off + |FolderObjects(ChildrenOf(files))|;
            && |up| == |down| && off <= end <= |up|
            && down[..off] == up[..off]
            && down[off..end] == Reverse(up[off..end])
            && down[end..] == up[end..]
  {
    var cs := ChildrenOf(files);
    var asc, desc := st.(foldersAscending := true), st.(foldersAscending := false);
    assert Listing(dir, files, asc) == Arrange(dir, FolderObjects(cs), FileObjects(cs), asc);
    assert Listing(dir, files, desc) == Arrange(dir, FolderObjects(cs), FileObjects(cs), desc);
    ArrangeFoldersFlag(dir, FolderObjects(cs), FileObjects(cs), st);
  }
}
