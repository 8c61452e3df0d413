/**
 * The records the folder browser works on: the children of a directory as the
 * file system reports them, and the entries of a listing (FolderObject,
 * FileObject and the synthetic parent link, all BaseFileObjects in the app).
 */
module Entries {
  import opened Wrappers

  /** The tag fields a TagInfo holds; each text field may be null. */
  datatype TagInfo = TagInfo(
    trackNumber: int,
    artistName: Option<string>,
    albumName: Option<string>,
    trackName: Option<string>)

  /** What a cast to FileObject would find on an entry that is not a file (it never happens in a listing). */
  const NoTag: TagInfo := TagInfo(0, None, None, None)

  /**
   * One child of the directory being listed, with everything the browser asks the
   * file system and its helpers about it:
   * path = FileHelper.getPath(file), name = file.getName(),
   * title = FileHelper.getName(file.getName()) (the name without extension),
   * extension = FileHelper.getExtension(file.getName()) ("" also stands for null),
   * length = file.length(),
   * listing = isDirectory() of each child that the directory's own filtered
   * listFiles returns (None when listFiles returns null),
   * tag = what new TagInfo(path) reads.
   */
  datatype Child = Child(
    path: string,
    name: string,
    title: string,
    extension: string,
    isDirectory: bool,
    length: int,
    listing: Option<seq<bool>>,
    tag: TagInfo)

  /** A row of a listing, tagged by its FileType. */
  datatype Entry =
    | Folder(path: string, name: string, folderCount: int, fileCount: int)
    | File(path: string, name: string, size: int, extension: string, tagInfo: TagInfo)
    | Parent(path: string, name: string)
  {
    /** BaseFileObject.size: a file's length, 0 for the other kinds. */
    function Size(): int { if File? then size else 0 }

    function Tag(): TagInfo { if File? then tagInfo else NoTag }

    function FolderCount(): int { if Folder? then folderCount else 0 }

    function FileCount(): int { if Folder? then fileCount else 0 }
  }

  /**
   * A directory handed to loadDir: path = File.getPath(), helperPath =
   * FileHelper.getPath(file), isRoot = FileHelper.isRootDirectory(file).
   */
  datatype Dir = Dir(path: string, helperPath: string, isRoot: bool)
}
