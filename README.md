# Folder browser listing (Shuttle's `FileBrowser`)

A Dafny model of the folder browser of the Shuttle music player,
`app/src/main/java/com/simplecity/amp_library/utils/FileBrowser.java`.

`loadDir` receives a directory's children, already listed through the audio filter. It then:

- turns each child into a folder entry or a file entry, dropping files without an extension;
- counts each folder's own sub-folders and sub-files;
- sorts the folders and the files with the comparator chains the preferences select, using stable sorts;
- reverses each group on its own when its ascending preference is off;
- puts the folders before the files;
- places a parent link in front unless the directory is a file-system root.

Around it the object keeps the directory it last loaded (`currentDir`) and reads or writes the preferences:

- the home directory, which can be set, cleared and queried;
- the icon and title of the home-directory menu item;
- the three-step choice of the directory to open first.

The project is organised as follows:

- `wrappers.dfy`: `Option`, and `Result`, which carries the `NullPointerException` thrown by `new File(null)`.
- `java_lang.dfy`: the Java library behaviour the comparators rely on.
  - 32-bit `int` wrap-around.
  - `String.compareTo` and `compareToIgnoreCase`, with ASCII case folding.
  - `toLowerCase` and `contains`.
- `entries.dfy`:
  - the records: a child as the file system reports it (`Child`) and the listed entries (`Entry`: folder, file, parent link).
- `comparators.dfy`:
  - the eight comparators and `nullCompare`;
  - the int-range bound each comparator needs (`BoundedFor`): one for each subtracted value, none for the name and tag-text comparators;
  - their antisymmetry and transitivity within those bounds;
  - lexicographic comparator chains (`Precedes`, `SortedBy`).
- `stable_sort.dfy`:
  - `Collections.sort`, as a stable insertion sort, with the lemma that makes successive stable sorts compose into a chain;
  - `Collections.reverse`.
- `listing.dfy`: the specification of a directory listing as functions, and the properties of the listing as lemmas.
- `initial_dir.dfy`: `getInitialDir`'s sources in order. This includes the storage heuristic as written and as corrected (see Findings). `FileBrowser.GetInitialDir` follows the code as written; `FileBrowser.GetInitialDirCorrected` uses the corrected heuristic.
- `file_browser.dfy`: the `FileBrowser` class.
  - Its fields are `currentDir` and the preferences.
  - Its methods are proved against the functions in `listing.dfy` and `initial_dir.dfy`. They are the counting loops, `processFiles`, `sortAndAddObjects`, `loadDir` and the home-directory operations.

Null ordering. The comparators sort entries whose artist, album or track name is missing FIRST. `nullCompare` returns `Integer.MIN_VALUE` when its left argument is null and the right is not, and `Integer.MAX_VALUE` the other way round. `NullCompare` states these two values, and `SortPutsNullTagsFirst` states the resulting order.

The file system, the platform's storage state and the tag reader are inputs:

- `Child` carries each child's attributes. Its `listing` holds the `isDirectory` flags of the child's own filtered listing, or `None` when `listFiles` returns null.
- `Dir` carries a directory's path and whether it is a root.
- `Platform` carries directory listings, existing paths and the mounted state.

## Model

| member | source | states |
|---|---|---|
| JavaLang.Int32 | app/src/main/java/com/simplecity/amp_library/utils/FileBrowser.java:321-339 | The `int` a subtraction comparator returns is in the 32-bit range and congruent to the true difference modulo 2^32. |
| JavaLang.Int32Exact | app/src/main/java/com/simplecity/amp_library/utils/FileBrowser.java:321-339 | A difference already in `int` range is returned unchanged. |
| JavaLang.CompareStrings | app/src/main/java/com/simplecity/amp_library/utils/FileBrowser.java:325-327 | `compareTo` and `compareToIgnoreCase`: the first differing (case-folded) character's difference, else the length difference. Its properties are in `CompareStringsAntisymmetric` and `CompareStringsTransitive`. |
| JavaLang.CompareStringsAntisymmetric | app/src/main/java/com/simplecity/amp_library/utils/FileBrowser.java:325-327 | `compareTo` and `compareToIgnoreCase` swap sign exactly when their arguments are swapped. |
| JavaLang.CompareStringsTransitive | app/src/main/java/com/simplecity/amp_library/utils/FileBrowser.java:325-327 | `a <= b` and `b <= c` under either string comparison imply `a <= c`. |
| JavaLang.ToLowerCase | app/src/main/java/com/simplecity/amp_library/utils/FileBrowser.java:207 | The lower-cased name has the same length, and each character is folded from A-Z to a-z and otherwise kept. |
| JavaLang.Contains | app/src/main/java/com/simplecity/amp_library/utils/FileBrowser.java:207 | `s.contains(sub)` holds exactly when `sub` occurs in `s` at some index. |
| Comparators.NullCompare | app/src/main/java/com/simplecity/amp_library/utils/FileBrowser.java:368-378 | Two nulls compare as 0. A null left argument against a non-null gives `Integer.MIN_VALUE`, a null right argument against a non-null gives `Integer.MAX_VALUE`, so a null always sorts first. Two non-nulls use `compareTo`. |
| Comparators.CompareTagText | app/src/main/java/com/simplecity/amp_library/utils/FileBrowser.java:341-366 | The artist, album and track-name comparators: `nullCompare` when either text is missing, else `compareToIgnoreCase`. Its properties are in `TagTextAntisymmetric`, `TagTextTransitive` and `CompareMeaning`. |
| Comparators.Compare | app/src/main/java/com/simplecity/amp_library/utils/FileBrowser.java:321-366 | The eight comparators, with the `int` wrap of the subtractions. Their meaning within the bounds is in `CompareMeaning`, the wrap outside them in `SizeCompareWrapsPastIntRange`, and the order laws in `CompareAntisymmetric` and `CompareTransitive`. |
| Comparators.CompareMeaning | app/src/main/java/com/simplecity/amp_library/utils/FileBrowser.java:321-366 | Within each comparator's own bound: size and the two counts sort descending by exact difference; track number sorts ascending; a missing tag text sorts before a present one; two present texts compare ignoring case. |
| Comparators.SizeCompareWrapsPastIntRange | app/src/main/java/com/simplecity/amp_library/utils/FileBrowser.java:321-323 | For sizes 0 and 2^31 the `(int)` cast makes each file compare below the other, so the size comparator is no order outside the bounds. |
| Comparators.CompareAntisymmetric | app/src/main/java/com/simplecity/amp_library/utils/FileBrowser.java:321-366 | For entries within the comparator's own bound (none for name and tag text), every comparator is antisymmetric in sign: `<0` one way iff `>0` the other way, and `==0` both ways. |
| Comparators.CompareTransitive | app/src/main/java/com/simplecity/amp_library/utils/FileBrowser.java:321-366 | For entries within the comparator's own bound (none for name and tag text), `<=0` under every comparator is transitive, so each comparator is a total preorder. |
| Comparators.TagTextAntisymmetric | app/src/main/java/com/simplecity/amp_library/utils/FileBrowser.java:341-378 | The null-aware text comparison swaps sign with its arguments. |
| Comparators.TagTextTransitive | app/src/main/java/com/simplecity/amp_library/utils/FileBrowser.java:341-378 | The null-aware text comparison is transitive, with nulls below every text. |
| StableSort.Insert | app/src/main/java/com/simplecity/amp_library/utils/FileBrowser.java:236-275 | The insertion step of the stable sort adds exactly one occurrence of the inserted entry. |
| StableSort.Sort | app/src/main/java/com/simplecity/amp_library/utils/FileBrowser.java:236-275 | `Collections.sort` returns a permutation of its input. |
| StableSort.InsertKeepsOrder | app/src/main/java/com/simplecity/amp_library/utils/FileBrowser.java:236-275 | Inserting an entry that precedes all others under the older keys keeps the list ordered by the new key then the older keys, for entries within the comparator's bound (none for name and tag text). |
| StableSort.SortRefines | app/src/main/java/com/simplecity/amp_library/utils/FileBrowser.java:236-275 | A stable sort by `k` of a list ordered by a chain gives a list ordered by `k`, with ties ordered by the chain, for entries within the comparator's bound (none for name and tag text). |
| StableSort.SortOrders | app/src/main/java/com/simplecity/amp_library/utils/FileBrowser.java:236-275 | The sort's result is ordered by its comparator, for entries within the comparator's bound (none for name and tag text). |
| StableSort.SortKeepsOrderedList | app/src/main/java/com/simplecity/amp_library/utils/FileBrowser.java:236-275 | Sorting a list already ordered by the comparator leaves it unchanged, as stability requires. |
| StableSort.SortPutsNullTagsFirst | app/src/main/java/com/simplecity/amp_library/utils/FileBrowser.java:341-378 | After a sort by artist, album or track name, no entry with that tag missing follows an entry that has it. |
| StableSort.Reverse | app/src/main/java/com/simplecity/amp_library/utils/FileBrowser.java:125-131 | `Collections.reverse` returns a permutation of its input. |
| StableSort.ReverseAt | app/src/main/java/com/simplecity/amp_library/utils/FileBrowser.java:125-131 | The reversed list has the same length, and element `i` is element `n-1-i` of the input. |
| StableSort.ReverseFlipsOrder | app/src/main/java/com/simplecity/amp_library/utils/FileBrowser.java:125-131 | Reversing a list ordered by a chain gives one ordered by the reverse of the chain. |
| DirectoryListing.FlagCountsAddUp | app/src/main/java/com/simplecity/amp_library/utils/FileBrowser.java:88-106 | The directories and the non-directories of a listing add up to its length. |
| DirectoryListing.FolderObjectOf | app/src/main/java/com/simplecity/amp_library/utils/FileBrowser.java:76-86 | A folder entry keeps the child's path and name, counts the directories and non-directories of its own listing, and has counts summing to that listing's length; both are 0 for a null or empty listing. |
| DirectoryListing.FileObjectOf | app/src/main/java/com/simplecity/amp_library/utils/FileBrowser.java:108-119 | There is no entry exactly when the extension is empty. Otherwise the entry keeps the child's path, name, length and tag. |
| DirectoryListing.EntryOf | app/src/main/java/com/simplecity/amp_library/utils/FileBrowser.java:68-74 | A child yields an entry exactly when it is a directory or has an extension, and the entry is a folder exactly when the child is a directory. |
| DirectoryListing.KeptEntries | app/src/main/java/com/simplecity/amp_library/utils/FileBrowser.java:55-66 | The entries of the kept children in listing order. `KeptEntriesAreKeptChildren` states one per kept child and nothing else. |
| DirectoryListing.FolderObjects | app/src/main/java/com/simplecity/amp_library/utils/FileBrowser.java:55-66 | The folder list `processFiles` fills. `ProcessFilesPartitions` states it holds only folders and, with the file list, permutes the kept entries. |
| DirectoryListing.FileObjects | app/src/main/java/com/simplecity/amp_library/utils/FileBrowser.java:55-66 | The file list `processFiles` fills. `ProcessFilesPartitions` states it holds only files. |
| DirectoryListing.KeptEntriesCount | app/src/main/java/com/simplecity/amp_library/utils/FileBrowser.java:55-66 | There are as many entries as kept children. |
| DirectoryListing.KeptChildrenListed | app/src/main/java/com/simplecity/amp_library/utils/FileBrowser.java:55-66 | Every kept child's entry is among the entries. |
| DirectoryListing.KeptEntriesFromChildren | app/src/main/java/com/simplecity/amp_library/utils/FileBrowser.java:55-66 | Every entry comes from some child. |
| DirectoryListing.KeptEntriesAreKeptChildren | app/src/main/java/com/simplecity/amp_library/utils/FileBrowser.java:55-66 | The three facts above together: one entry per kept child and nothing else. |
| DirectoryListing.ProcessFilesPartitions | app/src/main/java/com/simplecity/amp_library/utils/FileBrowser.java:55-66 | The folder list holds only folders and the file list only files. Together they are a permutation of the kept entries. |
| DirectoryListing.SortFolders | app/src/main/java/com/simplecity/amp_library/utils/FileBrowser.java:236-249 | Sorting the folders permutes them. |
| DirectoryListing.SortFiles | app/src/main/java/com/simplecity/amp_library/utils/FileBrowser.java:251-275 | Sorting the files permutes them. |
| DirectoryListing.SortFoldersOrders | app/src/main/java/com/simplecity/amp_library/utils/FileBrowser.java:236-249 | COUNT orders by folder count descending, with ties by file count descending. The default order is by name, ignoring case. COUNT holds for entries within the count comparators' bounds; the name order needs none. |
| DirectoryListing.SortFilesOrders | app/src/main/java/com/simplecity/amp_library/utils/FileBrowser.java:251-275 | The default order is by artist, then album, then ascending track number. Each single-key order is by its own comparator. The size order and DEFAULT (through the track number) hold for entries within those comparators' bounds; the name and tag-text orders need none. |
| DirectoryListing.Orient | app/src/main/java/com/simplecity/amp_library/utils/FileBrowser.java:125-131 | Orienting a group permutes it. |
| DirectoryListing.FolderGroup | app/src/main/java/com/simplecity/amp_library/utils/FileBrowser.java:121-131 | The sorted and oriented folder group is a permutation of the folders. |
| DirectoryListing.FileGroup | app/src/main/java/com/simplecity/amp_library/utils/FileBrowser.java:121-131 | The sorted and oriented file group is a permutation of the files. |
| DirectoryListing.ParentObject | app/src/main/java/com/simplecity/amp_library/utils/FileBrowser.java:140-146 | `createParentObject`: a parent link named by the parent-directory constant. `ArrangeShape` and `ListingShape` state it is at index 0 exactly for a non-root directory. |
| DirectoryListing.Arrange | app/src/main/java/com/simplecity/amp_library/utils/FileBrowser.java:121-138 | `sortAndAddObjects`' result. Its shape, permutation, order and flag behaviour are in `ArrangeShape`, `ArrangePermutes`, `ArrangeOrder`, `ArrangeFilesFlag` and `ArrangeFoldersFlag`. |
| DirectoryListing.Listing | app/src/main/java/com/simplecity/amp_library/utils/FileBrowser.java:38-53 | `loadDir`'s result. Its properties are in `ListingShape`, `ListingPermutes`, `ListingOrder`, `FilesFlagReversesOnlyFiles` and `FoldersFlagReversesOnlyFolders`. |
| DirectoryListing.ArrangeSplits | app/src/main/java/com/simplecity/amp_library/utils/FileBrowser.java:121-138 | Sorting and orienting keep each group's length, so the arrangement is as long as the parent link, the folders and the files together. |
| DirectoryListing.ArrangeShape | app/src/main/java/com/simplecity/amp_library/utils/FileBrowser.java:121-146 | The length is parent + folders + files. `createParentObject`'s entry is at index 0 exactly when the directory is not a root. Folders come before all files. |
| DirectoryListing.ListingShape | app/src/main/java/com/simplecity/amp_library/utils/FileBrowser.java:38-146 | The same shape for `loadDir`: at most one parent link, at index 0, then one folder per child folder, then one file per kept file. |
| DirectoryListing.ArrangePermutes | app/src/main/java/com/simplecity/amp_library/utils/FileBrowser.java:121-138 | Past the parent link, the arrangement is a permutation of the folders and files. |
| DirectoryListing.ListingPermutes | app/src/main/java/com/simplecity/amp_library/utils/FileBrowser.java:38-66 | Past the parent link, the listing is a permutation of the kept children's entries. |
| DirectoryListing.KeptEntriesBounded | app/src/main/java/com/simplecity/amp_library/utils/FileBrowser.java:76-119 | Children that meet a comparator's bound on the value it reads (a file's length or track number, a folder's listing length) give entries within that comparator's bound. |
| DirectoryListing.OrientOrders | app/src/main/java/com/simplecity/amp_library/utils/FileBrowser.java:125-131 | An ordered group stays ordered when ascending and is reverse-ordered when not. |
| DirectoryListing.ArrangeOrder | app/src/main/java/com/simplecity/amp_library/utils/FileBrowser.java:121-138 | The folder part is ordered by the folder chain and the file part by the file chain. Each part is reversed when its flag is off. |
| DirectoryListing.ListingOrder | app/src/main/java/com/simplecity/amp_library/utils/FileBrowser.java:38-138 | The same ordering for `loadDir`, for children within the bounds of the comparators the two sort orders use; the name and tag-text orders need none. |
| DirectoryListing.ArrangeFilesFlag | app/src/main/java/com/simplecity/amp_library/utils/FileBrowser.java:121-127 | Turning files-ascending off reverses exactly the file part and leaves the front as it was. |
| DirectoryListing.FilesFlagReversesOnlyFiles | app/src/main/java/com/simplecity/amp_library/utils/FileBrowser.java:121-127 | The same for `loadDir`'s listing. |
| DirectoryListing.ArrangeFoldersFlag | app/src/main/java/com/simplecity/amp_library/utils/FileBrowser.java:121-131 | Turning folders-ascending off reverses exactly the folder part. The parent link and the file part are unchanged. |
| DirectoryListing.FoldersFlagReversesOnlyFolders | app/src/main/java/com/simplecity/amp_library/utils/FileBrowser.java:121-131 | The same for `loadDir`'s listing. |
| InitialDir.Matching | app/src/main/java/com/simplecity/amp_library/utils/FileBrowser.java:207-221 | The filtered list holds exactly the names whose lower-cased form contains the key. Its first element is the first such name in listing order. |
| InitialDir.InitialDirFromSettings | app/src/main/java/com/simplecity/amp_library/utils/FileBrowser.java:194-203 | The saved path is returned exactly when it is non-null and exists. Otherwise the result is null. |
| InitialDir.DefaultInitialDir | app/src/main/java/com/simplecity/amp_library/utils/FileBrowser.java:229-234 | There is a default exactly when external storage is mounted, and it is the external storage directory. |
| InitialDir.Join | app/src/main/java/com/simplecity/amp_library/utils/FileBrowser.java:213-223 | The path of a directory's child, as `new File(dir, name)` forms it: the parent's path, then one separator, then the name. |
| InitialDir.FirstMatchUnique | app/src/main/java/com/simplecity/amp_library/utils/FileBrowser.java:207-221 | A listing has at most one first child matching a key. |
| InitialDir.ListMatchingFirst | app/src/main/java/com/simplecity/amp_library/utils/FileBrowser.java:207-221 | The filtered `list` is empty exactly when no child matches, and otherwise starts with the first match in listing order. |
| InitialDir.InitialDirFromStorageAsWritten | app/src/main/java/com/simplecity/amp_library/utils/FileBrowser.java:205-227 | `getInitialDirFromStorage` as written. `StorageHeuristicAsWrittenGlues` states what it returns. |
| InitialDir.InitialDirFromStorage | app/src/main/java/com/simplecity/amp_library/utils/FileBrowser.java:205-227 | `getInitialDirFromStorage` with each step descending into the matched child. `StorageHeuristicDescends` states what it returns. |
| InitialDir.HeuristicFollowsFirstMatches | app/src/main/java/com/simplecity/amp_library/utils/FileBrowser.java:205-227 | When a root child contains "storage", either version returns the path reached by taking the first match for "storage", then for "extsdcard", then for "music", skipping a level without a match. |
| InitialDir.StorageHeuristicAsWrittenGlues | app/src/main/java/com/simplecity/amp_library/utils/FileBrowser.java:205-227 | As written: without a root child containing "storage" the default. Otherwise a directory reached through the first matches at each level, each name glued onto the path with no separator. |
| InitialDir.StorageHeuristicDescends | app/src/main/java/com/simplecity/amp_library/utils/FileBrowser.java:205-227 | Corrected: without a root child containing "storage" the default. Otherwise a directory, reached by descending into the first child containing "storage", then the first containing "extsdcard", then the first containing "music", each level skipped when nothing matches. |
| InitialDir.CorrectedStepIsListedChild | app/src/main/java/com/simplecity/amp_library/utils/FileBrowser.java:213-223 | Each step of the corrected heuristic that moves lands on a child its directory lists. |
| InitialDir.AsWrittenGluesNames | app/src/main/java/com/simplecity/amp_library/utils/FileBrowser.java:205-227 | As written, a storage and a card match give the two names appended to "/" with no separator between them. |
| InitialDir.CorrectedJoinsNames | app/src/main/java/com/simplecity/amp_library/utils/FileBrowser.java:205-227 | Corrected, the same matches give the card directory's path under the storage directory. |
| InitialDir.StorageHeuristicAsWrittenLosesSeparator | app/src/main/java/com/simplecity/amp_library/utils/FileBrowser.java:213-223 | On a device whose /storage lists extSdCard, the code as written returns "/storageextSdCard". That path is not a child of /storage and does not exist. The corrected version returns /storage/extSdCard. |
| Browser.FileBrowser.constructor | app/src/main/java/com/simplecity/amp_library/utils/FileBrowser.java:27-29 | A new browser holds the given preferences and no current directory. |
| Browser.FileBrowser.CountFolders | app/src/main/java/com/simplecity/amp_library/utils/FileBrowser.java:88-96 | The loop counts the directories of the listing. |
| Browser.FileBrowser.CountFiles | app/src/main/java/com/simplecity/amp_library/utils/FileBrowser.java:98-106 | The loop counts the non-directories of the listing. |
| Browser.FileBrowser.CreateFolderObject | app/src/main/java/com/simplecity/amp_library/utils/FileBrowser.java:76-86 | Builds the folder entry `FolderObjectOf` specifies. |
| Browser.FileBrowser.CreateFileObject | app/src/main/java/com/simplecity/amp_library/utils/FileBrowser.java:108-119 | Fills in the fields, returns none for an empty extension and attaches the tag otherwise: the entry `FileObjectOf` specifies. |
| Browser.FileBrowser.CreateBaseFileObject | app/src/main/java/com/simplecity/amp_library/utils/FileBrowser.java:68-74 | Builds the entry `EntryOf` specifies. |
| Browser.FileBrowser.ProcessFiles | app/src/main/java/com/simplecity/amp_library/utils/FileBrowser.java:55-66 | The loop fills the folder and file lists in listing order. They hold only folders and only files respectively, and together they are a permutation of the kept entries. |
| Browser.FileBrowser.SortFolderObjects | app/src/main/java/com/simplecity/amp_library/utils/FileBrowser.java:236-249 | Runs the successive stable sorts of the current folder order and returns `SortFolders`' result, whose order `SortFoldersOrders` proves. |
| Browser.FileBrowser.SortFileObjects | app/src/main/java/com/simplecity/amp_library/utils/FileBrowser.java:251-275 | Runs the successive stable sorts of the current file order and returns `SortFiles`' result, whose order `SortFilesOrders` proves. |
| Browser.FileBrowser.SortAndAddObjects | app/src/main/java/com/simplecity/amp_library/utils/FileBrowser.java:121-146 | Returns the arrangement the lemmas on `Arrange` describe, for the current directory and preferences. |
| Browser.FileBrowser.LoadDir | app/src/main/java/com/simplecity/amp_library/utils/FileBrowser.java:37-53 | Sets `currentDir` to the directory and leaves the preferences unchanged. Returns the listing the lemmas on `Listing` describe; a null listing is treated as no children. |
| Browser.FileBrowser.GetInitialDir | app/src/main/java/com/simplecity/amp_library/utils/FileBrowser.java:177-192 | The existing saved directory comes first, then the storage heuristic as written, which falls back to the default. The result is null exactly when no saved directory exists, no root child contains "storage" and storage is unmounted. |
| Browser.FileBrowser.GetInitialDirCorrected | app/src/main/java/com/simplecity/amp_library/utils/FileBrowser.java:177-192 | The same resolution order with the corrected storage heuristic, and null in exactly the same cases. |
| Browser.FileBrowser.ClearHomeDir | app/src/main/java/com/simplecity/amp_library/utils/FileBrowser.java:277-279 | Stores the empty path and nothing else. Afterwards `hasHomeDir` is false. |
| Browser.FileBrowser.SetHomeDir | app/src/main/java/com/simplecity/amp_library/utils/FileBrowser.java:281-285 | Does nothing without a current directory. Otherwise stores its path, after which `atHomeDirectory` holds. |
| Browser.FileBrowser.HomeDir | app/src/main/java/com/simplecity/amp_library/utils/FileBrowser.java:287-289 | Throws `NullPointerException` exactly when no path is saved. Otherwise returns the saved path. |
| Browser.FileBrowser.HasHomeDir | app/src/main/java/com/simplecity/amp_library/utils/FileBrowser.java:291-293 | Throws exactly when no path is saved. It is true exactly when the saved path is non-empty. |
| Browser.FileBrowser.AtHomeDirectory | app/src/main/java/com/simplecity/amp_library/utils/FileBrowser.java:295-299 | Throws exactly when no path is saved. It is true exactly when a directory is loaded and its path is the saved one. |
| Browser.FileBrowser.HomeDirIcon | app/src/main/java/com/simplecity/amp_library/utils/FileBrowser.java:301-309 | The icon is "remove" when at home, "nav" when not at home with a home set, and "outline" otherwise. It throws exactly when no path is saved. |
| Browser.FileBrowser.HomeDirTitle | app/src/main/java/com/simplecity/amp_library/utils/FileBrowser.java:311-319 | The title is "remove" when at home, "nav" when not at home with a home set, and "set" otherwise. It throws exactly when no path is saved. |
| Browser.FileBrowser.IconMatchesTitle | app/src/main/java/com/simplecity/amp_library/utils/FileBrowser.java:301-319 | Icon and title always name the same action. Being at a home directory with a non-empty path implies a home is set. |

## Left out

- File-system and platform access is not modelled; its results are inputs.
  - This covers `listFiles` with the audio filter, `isDirectory`, `length`, `exists`, `list`, `Environment` and `isRootDirectory`.
  - A `Child` carries what these report for one child.
  - A `Dir` carries a directory's path and root flag.
  - A `Platform` carries the listings, the existing paths and the mounted state.
- `FileHelper` is not part of this model.
  - `getPath`, `getName` and `getExtension` are inputs (`Child.path`, `Child.title`, `Child.extension`).
  - `PARENT_DIRECTORY` is the named constant `ParentDirectory`. Its value "/.." is assumed, and no lemma depends on it.
- Reading audio tags (`new TagInfo(path)`) is not modelled; a child carries its tag fields, each possibly missing.
- `ThreadUtils.ensureNotOnMainThread` is not modelled; the model assumes the caller is on a worker thread. It guards `loadDir` and `getInitialDir` (FileBrowser.java:39, 179; both are `@WorkerThread`, lines 37 and 177).
- `SettingsManager` is a `Settings` record held in a field.
  - The sort orders' integer codes are enumerations.
  - A code the switches do not name maps to the default case, as the switches do.
- Android resource ids for the icon and title are enumerations.
- The duplicated block at FileBrowser.java:148-170 is not a valid method body. It is not modelled; `sortAndAddObjects` at lines 121-138 is.
- `getCurrentDir` is not modelled separately; it only reads the `currentDir` field.
- Comparators.Compare: a comparator applied to an entry of the other kind reads a default (size 0, no tag, counts 0) where Java would throw `ClassCastException`. The folder and file groups are proved homogeneous, so this never happens in a listing.
- StableSort.Sort: `Collections.sort` is modelled by a stable insertion sort.
  - Under the bounds each comparator is a total preorder (proved), and a stable sort by a total preorder has a unique result, so this is the list TimSort returns. That uniqueness argument is not itself proved.
  - Outside the bounds the subtraction comparators are no order (`SizeCompareWrapsPastIntRange`). There TimSort may misorder or throw; the model still returns some permutation.
- DirectoryListing.ListingOrder: for the size, count and DEFAULT file orders it requires file sizes and listing lengths within `int` range and track numbers within plus or minus 2^30, because the subtraction comparators only order entries within those bounds. File sizes are `long` in the source. The name and tag-text orders carry no bound.
- JavaLang.CompareStrings: `compareToIgnoreCase`, `toLowerCase` and `contains` fold case for ASCII letters only. Unicode case mapping is not modelled.
  - Names are modelled as sequences of code points, where Java compares UTF-16 code units. Lengths therefore count code points, and a first difference between a character above U+FFFF and one in U+E000 to U+FFFF sorts the other way round from Java.
- Browser.FileBrowser.AtHomeDirectory: compares the raw path strings. `new File(path)` normalisation (duplicate or trailing separators) is not modelled. `File.compareTo` is taken as path-string equality, as on Unix.
- InitialDir.InitialDirFromSettings: returns the saved string itself where Java returns `new File(settingsDir)`, whose path is normalised (duplicate and trailing separators removed); that normalisation is not modelled. After `clearHomeDir` the saved value is `""`, and `new File("").exists()` is false; a `Platform` is assumed not to list `""` as an existing path.
- InitialDir.Matching: the list filter's `dir1.isDirectory()` test is on the directory being listed, not on each child. It holds whenever a listing exists, so only names are filtered.
- FastBlur, PlayCountTable, ArtworkDialog, PaletteTarget, PurchasePresenter and Defs are not part of this model. They are bitmap processing, SQL strings, UI code and constants.

## Findings

| source | as written | input that shows it | evidently intended | confidence | as-written member | corrected member |
|---|---|---|---|---|---|---|
| app/src/main/java/com/simplecity/amp_library/utils/FileBrowser.java:217-223 | `new File(dir + name)` appends a matched name to the directory's path with no separator. Only the first step (line 213) works, because "/" already ends with one. | `/` lists `storage`, and `/storage` lists `extSdCard`: the result is `/storageextSdCard`, which does not exist. | Descend into the matched child, `new File(dir, name)`, giving `/storage/extSdCard`. | high; not executed | InitialDir.InitialDirFromStorageAsWritten (counterexample InitialDir.StorageHeuristicAsWrittenLosesSeparator; used by Browser.FileBrowser.GetInitialDir) | InitialDir.InitialDirFromStorage (InitialDir.StorageHeuristicDescends; used by Browser.FileBrowser.GetInitialDirCorrected) |
