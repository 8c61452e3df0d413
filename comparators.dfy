/**
 * The comparators FileBrowser builds (FileBrowser.java:321-378) and the key
 * orders that chains of them describe.
 */
module Comparators {
  import opened Wrappers
  import opened JavaLang
  import opened Entries

  /** sizeComparator, filenameComparator, trackNumberComparator, ... */
  datatype Comparator =
    | Size | FileName | TrackNumber | FolderCount | FileCount
    | ArtistName | AlbumName | TrackName

  /** The comparators whose key is a nullable tag text. */
  predicate IsTagText(k: Comparator) {
    k.ArtistName? || k.AlbumName? || k.TrackName?
  }

  /** nullCompare on strings: a null argument orders before every non-null one. */
  function NullCompare(a: Option<string>, b: Option<string>): (r: int)
    ensures a.None? ==> r <= 0
    ensures a.None? && b.Some? ==> r < 0
    ensures b.None? ==> r >= 0
    ensures a.Some? && b.None? ==> r > 0
    ensures a.Some? && b.Some? ==> r == CompareTo(a.value, b.value)
    ensures a.None? && b.None? ==> r == 0
    ensures a.None? && b.Some? ==> r == IntMin
    ensures a.Some? && b.None? ==> r == IntMax
  {
    if a.None? && b.None? then 0
    else if a.None? then IntMin
    else if b.None? then IntMax
    else CompareTo(a.value, b.value)
  }

  /** The body shared by artistNameComparator, albumNameComparator and trackNameComparator. */
  function CompareTagText(a: Option<string>, b: Option<string>): int {
    if a.None? || b.None? then NullCompare(a, b)
    else CompareToIgnoreCase(a.value, b.value)
  }

  /** The tag text a tag-text comparator reads. */
  function TagText(k: Comparator, e: Entry): Option<string>
    requires IsTagText(k)
  {
    match k
    case ArtistName => e.Tag().artistName
    case AlbumName => e.Tag().albumName
    case TrackName => e.Tag().trackName
  }

  /** comparator.compare(lhs, rhs) for each comparator, with Java's int arithmetic. */
  function Compare(k: Comparator, lhs: Entry, rhs: Entry): int {
    match k
    case Size => Int32(rhs.Size() - lhs.Size())
    case FileName => CompareToIgnoreCase(lhs.name, rhs.name)
    case TrackNumber => Int32(lhs.Tag().trackNumber - rhs.Tag().trackNumber)
    case FolderCount => Int32(rhs.FolderCount() - lhs.FolderCount())
    case FileCount => Int32(rhs.FileCount() - lhs.FileCount())
    case ArtistName => CompareTagText(lhs.Tag().artistName, rhs.Tag().artistName)
    case AlbumName => CompareTagText(lhs.Tag().albumName, rhs.Tag().albumName)
    case TrackName => CompareTagText(lhs.Tag().trackName, rhs.Tag().trackName)
  }

  /**
   * The bound comparator k needs of an entry: the value its subtraction reads
   * stays where no difference of two such values leaves the int range. The name
   * and tag-text comparators subtract nothing and need none.
   */
  predicate BoundedFor(k: Comparator, e: Entry) {
    match k
    case Size => 0 <= e.Size() <= IntMax
    case TrackNumber => -0x4000_0000 <= e.Tag().trackNumber < 0x4000_0000
    case FolderCount => 0 <= e.FolderCount() <= IntMax
    case FileCount => 0 <= e.FileCount() <= IntMax
    case _ => true
  }

  /** Every entry of s is within comparator k's bound. */
  predicate AllBoundedFor(k: Comparator, s: seq<Entry>) {
    forall e :: e in s ==> BoundedFor(k, e)
  }

  /** Every entry of s is within the bound of every comparator of the chain keys. */
  predicate BoundedForKeys(keys: seq<Comparator>, s: seq<Entry>) {
    forall k :: k in keys ==> AllBoundedFor(k, s)
  }

  /**
   * Within the bounds no subtraction wraps: size and the two counts order
   * descending, the track number ascending, and a null tag text orders first.
   */
  lemma CompareMeaning(k: Comparator, a: Entry, b: Entry)
    requires BoundedFor(k, a) && BoundedFor(k, b)
    ensures k.Size? ==> Compare(k, a, b) == b.Size() - a.Size()
    ensures k.TrackNumber? ==> Compare(k, a, b) == a.Tag().trackNumber - b.Tag().trackNumber
    ensures k.FolderCount? ==> Compare(k, a, b) == b.FolderCount() - a.FolderCount()
    ensures k.FileCount? ==> Compare(k, a, b) == b.FileCount() - a.FileCount()
    ensures IsTagText(k) && TagText(k, a).None? && TagText(k, b).Some? ==> Compare(k, a, b) < 0
    ensures IsTagText(k) && TagText(k, a).Some? && TagText(k, b).None? ==> Compare(k, a, b) > 0
    ensures IsTagText(k) && TagText(k, a).Some? && TagText(k, b).Some? ==>
              Compare(k, a, b) == CompareToIgnoreCase(TagText(k, a).value, TagText(k, b).value)
  {
    match k
    case Size => Int32Exact(b.Size() - a.Size());
    case TrackNumber => Int32Exact(a.Tag().trackNumber - b.Tag().trackNumber);
    case FolderCount => Int32Exact(b.FolderCount() - a.FolderCount());
    case FileCount => Int32Exact(b.FileCount() - a.FileCount());
    case _ =>
  }

  /** Outside the bounds the size comparator is no order: two files each compare below the other. */
  lemma SizeCompareWrapsPastIntRange()
    ensures var small := File("a", "a", 0, "mp3", NoTag);
            var large := File("b", "b", 0x8000_0000, "mp3", NoTag);
            Compare(Size, small, large) < 0 && Compare(Size, large, small) < 0
  {
  }

  /** Swapping the entries flips the sign of every comparator. */
  lemma CompareAntisymmetric(k: Comparator, a: Entry, b: Entry)
    requires BoundedFor(k, a) && BoundedFor(k, b)
    ensures Compare(k, a, b) < 0 <==> Compare(k, b, a) > 0
    ensures Compare(k, a, b) == 0 <==> Compare(k, b, a) == 0
  {
    CompareMeaning(k, a, b);
    CompareMeaning(k, b, a);
    match k
    case FileName => CompareStringsAntisymmetric(a.name, b.name, true);
    case ArtistName => TagTextAntisymmetric(a.Tag().artistName, b.Tag().artistName);
    case AlbumName => TagTextAntisymmetric(a.Tag().albumName, b.Tag().albumName);
    case TrackName => TagTextAntisymmetric(a.Tag().trackName, b.Tag().trackName);
    case _ =>
  }

  lemma TagTextAntisymmetric(a: Option<string>, b: Option<string>)
    ensures CompareTagText(a, b) < 0 <==> CompareTagText(b, a) > 0
    ensures CompareTagText(a, b) == 0 <==> CompareTagText(b, a) == 0
  {
    if a.Some? && b.Some? {
      CompareStringsAntisymmetric(a.value, b.value, true);
    }
  }

  /** "Not after" is transitive for every comparator, so each is a total preorder on the entries within its bound. */
  lemma CompareTransitive(k: Comparator, a: Entry, b: Entry, c: Entry)
    requires BoundedFor(k, a) && BoundedFor(k, b) && BoundedFor(k, c)
    requires Compare(k, a, b) <= 0 && Compare(k, b, c) <= 0
    ensures Compare(k, a, c) <= 0
  {
    CompareMeaning(k, a, b);
    CompareMeaning(k, b, c);
    CompareMeaning(k, a, c);
    match k
    case FileName => CompareStringsTransitive(a.name, b.name, c.name, true);
    case ArtistName => TagTextTransitive(a.Tag().artistName, b.Tag().artistName, c.Tag().artistName);
    case AlbumName => TagTextTransitive(a.Tag().albumName, b.Tag().albumName, c.Tag().albumName);
    case TrackName => TagTextTransitive(a.Tag().trackName, b.Tag().trackName, c.Tag().trackName);
    case _ =>
  }

  lemma TagTextTransitive(a: Option<string>, b: Option<string>, c: Option<string>)
    requires CompareTagText(a, b) <= 0 && CompareTagText(b, c) <= 0
    ensures CompareTagText(a, c) <= 0
  {
    if a.Some? && b.Some? && c.Some? {
      CompareStringsTransitive(a.value, b.value, c.value, true);
    }
  }

  /**
   * a is not after b under the chain of comparators keys: the first comparator
   * that tells them apart puts a first, or none does.
   */
  predicate Precedes(keys: seq<Comparator>, a: Entry, b: Entry)
    decreases |keys|
  {
    || keys == []
    || Compare(keys[0], a, b) < 0
    || (Compare(keys[0], a, b) == 0 && Precedes(keys[1..], a, b))
  }

  lemma PrecedesCons(k: Comparator, keys: seq<Comparator>, a: Entry, b: Entry)
    ensures Precedes([k] + keys, a, b) <==>
              Compare(k, a, b) < 0 || (Compare(k, a, b) == 0 && Precedes(keys, a, b))
  {
    assert ([k] + keys)[0] == k && ([k] + keys)[1..] == keys;
  }

  /** Every entry is not after any later one, under the chain keys. */
  predicate SortedBy(s: seq<Entry>, keys: seq<Comparator>) {
    forall i, j :: 0 <= i < j < |s| ==> Precedes(keys, s[i], s[j])
  }

  /** Every entry is not before any later one: the order SortedBy describes, reversed. */
  predicate SortedDescendingBy(s: seq<Entry>, keys: seq<Comparator>) {
    forall i, j :: 0 <= i < j < |s| ==> Precedes(keys, s[j], s[i])
  }
}
