/**
 * How FileBrowser.getInitialDir picks the directory to open first
 * (FileBrowser.java:177-234): the saved directory if it still exists, else a
 * guess at removable storage, else the external storage directory if mounted.
 */
module InitialDir {
  import opened Wrappers
  import opened JavaLang

  /** What getInitialDir asks the platform. */
  datatype Platform = Platform(
    listings: map<string, seq<string>>,  // File.list() of each directory path; a path absent here lists as null
    existing: set<string>,               // the paths File.exists() holds for
    mounted: bool,                       // Environment.getExternalStorageState() is MEDIA_MOUNTED
    externalStorageDirectory: string)    // the path of Environment.getExternalStorageDirectory()

  /** The list filter's test on a child name: its lower-cased form contains key. */
  predicate Matches(name: string, key: string) {
    Contains(ToLowerCase(name), key)
  }

  /** The names a filtered File.list keeps, in listing order. */
  function Matching(names: seq<string>, key: string): (r: seq<string>)
    ensures forall n :: n in r <==> n in names && Matches(n, key)
    ensures r != [] ==> exists i :: 0 <= i < |names| && names[i] == r[0] &&
                                    forall j :: 0 <= j < i ==> !Matches(names[j], key)
  {
    if names == [] then []
    else if Matches(names[0], key) then [names[0]] + Matching(names[1..], key)
    else
      var rest := Matching(names[1..], key);
      assert rest != [] ==> exists i :: 1 <= i < |names| && names[i] == rest[0] &&
                                        forall j :: 0 <= j < i ==> !Matches(names[j], key) by {
        if rest != [] {
          var i :| 0 <= i < |names[1..]| && names[1..][i] == rest[0] &&
                   forall j :: 0 <= j < i ==> !Matches(names[1..][j], key);
          assert names[i + 1] == rest[0];
          assert forall j :: 0 <= j < i + 1 ==> !Matches(names[j], key) by {
            forall j | 0 <= j < i + 1 ensures !Matches(names[j], key) {
              if j > 0 {
                assert names[j] == names[1..][j - 1];
              }
            }
          }
        }
      }
      rest
  }

  /** dir.list(filter) for a directory path; a null array reads as no names. */
  function ListMatching(p: Platform, dir: string, key: string): seq<string> {
    if dir in p.listings then Matching(p.listings[dir], key) else []
  }

  /** getInitialDirFromSettings: the saved path, if there is one and it exists. */
  function InitialDirFromSettings(settingsDir: Option<string>, p: Platform): (r: Option<string>)
    ensures r.Some? <==> settingsDir.Some? && settingsDir.value in p.existing
    ensures r.Some? ==> r == settingsDir
  {
    if settingsDir.Some? && settingsDir.value in p.existing then settingsDir else None
  }

  /** getDefaultInitialDir: the external storage directory while it is mounted. */
  function DefaultInitialDir(p: Platform): (r: Option<string>)
    ensures r.Some? <==> p.mounted
    ensures r.Some? ==> r.value == p.externalStorageDirectory
  {
    if p.mounted then Some(p.externalStorageDirectory) else None
  }

  /**
   * getInitialDirFromStorage as written: each step appends the matched name to
   * the directory's path with no separator in between (`new File(dir + name)`).
   */
  function InitialDirFromStorageAsWritten(p: Platform): Option<string> {
    var storage := ListMatching(p, "/", "storage");
    if storage == [] then DefaultInitialDir(p)
    else
      var top := "/" + storage[0];
      var ext := ListMatching(p, top, "extsdcard");
      var card := if ext != [] then top + ext[0] else top;
      var music := ListMatching(p, card, "music");
      Some(if music != [] then card + music[0] else card)
  }

  /**
   * new File(new File(parent), name).getPath(): the child path of a directory,
   * the parent's path, one separator and the name.
   */
  function Join(parent: string, name: string): (r: string)
    ensures parent <= r && |parent| + |name| <= |r| <= |parent| + |name| + 1
    ensures r[|r| - |name|..] == name
    ensures |r| > |name| && r[|r| - |name| - 1] == '/'
  {
    if |parent| > 0 && parent[|parent| - 1] == '/' then parent + name else parent + "/" + name
  }

  /** The path one step of the heuristic builds: glued as written, or joined. */
  function Step(dir: string, name: string, asWritten: bool): string {
    if asWritten then dir + name else Join(dir, name)
  }

  /** child is the path of an entry the directory parent lists. */
  predicate ListedChild(p: Platform, parent: string, child: string) {
    parent in p.listings && exists n :: n in p.listings[parent] && child == Join(parent, n)
  }

  /** getInitialDirFromStorage with each step descending into the matched child. */
  function InitialDirFromStorage(p: Platform): Option<string> {
    var storage := ListMatching(p, "/", "storage");
    if storage == [] then DefaultInitialDir(p)
    else
      var top := Join("/", storage[0]);
      var ext := ListMatching(p, top, "extsdcard");
      var card := if ext != [] then Join(top, ext[0]) else top;
      var music := ListMatching(p, card, "music");
      Some(if music != [] then Join(card, music[0]) else card)
  }

  /** name is the first child of dir, in listing order, whose lower-cased form contains key. */
  predicate IsFirstMatch(p: Platform, dir: string, key: string, name: string) {
    dir in p.listings &&
    exists i :: 0 <= i < |p.listings[dir]| && p.listings[dir][i] == name && Matches(name, key) &&
                forall j :: 0 <= j < i ==> !Matches(p.listings[dir][j], key)
  }

  /** No child of dir matches key; a directory that lists as null has no children. */
  predicate NoMatch(p: Platform, dir: string, key: string) {
    dir in p.listings ==> forall n :: n in p.listings[dir] ==> !Matches(n, key)
  }

  /** The first match of a listing is unique. */
  lemma FirstMatchUnique(p: Platform, dir: string, key: string, a: string, b: string)
    requires IsFirstMatch(p, dir, key, a) && IsFirstMatch(p, dir, key, b)
    ensures a == b
  {
    var names := p.listings[dir];
    var i :| 0 <= i < |names| && names[i] == a && Matches(a, key) &&
             forall j :: 0 <= j < i ==> !Matches(names[j], key);
    var k :| 0 <= k < |names| && names[k] == b && Matches(b, key) &&
             forall j :: 0 <= j < k ==> !Matches(names[j], key);
    assert !(i < k) by {
      if i < k {
        assert false;
      }
    }
    assert !(k < i) by {
      if k < i {
        assert false;
      }
    }
  }

  /** The filtered list is empty exactly when nothing matches, and otherwise starts with the first match. */
  lemma ListMatchingFirst(p: Platform, dir: string, key: string)
    ensures ListMatching(p, dir, key) == [] <==> NoMatch(p, dir, key)
    ensures ListMatching(p, dir, key) != [] ==> IsFirstMatch(p, dir, key, ListMatching(p, dir, key)[0])
  {
    var r := ListMatching(p, dir, key);
    if r != [] {
      assert r[0] in r;
    }
  }

  /**
   * One level of the heuristic: from dir into its first child matching key,
   * or staying at dir when no child matches.
   */
  ghost predicate StepsTo(p: Platform, dir: string, key: string, next: string, asWritten: bool) {
    || (NoMatch(p, dir, key) && next == dir)
    || (exists n :: IsFirstMatch(p, dir, key, n) && next == Step(dir, n, asWritten))
  }

  /** Where the heuristic (as written, or corrected) goes from the root's first "storage" child. */
  lemma HeuristicFollowsFirstMatches(p: Platform, asWritten: bool)
    requires !NoMatch(p, "/", "storage")
    ensures var r := if asWritten then InitialDirFromStorageAsWritten(p) else InitialDirFromStorage(p);
            && r.Some?
            && exists storage, card :: && IsFirstMatch(p, "/", "storage", storage)
                                      && StepsTo(p, Step("/", storage, asWritten), "extsdcard", card, asWritten)
                                      && StepsTo(p, card, "music", r.value, asWritten)
  {
    var storage := ListMatching(p, "/", "storage");
    ListMatchingFirst(p, "/", "storage");
    var top := Step("/", storage[0], asWritten);
    assert top == if asWritten then "/" + storage[0] else Join("/", storage[0]);
    var ext := ListMatching(p, top, "extsdcard");
    ListMatchingFirst(p, top, "extsdcard");
    var card := if ext != [] then Step(top, ext[0], asWritten) else top;
    assert StepsTo(p, top, "extsdcard", card, asWritten);
    var music := ListMatching(p, card, "music");
    ListMatchingFirst(p, card, "music");
    var last := if music != [] then Step(card, music[0], asWritten) else card;
    assert StepsTo(p, card, "music", last, asWritten);
    var r := if asWritten then InitialDirFromStorageAsWritten(p) else InitialDirFromStorage(p);
    assert r == Some(last);
  }

  /**
   * getInitialDirFromStorage, corrected: without a root child containing
   * "storage" the default; otherwise a directory, reached by descending into the
   * first child containing "storage", then the first containing "extsdcard" and
   * then the first containing "music", each step skipped when nothing matches,
   * and each step a listed child of the one before.
   */
  lemma StorageHeuristicDescends(p: Platform)
    ensures NoMatch(p, "/", "storage") ==> InitialDirFromStorage(p) == DefaultInitialDir(p)
    ensures !NoMatch(p, "/", "storage") ==>
              var r := InitialDirFromStorage(p);
              && r.Some?
              && exists storage, card :: && IsFirstMatch(p, "/", "storage", storage)
                                        && StepsTo(p, Join("/", storage), "extsdcard", card, false)
                                        && StepsTo(p, card, "music", r.value, false)
  {
    ListMatchingFirst(p, "/", "storage");
    if !NoMatch(p, "/", "storage") {
      HeuristicFollowsFirstMatches(p, false);
    }
  }

  /**
   * getInitialDirFromStorage as written: the same descent through the first
   * matches, except that each step glues the name onto the path.
   */
  lemma StorageHeuristicAsWrittenGlues(p: Platform)
    ensures NoMatch(p, "/", "storage") ==> InitialDirFromStorageAsWritten(p) == DefaultInitialDir(p)
    ensures !NoMatch(p, "/", "storage") ==>
              var r := InitialDirFromStorageAsWritten(p);
              && r.Some?
              && exists storage, card :: && IsFirstMatch(p, "/", "storage", storage)
                                        && StepsTo(p, "/" + storage, "extsdcard", card, true)
                                        && StepsTo(p, card, "music", r.value, true)
  {
    ListMatchingFirst(p, "/", "storage");
    if !NoMatch(p, "/", "storage") {
      HeuristicFollowsFirstMatches(p, true);
    }
  }

  /** A step of the corrected heuristic lands on a child the directory lists. */
  lemma CorrectedStepIsListedChild(p: Platform, dir: string, key: string, next: string)
    requires StepsTo(p, dir, key, next, false) && next != dir
    ensures ListedChild(p, dir, next)
  {
    var n :| IsFirstMatch(p, dir, key, n) && next == Step(dir, n, false);
    var i :| 0 <= i < |p.listings[dir]| && p.listings[dir][i] == n && Matches(n, key) &&
             forall j :: 0 <= j < i ==> !Matches(p.listings[dir][j], key);
    assert n in p.listings[dir];
  }

  /** The lower-cased name "storage" contains "storage". */
  lemma StorageNameMatches()
    ensures Matches("storage", "storage")
  {
    assert ToLowerCase("storage") == "storage";
    assert OccursAt("storage", "storage", 0);
  }

  /** The lower-cased name "extSdCard" contains "extsdcard". */
  lemma CardNameMatches()
    ensures Matches("extSdCard", "extsdcard")
  {
    assert ToLowerCase("extSdCard") == "extsdcard";
    assert OccursAt("extsdcard", "extsdcard", 0);
  }

  /** The device of the counterexample below: / holds storage, which holds extSdCard. */
  function CardDevice(): Platform {
    Platform(map["/" := ["storage"], "/storage" := ["extSdCard"]],
             {"/", "/storage", "/storage/extSdCard"}, false, "")
  }

  lemma RootListsStorage()
    ensures ListMatching(CardDevice(), "/", "storage") == ["storage"]
  {
    StorageNameMatches();
    assert Matching(["storage"], "storage") == ["storage"];
  }

  lemma StorageListsCard()
    ensures ListMatching(CardDevice(), "/storage", "extsdcard") == ["extSdCard"]
  {
    CardNameMatches();
    assert Matching(["extSdCard"], "extsdcard") == ["extSdCard"];
  }

  /** Neither the glued nor the joined path is a directory CardDevice can list. */
  lemma CardDeviceListsNoMusic()
    ensures ListMatching(CardDevice(), "/storageextSdCard", "music") == []
    ensures ListMatching(CardDevice(), "/storage/extSdCard", "music") == []
  {
    assert "/storageextSdCard" != "/" && "/storageextSdCard" != "/storage";
    assert "/storage/extSdCard" != "/" && "/storage/extSdCard" != "/storage";
  }

  lemma CardDeviceListings()
    ensures ListMatching(CardDevice(), "/", "storage") == ["storage"]
    ensures ListMatching(CardDevice(), "/storage", "extsdcard") == ["extSdCard"]
    ensures ListMatching(CardDevice(), "/storageextSdCard", "music") == []
    ensures ListMatching(CardDevice(), "/storage/extSdCard", "music") == []
  {
    RootListsStorage();
    StorageListsCard();
    CardDeviceListsNoMusic();
  }

  /** Where the as-written heuristic ends when it finds a storage and a card directory but no music. */
  lemma AsWrittenGluesNames(p: Platform, storage: string, card: string)
    requires ListMatching(p, "/", "storage") == [storage]
    requires ListMatching(p, "/" + storage, "extsdcard") == [card]
    requires ListMatching(p, "/" + storage + card, "music") == []
    ensures InitialDirFromStorageAsWritten(p) == Some("/" + storage + card)
  {
  }

  /** Where the corrected heuristic ends when it finds a storage and a card directory but no music. */
  lemma CorrectedJoinsNames(p: Platform, storage: string, card: string)
    requires ListMatching(p, "/", "storage") == [storage]
    requires ListMatching(p, Join("/", storage), "extsdcard") == [card]
    requires ListMatching(p, Join(Join("/", storage), card), "music") == []
    ensures InitialDirFromStorage(p) == Some(Join(Join("/", storage), card))
  {
  }

  /** The paths the two heuristics build on CardDevice. */
  lemma CardDevicePaths()
    ensures "/" + "storage" == "/storage" && "/storage" + "extSdCard" == "/storageextSdCard"
    ensures Join("/", "storage") == "/storage" && Join("/storage", "extSdCard") == "/storage/extSdCard"
  {
  }

  /** The as-written heuristic on CardDevice glues the card's name onto "/storage". */
  lemma AsWrittenOnCardDevice()
    ensures InitialDirFromStorageAsWritten(CardDevice()) == Some("/storageextSdCard")
  {
    CardDevicePaths();
    CardDeviceListings();
    AsWrittenGluesNames(CardDevice(), "storage", "extSdCard");
  }

  /** The corrected heuristic on CardDevice descends into /storage/extSdCard. */
  lemma CorrectedOnCardDevice()
    ensures InitialDirFromStorage(CardDevice()) == Some("/storage/extSdCard")
  {
    CardDevicePaths();
    CardDeviceListings();
    CorrectedJoinsNames(CardDevice(), "storage", "extSdCard");
  }

  /** "/storageextSdCard" names no entry of /storage on CardDevice, and does not exist. */
  lemma GluedPathIsNoChild()
    ensures !ListedChild(CardDevice(), "/storage", "/storageextSdCard")
    ensures "/storageextSdCard" !in CardDevice().existing
  {
    var glued := "/storageextSdCard";
    var joined := Join("/storage", "extSdCard");
    assert joined == "/storage/extSdCard";
    assert glued[8] != joined[8];
    assert glued != "/storage";
    assert glued != "/";
    assert CardDevice().listings["/storage"] == ["extSdCard"];
  }

  /**
   * The as-written heuristic, on a device whose /storage holds extSdCard, returns
   * "/storageextSdCard": no entry of /storage and no existing path, where the
   * corrected one returns /storage/extSdCard.
   */
  lemma StorageHeuristicAsWrittenLosesSeparator()
    ensures InitialDirFromStorageAsWritten(CardDevice()) == Some("/storageextSdCard")
    ensures !ListedChild(CardDevice(), "/storage", "/storageextSdCard")
    ensures "/storageextSdCard" !in CardDevice().existing
    ensures InitialDirFromStorage(CardDevice()) == Some("/storage/extSdCard")
  {
    AsWrittenOnCardDevice();
    CorrectedOnCardDevice();
    GluedPathIsNoChild();
  }
}
