/** `DriveUpload`: the uploader that mirrors a local image directory into
    Google Drive. Folders are looked up or created through a cache keyed by
    parent and name; the local tree is walked directories first, in name
    order, skipping hidden entries. The Drive service is an oracle: what it
    answers to each listing, folder creation and upload is given, and the
    uploader records the requests it sends. */
module DriveUpload {
  import opened Wrappers
  import opened Text

  // ----- the local tree -----

  /** An entry of a local directory. `denied` says that listing the
      directory raises `PermissionError`. */
  datatype Node = File(name: string) | Dir(name: string, denied: bool, children: seq<Node>)

  /** Hidden entries and `__pycache__` are not uploaded. */
  predicate Skipped(name: string) {
    StartsWith(name, ".") || name == "__pycache__"
  }

  /** Python's `a <= b` on strings: code point by code point, a prefix
      first. */
  predicate LexLe(a: string, b: string) {
    a == [] || (b != [] && (a[0] < b[0] || (a[0] == b[0] && LexLe(a[1..], b[1..]))))
  }

  lemma {:induction false} LexLeTotal(a: string, b: string)
    ensures LexLe(a, b) || LexLe(b, a)
  {
    if a != [] && b != [] && a[0] == b[0] {
      LexLeTotal(a[1..], b[1..]);
    }
  }

  /** The sort key `(not x.is_dir(), x.name)`: directories before files,
      then by name. */
  predicate KeyLe(a: Node, b: Node) {
    if a.Dir? != b.Dir? then a.Dir? else LexLe(a.name, b.name)
  }

  lemma KeyLeTotal(a: Node, b: Node)
    ensures KeyLe(a, b) || KeyLe(b, a)
  {
    LexLeTotal(a.name, b.name);
  }

  predicate Ordered(s: seq<Node>) {
    forall i :: 0 < i < |s| ==> KeyLe(s[i - 1], s[i])
  }

  function Insert(x: Node, s: seq<Node>): (r: seq<Node>)
    ensures multiset(r) == multiset(s) + multiset{x}
    ensures forall y :: y in r <==> y == x || y in s
    ensures |r| == |s| + 1
    ensures r[0] == x || (s != [] && r[0] == s[0])
    ensures Ordered(s) ==> Ordered(r)
  {
    if s == [] then [x]
    else if KeyLe(x, s[0]) then [x] + s
    else
      var rest := Insert(x, s[1..]);
      KeyLeTotal(x, s[0]);
      assert s == [s[0]] + s[1..];
      assert Ordered(s) ==> Ordered(s[1..]) by {
        if Ordered(s) {
          forall i | 0 < i < |s[1..]| ensures KeyLe(s[1..][i - 1], s[1..][i]) {
            assert s[1..][i - 1] == s[i] && s[1..][i] == s[i + 1];
          }
        }
      }
      [s[0]] + rest
  }

  /** `sorted(dir_path.iterdir(), key=lambda x: (not x.is_dir(), x.name))` */
  function SortEntries(s: seq<Node>): (r: seq<Node>)
    ensures multiset(r) == multiset(s) && |r| == |s|
    ensures forall y :: y in r <==> y in s
    ensures Ordered(r)
  {
    if s == [] then []
    else
      assert s == [s[0]] + s[1..];
      Insert(s[0], SortEntries(s[1..]))
  }

  /** In an ordered listing every directory comes before every file. */
  lemma {:induction false} DirectoriesFirst(s: seq<Node>, i: nat, j: nat)
    requires Ordered(s) && i < j < |s| && s[j].Dir?
    ensures s[i].Dir?
    decreases j
  {
    assert KeyLe(s[j - 1], s[j]);
    if i < j - 1 {
      DirectoriesFirst(s, i, j - 1);
    }
  }

  // ----- the Drive service -----

  /** What a folder listing answers: the ids of the folders found, or an
      `HttpError`. */
  datatype ListReply = Listed(ids: seq<string>) | ListFailed(message: string)

  datatype FolderMeta = FolderMeta(name: string, parents: seq<string>)

  /** The `id` of the created folder, which may be missing, or an
      `HttpError`. */
  datatype CreateReply = Created(id: Option<string>) | CreateFailed(message: string)

  datatype FileMeta = FileMeta(name: string, parents: seq<string>)

  datatype UploadReply = Uploaded(id: Option<string>) | UploadFailed(message: string)

  datatype Drive = Drive(list: string -> ListReply, create: FolderMeta -> CreateReply, upload: FileMeta -> UploadReply)

  datatype Request = ListRequest(query: string) | CreateRequest(folder: FolderMeta) | UploadRequest(file: FileMeta)

  /** `f"{parent_id}:{name}"`, where a missing parent prints as `None`. */
  function CacheKey(parent: Option<string>, name: string): string {
    (match parent case None => "None" case Some(p) => p) + ":" + name
  }

  /** Two cache keys differ whenever their pairs do, as long as no parent
      id holds a colon or is the text `None`: the key is split at its first
      colon. */
  lemma CacheKeyInjective(p1: Option<string>, n1: string, p2: Option<string>, n2: string)
    requires p1.Some? ==> ':' !in p1.value && p1.value != "None"
    requires p2.Some? ==> ':' !in p2.value && p2.value != "None"
    requires CacheKey(p1, n1) == CacheKey(p2, n2)
    ensures p1 == p2 && n1 == n2
  {
    var a := match p1 case None => "None" case Some(p) => p;
    var b := match p2 case None => "None" case Some(p) => p;
    var k := CacheKey(p1, n1);
    assert ':' !in a && ':' !in b;
    assert k[|a|] == ':' && k[|b|] == ':';
    assert a == k[..|a|] && b == k[..|b|];
    assert n1 == k[|a| + 1..] && n2 == k[|b| + 1..];
  }

  /** `if parent_id:` then the parent is named, else the item goes to the
      root. */
  function Parents(parent: Option<string>): seq<string> {
    if parent.Some? && parent.value != "" then [parent.value] else []
  }

  function FolderQuery(name: string, parent: Option<string>): string {
    "name='" + name + "' and mimeType='application/vnd.google-apps.folder' and trashed=false"
      + (if parent.Some? && parent.value != "" then " and '" + parent.value + "' in parents" else "")
  }

  // ----- the uploader's state -----

  datatype UploadStats = UploadStats(folders: nat, files: nat, failed: nat, skipped: nat)

  const NoUploadStats := UploadStats(0, 0, 0, 0)

  /** The folder cache, the requests sent so far and the statistics. */
  datatype St = St(cache: map<string, Option<string>>, sent: seq<Request>, stats: UploadStats)

  /** `create_folder`: the cached id when the key is cached; otherwise a
      listing, whose first id is cached and returned, or, when it finds
      nothing or fails, a creation, whose id is cached and returned; a
      failing creation is an error. */
  function FolderLookup(st: St, name: string, parent: Option<string>, drive: Drive): (St, Result<Option<string>, string>) {
    var key := CacheKey(parent, name);
    if key in st.cache then (st, Ok(st.cache[key]))
    else
      var query := FolderQuery(name, parent);
      var listed := st.(sent := st.sent + [ListRequest(query)]);
      var reply := drive.list(query);
      if reply.Listed? && reply.ids != [] then
        (listed.(cache := listed.cache[key := Some(reply.ids[0])]), Ok(Some(reply.ids[0])))
      else
        var meta := FolderMeta(name, Parents(parent));
        var created := listed.(sent := listed.sent + [CreateRequest(meta)]);
        match drive.create(meta)
        case Created(id) => (created.(cache := created.cache[key := id]), Ok(id))
        case CreateFailed(message) => (created, Err(message))
  }

  /** A cached pair is answered from the cache, with no request; any other
      pair is first looked up by a listing. A success leaves the id cached
      under the pair's key, a failure leaves the cache as it was, and no
      cached id is ever replaced. */
  lemma FolderLookupProperties(st: St, name: string, parent: Option<string>, drive: Drive)
    ensures var (st', r) := FolderLookup(st, name, parent, drive);
      var key := CacheKey(parent, name);
      && (key in st.cache ==> st' == st && r == Ok(st.cache[key]))
      && (key !in st.cache ==> |st'.sent| > |st.sent| && st'.sent[|st.sent|] == ListRequest(FolderQuery(name, parent)))
      && st'.sent[..|st.sent|] == st.sent
      && (r.Ok? ==> key in st'.cache && st'.cache[key] == r.value)
      && (r.Err? ==> st'.cache == st.cache)
      && (forall k :: k in st.cache ==> k in st'.cache && st'.cache[k] == st.cache[k])
      && st'.stats == st.stats
  {
  }

  /** The lookup neither reads nor writes the statistics. */
  lemma LookupIgnoresStats(st: St, stats: UploadStats, name: string, parent: Option<string>, drive: Drive)
    ensures var a := FolderLookup(st, name, parent, drive);
      FolderLookup(st.(stats := stats), name, parent, drive) == (a.0.(stats := stats), a.1)
  {
  }

  function AddSkipped(s: UploadStats): UploadStats {
    s.(skipped := s.skipped + 1)
  }

  function AddFolder(s: UploadStats): UploadStats {
    s.(folders := s.folders + 1)
  }

  /** A file counts as uploaded when Drive answered with a non-empty id. */
  predicate UploadOk(reply: UploadReply) {
    reply.Uploaded? && reply.id.Some? && reply.id.value != ""
  }

  function AddFile(s: UploadStats, ok: bool): UploadStats {
    if ok then s.(files := s.files + 1) else s.(failed := s.failed + 1)
  }

  /** `process_directory` on `dir`, uploading into `folder`: the new state,
      and the error that stopped the walk, if any. */
  function Visit(st: St, dir: Node, folder: Option<string>, drive: Drive): (St, Option<string>)
    requires dir.Dir?
    decreases dir, 2
  {
    if dir.denied then (st, None)
    else Items(st, dir, SortEntries(dir.children), 0, folder, drive)
  }

  /** The loop over the sorted items of `dir`, from item `i` on; the first
      error ends it. */
  function Items(st: St, dir: Node, items: seq<Node>, i: nat, folder: Option<string>, drive: Drive): (St, Option<string>)
    requires dir.Dir? && forall x :: x in items ==> x in dir.children
    decreases dir, 1, |items| - i
  {
    if i >= |items| then (st, None)
    else
      assert items[i] in dir.children;
      var (st1, e) := ItemStep(st, dir, items[i], folder, drive);
      if e.Some? then (st1, e) else Items(st1, dir, items, i + 1, folder, drive)
  }

  /** One item of the loop: a hidden entry is skipped; a directory gets its
      folder, which is then walked; a file is uploaded. */
  function ItemStep(st: St, dir: Node, item: Node, folder: Option<string>, drive: Drive): (St, Option<string>)
    requires dir.Dir? && item in dir.children
    decreases dir, 0
  {
    if Skipped(item.name) then (st.(stats := AddSkipped(st.stats)), None)
    else if item.Dir? then SubdirStep(st, item, folder, drive)
    else (FileStep(st, item.name, folder, drive), None)
  }

  /** A directory of the loop: its folder is looked up or created, counted,
      and walked. */
  function SubdirStep(st: St, sub: Node, folder: Option<string>, drive: Drive): (St, Option<string>)
    requires sub.Dir?
    decreases sub, 3
  {
    var lookup := FolderLookup(st, sub.name, folder, drive);
    if lookup.1.Err? then (lookup.0, Some(lookup.1.error))
    else Visit(lookup.0.(stats := AddFolder(lookup.0.stats)), sub, lookup.1.value, drive)
  }

  /** A file of the loop: one upload request, counted as uploaded or
      failed. */
  function FileStep(st: St, name: string, folder: Option<string>, drive: Drive): St {
    var meta := FileMeta(name, Parents(folder));
    St(st.cache, st.sent + [UploadRequest(meta)], AddFile(st.stats, UploadOk(drive.upload(meta))))
  }

  // ----- what the statistics count -----

  /** Directories, files and skipped entries met by a walk. */
  datatype Tally = Tally(dirs: nat, files: nat, skipped: nat)

  function Plus(a: Tally, b: Tally): Tally {
    Tally(a.dirs + b.dirs, a.files + b.files, a.skipped + b.skipped)
  }

  /** What an entry contributes, seen from its parent: a skipped entry is
      one skip whatever it is; a directory is one folder plus what its
      listing holds (nothing when it cannot be listed); a file is one file. */
  function TallyOf(n: Node): Tally
    decreases n, 1
  {
    if Skipped(n.name) then Tally(0, 0, 1)
    else match n
      case File(_) => Tally(0, 1, 0)
      case Dir(_, denied, children) =>
        if denied then Tally(1, 0, 0) else Plus(Tally(1, 0, 0), TallyAll(n, children))
  }

  /** The sum over the entries `ns` of directory `d`. */
  function TallyAll(d: Node, ns: seq<Node>): Tally
    requires d.Dir?
    requires forall x :: x in ns ==> x in d.children
    decreases d, 0, |ns|
  {
    if ns == [] then Tally(0, 0, 0)
    else
      assert ns[0] in d.children;
      Plus(TallyOf(ns[0]), TallyAll(d, ns[1..]))
  }

  /** The sum does not depend on the order of the entries. */
  lemma {:induction false} TallyAllPermutation(d: Node, a: seq<Node>, b: seq<Node>)
    requires d.Dir? && (forall x :: x in a ==> x in d.children) && (forall x :: x in b ==> x in d.children)
    requires multiset(a) == multiset(b)
    ensures TallyAll(d, a) == TallyAll(d, b)
    decreases |a|
  {
    if a != [] {
      assert a[0] in multiset(b);
      var j :| 0 <= j < |b| && b[j] == a[0];
      RemoveMatched(a, b, j);
      TallyAllPermutation(d, a[1..], b[..j] + b[j + 1..]);
      TallyAllRemove(d, b, j);
    }
  }

  /** Taking the first entry of `a` out of `b` leaves equal multisets. */
  lemma RemoveMatched<T>(a: seq<T>, b: seq<T>, j: nat)
    requires multiset(a) == multiset(b) && a != [] && j < |b| && b[j] == a[0]
    ensures multiset(a[1..]) == multiset(b[..j] + b[j + 1..])
    ensures forall x :: x in b[..j] + b[j + 1..] ==> x in b
  {
    var b' := b[..j] + b[j + 1..];
    assert b == b[..j] + [b[j]] + b[j + 1..];
    assert multiset(b') == multiset(b) - multiset{a[0]};
    assert a == [a[0]] + a[1..];
    forall x | x in b' ensures x in b {
      assert x in multiset(b');
    }
  }

  lemma {:induction false} TallyAllRemove(d: Node, b: seq<Node>, j: nat)
    requires d.Dir? && (forall x :: x in b ==> x in d.children) && j < |b|
    ensures forall x :: x in b[..j] + b[j + 1..] ==> x in d.children
    ensures TallyAll(d, b) == Plus(TallyOf(b[j]), TallyAll(d, b[..j] + b[j + 1..]))
    decreases j
  {
    if j > 0 {
      var rest := b[1..];
      TallyAllRemove(d, rest, j - 1);
      assert rest[..j - 1] + rest[j..] == (b[..j] + b[j + 1..])[1..];
      assert (b[..j] + b[j + 1..])[0] == b[0];
    } else {
      assert b[..j] + b[j + 1..] == b[1..];
    }
  }

  /** Every file is counted once, as uploaded or as failed; every directory
      reached is one folder; every hidden entry one skip. */
  predicate Counted(before: UploadStats, after: UploadStats, t: Tally) {
    && after.folders == before.folders + t.dirs
    && after.files + after.failed == before.files + before.failed + t.files
    && after.skipped == before.skipped + t.skipped
  }

  lemma {:induction false} VisitCounts(st: St, dir: Node, folder: Option<string>, drive: Drive)
    requires dir.Dir?
    ensures var (st', e) := Visit(st, dir, folder, drive);
      e.None? ==> Counted(st.stats, st'.stats, if dir.denied then Tally(0, 0, 0) else TallyAll(dir, dir.children))
    decreases dir, 2
  {
    if !dir.denied {
      var items := SortEntries(dir.children);
      ItemsCounts(st, dir, items, 0, folder, drive);
      TallyAllPermutation(dir, items, dir.children);
      assert items[0..] == items;
    }
  }

  lemma {:induction false} ItemsCounts(st: St, dir: Node, items: seq<Node>, i: nat, folder: Option<string>, drive: Drive)
    requires dir.Dir? && forall x :: x in items ==> x in dir.children
    requires i <= |items|
    ensures var (st', e) := Items(st, dir, items, i, folder, drive);
      e.None? ==> Counted(st.stats, st'.stats, TallyAll(dir, items[i..]))
    decreases dir, 1, |items| - i
  {
    if i < |items| {
      assert items[i] in dir.children;
      assert items[i..][0] == items[i] && items[i..][1..] == items[i + 1..];
      ItemStepCounts(st, dir, items[i], folder, drive);
      var (st1, e) := ItemStep(st, dir, items[i], folder, drive);
      if e.None? {
        ItemsCounts(st1, dir, items, i + 1, folder, drive);
      }
    }
  }

  lemma {:induction false} ItemStepCounts(st: St, dir: Node, item: Node, folder: Option<string>, drive: Drive)
    requires dir.Dir? && item in dir.children
    ensures var (st', e) := ItemStep(st, dir, item, folder, drive);
      e.None? ==> Counted(st.stats, st'.stats, TallyOf(item))
    decreases dir, 0
  {
    if !Skipped(item.name) && item.Dir? {
      SubdirCounts(st, item, folder, drive);
    }
  }

  lemma {:induction false} SubdirCounts(st: St, sub: Node, folder: Option<string>, drive: Drive)
    requires sub.Dir? && !Skipped(sub.name)
    ensures var (st', e) := SubdirStep(st, sub, folder, drive);
      e.None? ==> Counted(st.stats, st'.stats, TallyOf(sub))
    decreases sub, 3
  {
    var lookup := FolderLookup(st, sub.name, folder, drive);
    FolderLookupProperties(st, sub.name, folder, drive);
    if lookup.1.Ok? {
      VisitCounts(lookup.0.(stats := AddFolder(lookup.0.stats)), sub, lookup.1.value, drive);
    }
  }

  /** A directory that cannot be listed is skipped alone: nothing changes
      and the walk goes on. */
  lemma DeniedIsSkipped(st: St, name: string, children: seq<Node>, folder: Option<string>, drive: Drive)
    ensures Visit(st, Dir(name, true, children), folder, drive) == (st, None)
  {
  }

  // ----- the uploader -----

  class GoogleDriveUploader {
    /** `folder_cache` */
    var folderCache: map<string, Option<string>>
    /** The requests sent to Drive, in order. */
    var sent: seq<Request>
    const drive: Drive

    constructor (drive: Drive)
      ensures folderCache == map[] && sent == [] && this.drive == drive
    {
      this.drive := drive;
      folderCache := map[];
      sent := [];
    }

    function Now(stats: UploadStats): St
      reads this
    {
      St(folderCache, sent, stats)
    }

    /** `create_folder` */
    method CreateFolder(name: string, parent: Option<string>) returns (r: Result<Option<string>, string>)
      modifies this
      ensures (Now(NoUploadStats), r) == FolderLookup(old(Now(NoUploadStats)), name, parent, drive)
    {
      var key := CacheKey(parent, name);
      if key in folderCache {
        return Ok(folderCache[key]);
      }
      var query := FolderQuery(name, parent);
      sent := sent + [ListRequest(query)];
      var reply := drive.list(query);
      if reply.Listed? && reply.ids != [] {
        var folderId := reply.ids[0];
        folderCache := folderCache[key := Some(folderId)];
        return Ok(Some(folderId));
      }
      var meta := FolderMeta(name, Parents(parent));
      sent := sent + [CreateRequest(meta)];
      match drive.create(meta)
      case Created(id) =>
        folderCache := folderCache[key := id];
        r := Ok(id);
      case CreateFailed(message) =>
        r := Err(message);
    }

    /** `upload_file`: the id Drive gave the file, if it gave one. */
    method UploadFile(name: string, parent: Option<string>) returns (id: Option<string>)
      modifies this
      ensures folderCache == old(folderCache)
      ensures sent == old(sent) + [UploadRequest(FileMeta(name, Parents(parent)))]
      ensures var reply := drive.upload(FileMeta(name, Parents(parent)));
        id == if reply.Uploaded? then reply.id else None
    {
      var meta := FileMeta(name, Parents(parent));
      sent := sent + [UploadRequest(meta)];
      match drive.upload(meta)
      case Uploaded(fileId) => id := fileId;
      case UploadFailed(_) => id := None;
    }

    /** `process_directory`: the statistics after the walk, and the error
        that stopped it, if any. */
    method ProcessDirectory(dir: Node, folder: Option<string>, stats: UploadStats) returns (stats': UploadStats, error: Option<string>)
      requires dir.Dir?
      modifies this
      ensures (Now(stats'), error) == Visit(old(Now(stats)), dir, folder, drive)
      decreases dir, 2
    {
      if dir.denied {
        return stats, None;
      }
      var items := SortEntries(dir.children);
      stats', error := ProcessItems(dir, items, folder, stats);
    }

    /** The loop of `process_directory` over the sorted items. */
    method ProcessItems(dir: Node, items: seq<Node>, folder: Option<string>, stats: UploadStats)
      returns (stats': UploadStats, error: Option<string>)
      requires dir.Dir? && forall x :: x in items ==> x in dir.children
      modifies this
      ensures (Now(stats'), error) == Items(old(Now(stats)), dir, items, 0, folder, drive)
      decreases dir, 1
    {
      ghost var goal := Items(Now(stats), dir, items, 0, folder, drive);
      stats' := stats;
      error := None;
      var i := 0;
      while i < |items|
        invariant 0 <= i <= |items| && error.None?
        invariant Items(Now(stats'), dir, items, i, folder, drive) == goal
      {
        assert items[i] in dir.children;
        stats', error := ProcessItem(dir, items[i], folder, stats');
        if error.Some? {
          return;
        }
        i := i + 1;
      }
    }

    /** One pass of that loop. */
    method ProcessItem(dir: Node, item: Node, folder: Option<string>, stats: UploadStats)
      returns (stats': UploadStats, error: Option<string>)
      requires dir.Dir? && item in dir.children
      modifies this
      ensures (Now(stats'), error) == ItemStep(old(Now(stats)), dir, item, folder, drive)
      decreases dir, 0
    {
      if Skipped(item.name) {
        return AddSkipped(stats), None;
      }
      if item.Dir? {
        stats', error := ProcessSubdirectory(item, folder, stats);
      } else {
        stats' := ProcessFile(item.name, folder, stats);
        error := None;
      }
    }

    /** A directory of that loop. */
    method ProcessSubdirectory(sub: Node, folder: Option<string>, stats: UploadStats)
      returns (stats': UploadStats, error: Option<string>)
      requires sub.Dir?
      modifies this
      ensures (Now(stats'), error) == SubdirStep(old(Now(stats)), sub, folder, drive)
      decreases sub, 3
    {
      var r := CreateFolder(sub.name, folder);
      LookupIgnoresStats(old(Now(NoUploadStats)), stats, sub.name, folder, drive);
      if r.Err? {
        return stats, Some(r.error);
      }
      stats', error := ProcessDirectory(sub, r.value, AddFolder(stats));
    }

    /** A file of that loop. */
    method ProcessFile(name: string, folder: Option<string>, stats: UploadStats) returns (stats': UploadStats)
      modifies this
      ensures Now(stats') == FileStep(old(Now(stats)), name, folder, drive)
    {
      var fileId := UploadFile(name, folder);
      stats' := AddFile(stats, fileId.Some? && fileId.value != "");
    }

    /** `upload_directory`: nothing happens for a path that does not exist;
        otherwise the root folder is looked up or created under `parent`
        and the directory is walked into it. A path that is not a directory
        raises when it is listed. */
    method UploadDirectory(local: Option<Node>, localName: string, parent: Option<string>, rootFolderName: Option<string>)
      returns (r: Result<UploadStats, string>)
      modifies this
      ensures local.None? ==> r == Ok(NoUploadStats) && sent == old(sent) && folderCache == old(folderCache)
      ensures local.Some? ==>
        var folderName := if rootFolderName.Some? && rootFolderName.value != "" then rootFolderName.value else localName;
        var (st1, root) := FolderLookup(old(Now(NoUploadStats)), folderName, parent, drive);
        match root
        case Err(e) => r == Err(e) && Now(NoUploadStats) == st1
        case Ok(id) =>
          if local.value.File? then r.Err? && Now(NoUploadStats) == st1
          else
            var (st2, e) := Visit(st1, local.value, id, drive);
            && folderCache == st2.cache && sent == st2.sent
            && r == (if e.Some? then Err(e.value) else Ok(st2.stats))
    {
      if local.None? {
        return Ok(NoUploadStats);
      }
      var folderName := if rootFolderName.Some? && rootFolderName.value != "" then rootFolderName.value else localName;
      var root := CreateFolder(folderName, parent);
      if root.Err? {
        return Err(root.error);
      }
      if local.value.File? {
        return Err("Not a directory: " + localName);
      }
      var stats, error := ProcessDirectory(local.value, root.value, NoUploadStats);
      if error.Some? {
        return Err(error.value);
      }
      r := Ok(stats);
    }
  }
}
