/** `PinterestScraper`: the command-line Pinterest scraper. It logs in by
    the first strategy that works, stores the profile and its boards, then
    scrapes every board not processed before: its pins are inserted and
    their images downloaded into a folder named after the board. What the
    browser and the login attempts yield is given as input. */
module PinterestScraper {
  import opened Wrappers
  import opened Text
  import opened Html
  import opened Documents
  import opened Collection
  import opened MongoStore
  import opened PinterestModel
  import opened PinterestExtractor
  import IP = ImagePipeline

  // ----- authentication order -----

  datatype Login = CookieLogin | GoogleLogin | DirectLogin

  /** The logins tried, in order, whether the scraper ends up logged in, and
      whether it saved its cookies. */
  datatype AuthTrace = AuthTrace(tried: seq<Login>, loggedIn: bool, cookiesSaved: bool)

  predicate Given(s: Option<string>) {
    s.Some? && s.value != ""
  }

  /** The authentication of `scrape_profile`: cookies when a path is set;
      then, if still logged out and both credentials are given, Google and,
      should Google fail, the direct login; cookies are saved after a
      credential login succeeds. `cookiesOk`, `googleOk` and `directOk` are
      what the three logins report. */
  function ProfileAuth(cookiesPath: Option<string>, email: Option<string>, password: Option<string>,
                       cookiesOk: bool, googleOk: bool, directOk: bool): AuthTrace {
    var tried := if Given(cookiesPath) then [CookieLogin] else [];
    var loggedIn := Given(cookiesPath) && cookiesOk;
    if !loggedIn && Given(email) && Given(password) then
      var loggedIn' := googleOk || directOk;
      AuthTrace(tried + (if googleOk then [GoogleLogin] else [GoogleLogin, DirectLogin]),
                loggedIn', loggedIn' && Given(cookiesPath))
    else AuthTrace(tried, loggedIn, false)
  }

  /** Cookies come first and only with a path; Google only when they did not
      log in and both credentials are given; the direct login only after
      Google failed. Cookies are saved exactly when a credential login
      succeeded with a path set, so never after a cookie restore. */
  lemma ProfileAuthOrder(cookiesPath: Option<string>, email: Option<string>, password: Option<string>,
                         cookiesOk: bool, googleOk: bool, directOk: bool)
    ensures var t := ProfileAuth(cookiesPath, email, password, cookiesOk, googleOk, directOk);
      && (|t.tried| > 0 && t.tried[0] == CookieLogin <==> Given(cookiesPath))
      && (GoogleLogin in t.tried <==> !(Given(cookiesPath) && cookiesOk) && Given(email) && Given(password))
      && (DirectLogin in t.tried <==> GoogleLogin in t.tried && !googleOk)
      && (DirectLogin in t.tried ==> t.tried[|t.tried| - 1] == DirectLogin)
      && (t.loggedIn <==> (Given(cookiesPath) && cookiesOk) || (GoogleLogin in t.tried && (googleOk || directOk)))
      && (t.cookiesSaved <==> GoogleLogin in t.tried && t.loggedIn && Given(cookiesPath))
      && (Given(cookiesPath) && cookiesOk ==> !t.cookiesSaved)
  {
  }

  // ----- folders and downloads -----

  predicate FolderChar(c: char) {
    IsAlnum(c) || c == ' ' || c == '-' || c == '_'
  }

  /** `"".join(c for c in name if c.isalnum() or c in (' ', '-', '_')).strip()` */
  function CleanName(name: string): (r: string)
    ensures forall i :: 0 <= i < |r| ==> FolderChar(r[i])
    ensures r != [] ==> !IsSpace(r[0]) && !IsSpace(r[|r| - 1])
  {
    var kept := Filter(name, FolderChar);
    StripKeeps(kept, FolderChar);
    RStrip(LStrip(kept))
  }

  /** Cleaning a cleaned name changes nothing. */
  lemma CleanNameIdempotent(name: string)
    ensures CleanName(CleanName(name)) == CleanName(name)
  {
    var r := CleanName(name);
    FilterOfKept(r, FolderChar);
    if r != [] {
      StripOfTrimmed(r);
    }
  }

  /** `[str(pin.image_url) for pin in pins if pin.image_url]` */
  function DownloadUrls(pins: seq<PinterestPin>): (r: seq<string>)
    ensures |r| <= |pins|
    ensures forall i :: 0 <= i < |r| ==> r[i] != ""
    ensures forall u :: u in r <==> exists p :: p in pins && p.imageUrl == u && u != ""
  {
    if pins == [] then []
    else
      var init := DownloadUrls(pins[..|pins| - 1]);
      var p := pins[|pins| - 1];
      assert forall q :: q in pins <==> q in pins[..|pins| - 1] || q == p;
      if p.imageUrl != "" then init + [p.imageUrl] else init
  }

  /** `sum(1 for r in results if r.success)` */
  function Succeeded(results: seq<IP.DownloadResult>): (r: nat)
    ensures r <= |results|
  {
    if results == [] then 0
    else Succeeded(results[..|results| - 1]) + (if results[|results| - 1].success then 1 else 0)
  }

  function PinDocs(pins: seq<PinterestPin>): (r: Docs)
    ensures |r| == |pins| && forall i :: 0 <= i < |pins| ==> r[i] == PinDump(pins[i])
  {
    seq(|pins|, i requires 0 <= i < |pins| => PinDump(pins[i]))
  }

  function BoardDocs(boards: seq<PinterestBoard>): (r: Docs)
    ensures |r| == |boards| && forall i :: 0 <= i < |boards| ==> r[i] == BoardDump(boards[i])
  {
    seq(|boards|, i requires 0 <= i < |boards| => BoardDump(boards[i]))
  }

  /** `if max_boards: boards = boards[:max_boards]`: a missing or zero limit
      keeps every board. */
  function LimitBoards(boards: seq<PinterestBoard>, maxBoards: Option<int>): (r: seq<PinterestBoard>)
    ensures |r| <= |boards| && r == boards[..|r|]
  {
    if maxBoards.Some? && maxBoards.value != 0 then PyTake(boards, maxBoards.value) else boards
  }

  lemma LimitBoardsProperties(boards: seq<PinterestBoard>, maxBoards: Option<int>)
    ensures maxBoards.None? || maxBoards == Some(0) ==> LimitBoards(boards, maxBoards) == boards
    ensures maxBoards.Some? && maxBoards.value > 0 ==>
      |LimitBoards(boards, maxBoards)| == if maxBoards.value < |boards| then maxBoards.value else |boards|
  {
  }

  // ----- the board loop -----

  datatype BoardSummary = BoardSummary(name: string, pins: nat, imagesDownloaded: nat)

  datatype ProfileStats = ProfileStats(boardsScraped: nat, pinsScraped: nat, imagesDownloaded: nat, boards: seq<BoardSummary>)

  const NoStats := ProfileStats(0, 0, 0, [])

  /** What visiting one board yields: an exception before anything is
      stored, or the pin cards of the board page. */
  datatype BoardRun = BoardRaised | BoardLoaded(cards: seq<PinCard>)

  /** What stays fixed during the loop: the profile, the download root, the
      per-board pin limit, the digest and network oracles and the pins
      collection. */
  datatype Env = Env(username: string, root: string, maxPins: int,
                     md5hex: string -> string, fetch: string -> IP.Response, pinsRef: CollectionRef)

  /** Everything the loop changes: the processed board URLs, the statistics,
      the file system, the pipeline's output directory and the database. */
  datatype RunState = RunState(processed: set<string>, stats: ProfileStats, fs: IP.FsState, outputDir: string,
                               data: map<CollectionRef, Docs>)

  /** `output_dir/username/clean_name` */
  function BoardDir(root: string, username: string, board: PinterestBoard): string {
    IP.JoinPath(IP.JoinPath(root, username), CleanName(board.name))
  }

  /** The downloads of a board's images into its folder: the new file
      system and one result per URL. */
  function BoardDownload(fs: IP.FsState, board: PinterestBoard, pins: seq<PinterestPin>, env: Env): (IP.FsState, seq<IP.DownloadResult>) {
    IP.DownloadAll(fs, BoardDir(env.root, env.username, board), DownloadUrls(pins), env.md5hex, env.fetch)
  }

  /** `insert_many` of the pins into collection `c`. */
  function WithPins(data: map<CollectionRef, Docs>, c: CollectionRef, pins: seq<PinterestPin>): map<CollectionRef, Docs> {
    data[c := InsertMany(DocsAt(data, c), PinDocs(pins))]
  }

  /** `pins_scraped` and `images_downloaded` raised by a board's pins and
      its successful downloads. */
  function CountPins(stats: ProfileStats, pins: nat, ok: nat): ProfileStats {
    stats.(pinsScraped := stats.pinsScraped + pins, imagesDownloaded := stats.imagesDownloaded + ok)
  }

  /** A board with pins: the pins are inserted, the pipeline is pointed at
      the board's folder, `fs` is what downloading their images into it
      left and `ok` the number of downloads that succeeded. */
  function StorePins(st: RunState, board: PinterestBoard, pins: seq<PinterestPin>, fs: IP.FsState, ok: nat, env: Env): RunState {
    RunState(st.processed,
             CountPins(st.stats, |pins|, ok),
             fs, BoardDir(env.root, env.username, board), WithPins(st.data, env.pinsRef, pins))
  }

  /** The end of a turn that did not raise: the board is marked processed,
      counted and summarised. */
  function FinishBoard(st: RunState, board: PinterestBoard, pinCount: nat, downloaded: nat): RunState {
    st.(processed := st.processed + {board.url},
        stats := st.stats.(boardsScraped := st.stats.boardsScraped + 1,
                           boards := st.stats.boards + [BoardSummary(board.name, pinCount, downloaded)]))
  }

  /** One turn of the loop: a board processed before, or whose visit raised,
      changes nothing; otherwise its pins, if any, are stored and their
      images downloaded, and it is marked processed and summarised. */
  function BoardStep(st: RunState, board: PinterestBoard, run: BoardRun, env: Env): RunState {
    if board.url in st.processed || run.BoardRaised? then st
    else
      var pins := BoardPins(board.url, run.cards, env.maxPins);
      if pins == [] then FinishBoard(st, board, 0, 0)
      else
        var download := BoardDownload(st.fs, board, pins, env);
        FinishBoard(StorePins(st, board, pins, download.0, Succeeded(download.1), env), board, |pins|, Succeeded(download.1))
  }

  function ScrapedBoards(st: RunState, boards: seq<PinterestBoard>, runs: seq<BoardRun>, env: Env): RunState
    requires |runs| == |boards|
  {
    if boards == [] then st
    else
      var n := |boards| - 1;
      BoardStep(ScrapedBoards(st, boards[..n], runs[..n], env), boards[n], runs[n], env)
  }

  /** The statistics account for the processed boards: one scraped board and
      one summary per newly processed URL, never more images downloaded
      than pins scraped, and the set only grows. */
  predicate Accounted(init: RunState, f: RunState) {
    && init.processed <= f.processed
    && f.stats.boardsScraped == init.stats.boardsScraped + |f.processed - init.processed|
    && |f.stats.boards| == |init.stats.boards| + |f.processed - init.processed|
    && init.stats.pinsScraped <= f.stats.pinsScraped
    && f.stats.imagesDownloaded - init.stats.imagesDownloaded <= f.stats.pinsScraped - init.stats.pinsScraped
  }

  lemma {:induction false} ScrapedBoardsAccounted(st: RunState, boards: seq<PinterestBoard>, runs: seq<BoardRun>, env: Env)
    requires |runs| == |boards|
    requires st.stats.imagesDownloaded <= st.stats.pinsScraped
    ensures Accounted(st, ScrapedBoards(st, boards, runs, env))
  {
    if boards != [] {
      var n := |boards| - 1;
      var prev := ScrapedBoards(st, boards[..n], runs[..n], env);
      ScrapedBoardsAccounted(st, boards[..n], runs[..n], env);
      BoardStepAccounted(st, prev, boards[n], runs[n], env);
    }
  }

  /** One turn keeps the statistics accounted for. */
  lemma BoardStepAccounted(init: RunState, st: RunState, board: PinterestBoard, run: BoardRun, env: Env)
    requires Accounted(init, st)
    ensures Accounted(init, BoardStep(st, board, run, env))
  {
    var u := board.url;
    if u !in st.processed && !run.BoardRaised? {
      assert (st.processed + {u}) - init.processed == (st.processed - init.processed) + {u};
      assert u !in st.processed - init.processed;
    }
  }

  /** A URL joins the processed set only when its board was loaded, and a
      board whose URL was processed before the loop is never visited. */
  predicate FinishedOnly(init: RunState, f: RunState, boards: seq<PinterestBoard>, runs: seq<BoardRun>)
    requires |runs| == |boards|
  {
    forall u :: u in f.processed - init.processed ==>
      exists i :: 0 <= i < |boards| && boards[i].url == u && runs[i].BoardLoaded?
  }

  lemma {:induction false} ScrapedBoardsFinishedOnly(st: RunState, boards: seq<PinterestBoard>, runs: seq<BoardRun>, env: Env)
    requires |runs| == |boards|
    ensures FinishedOnly(st, ScrapedBoards(st, boards, runs, env), boards, runs)
  {
    if boards != [] {
      var n := |boards| - 1;
      var prev := ScrapedBoards(st, boards[..n], runs[..n], env);
      ScrapedBoardsFinishedOnly(st, boards[..n], runs[..n], env);
      forall u | u in ScrapedBoards(st, boards, runs, env).processed - st.processed
        ensures exists i :: 0 <= i < |boards| && boards[i].url == u && runs[i].BoardLoaded?
      {
        if u in prev.processed {
          assert u in prev.processed - st.processed;
          var i :| 0 <= i < |boards[..n]| && boards[..n][i].url == u && runs[..n][i].BoardLoaded?;
          assert boards[i].url == u && runs[i].BoardLoaded?;
        } else {
          assert boards[n].url == u && runs[n].BoardLoaded?;
        }
      }
    }
  }

  // ----- pins of the current page -----

  /** One card of the current page; `k` is the number of pins kept so far.
      A card that raises, has no link or href, or no image is passed over. */
  function SavedPinOf(card: PinCard, username: string, k: nat): Option<PinterestPin> {
    if card.raises || card.link.None? then None
    else match card.link.value.Get("href")
      case None => None
      case Some(href) =>
        var url := Absolute(href);
        var src := ImageSrc(card.img);
        if !Truthy(src) then None
        else Some(PinterestPin(PinId(url).GetOr("pin_" + NatToString(k)), PinTitle(card.title), None, url, src.value,
                               None, None, None, Some("saved_pins"), 0, 0, 0, None, username))
  }

  /** `_extract_pins_from_current_page` on the cards it looks at. */
  function SavedPins(cards: seq<PinCard>, username: string): (r: seq<PinterestPin>)
    ensures |r| <= |cards|
  {
    if cards == [] then []
    else
      var pins := SavedPins(cards[..|cards| - 1], username);
      match SavedPinOf(cards[|cards| - 1], username, |pins|)
      case Some(p) => pins + [p]
      case None => pins
  }

  /** Every saved pin has an image, is filed under "saved_pins" for the
      user, and a pin whose URL has no pin number is named after its
      position among the pins kept. */
  predicate SavedPinsShape(r: seq<PinterestPin>, username: string) {
    forall k :: 0 <= k < |r| ==>
      && r[k].imageUrl != "" && r[k].boardName == Some("saved_pins") && r[k].ownerUsername == username
      && r[k].id == PinId(r[k].url).GetOr("pin_" + NatToString(k))
  }

  lemma {:induction false} SavedPinsProperties(cards: seq<PinCard>, username: string)
    ensures SavedPinsShape(SavedPins(cards, username), username)
  {
    if cards != [] {
      SavedPinsProperties(cards[..|cards| - 1], username);
    }
  }

  /** The fallback ids never collide. */
  lemma FallbackIdsDistinct(cards: seq<PinCard>, username: string, k: nat, l: nat)
    requires k < l < |SavedPins(cards, username)|
    requires PinId(SavedPins(cards, username)[k].url).None? && PinId(SavedPins(cards, username)[l].url).None?
    ensures SavedPins(cards, username)[k].id != SavedPins(cards, username)[l].id
  {
    SavedPinsProperties(cards, username);
    DigitsValueOfNatToString(k);
    DigitsValueOfNatToString(l);
    var a := "pin_" + NatToString(k);
    var b := "pin_" + NatToString(l);
    assert a[4..] == NatToString(k) && b[4..] == NatToString(l);
    assert a[4..] != b[4..];
  }

  /** `_extract_pins_from_current_page`: at most `maxPins` cards, one by one. */
  method ExtractPinsFromCurrentPage(cards: seq<PinCard>, username: string, maxPins: int) returns (pins: seq<PinterestPin>)
    ensures pins == SavedPins(PyTake(cards, maxPins), username)
    ensures 0 <= maxPins ==> |pins| <= maxPins
  {
    var taken := PyTake(cards, maxPins);
    pins := [];
    var i := 0;
    while i < |taken|
      invariant 0 <= i <= |taken|
      invariant pins == SavedPins(taken[..i], username)
    {
      assert taken[..i + 1][..i] == taken[..i];
      var pin := SavedPinOf(taken[i], username, |pins|);
      if pin.Some? {
        pins := pins + [pin.value];
      }
      i := i + 1;
    }
    assert taken[..i] == taken;
  }

  // ----- the scraper -----

  class Scraper {
    /** `processed_boards` */
    var processedBoards: set<string>
    const outputDir: string
    const database: string
    const store: Store
    const pipeline: IP.ImagePipeline

    constructor (outputDir: string, database: string, store: Store, pipeline: IP.ImagePipeline)
      ensures processedBoards == {}
      ensures this.outputDir == outputDir && this.database == database && this.store == store && this.pipeline == pipeline
    {
      this.outputDir := outputDir;
      this.database := database;
      this.store := store;
      this.pipeline := pipeline;
      processedBoards := {};
    }

    function PinsRef(): CollectionRef {
      CollectionRef(database, "pinterest_pins")
    }

    function LoopEnv(username: string, maxPins: int): Env {
      Env(username, outputDir, maxPins, pipeline.md5hex, pipeline.fetch, PinsRef())
    }

    /** The state the loop reads and changes, with `stats` as its
        statistics. */
    function State(stats: ProfileStats): RunState
      reads this, store, pipeline, pipeline.fs
    {
      RunState(processedBoards, stats, pipeline.fs.state, pipeline.outputDir, store.data)
    }

    /** Storing the pins of one board and downloading their images into
        the board's folder; `ok` is the number of successful downloads. */
    method StoreBoardPins(username: string, board: PinterestBoard, pins: seq<PinterestPin>, maxPins: int) returns (ok: nat)
      modifies store, pipeline, pipeline.fs
      ensures var download := BoardDownload(old(pipeline.fs.state), board, pins, LoopEnv(username, maxPins));
        pipeline.fs.state == download.0 && ok == Succeeded(download.1)
      ensures pipeline.outputDir == BoardDir(outputDir, username, board)
      ensures store.data == WithPins(old(store.data), PinsRef(), pins)
    {
      store.Put(PinsRef(), InsertMany(store.Get(PinsRef()), PinDocs(pins)));
      pipeline.outputDir := BoardDir(outputDir, username, board);
      var results := pipeline.DownloadMany(DownloadUrls(pins));
      ok := Succeeded(results);
    }

    /** The part of a turn for a board with pins. */
    method StoreTurn(username: string, board: PinterestBoard, pins: seq<PinterestPin>, maxPins: int,
                     stats: ProfileStats) returns (stats': ProfileStats, ok: nat)
      modifies store, pipeline, pipeline.fs
      ensures ok == Succeeded(BoardDownload(old(pipeline.fs.state), board, pins, LoopEnv(username, maxPins)).1)
      ensures State(stats') == StorePins(old(State(stats)), board, pins,
                                         BoardDownload(old(pipeline.fs.state), board, pins, LoopEnv(username, maxPins)).0,
                                         ok, LoopEnv(username, maxPins))
    {
      ok := StoreBoardPins(username, board, pins, maxPins);
      stats' := CountPins(stats, |pins|, ok);
    }

    /** The end of a turn that did not raise. */
    method FinishTurn(board: PinterestBoard, pinCount: nat, ok: nat, stats: ProfileStats) returns (stats': ProfileStats)
      modifies this
      ensures State(stats') == FinishBoard(old(State(stats)), board, pinCount, ok)
    {
      processedBoards := processedBoards + {board.url};
      stats' := stats.(boardsScraped := stats.boardsScraped + 1,
                       boards := stats.boards + [BoardSummary(board.name, pinCount, ok)]);
    }

    /** One turn of the board loop. */
    method ScrapeBoard(username: string, board: PinterestBoard, run: BoardRun, maxPins: int,
                       stats: ProfileStats) returns (stats': ProfileStats)
      modifies this, store, pipeline, pipeline.fs
      ensures State(stats') == BoardStep(old(State(stats)), board, run, LoopEnv(username, maxPins))
    {
      stats' := stats;
      if board.url in processedBoards || run.BoardRaised? {
        return;
      }
      var pins := ExtractPinsFromBoard(board.url, run.cards, maxPins);
      var ok := 0;
      if pins != [] {
        stats', ok := StoreTurn(username, board, pins, maxPins, stats);
      }
      stats' := FinishTurn(board, |pins|, ok, stats');
    }

    /** The board loop of `scrape_profile`; `runs[i]` is what visiting
        `boards[i]` yields. */
    method ScrapeBoards(username: string, boards: seq<PinterestBoard>, runs: seq<BoardRun>, maxPins: int,
                        stats0: ProfileStats) returns (stats: ProfileStats)
      requires |runs| == |boards|
      modifies this, store, pipeline, pipeline.fs
      ensures State(stats) == ScrapedBoards(old(State(stats0)), boards, runs, LoopEnv(username, maxPins))
    {
      var env := LoopEnv(username, maxPins);
      ghost var init := State(stats0);
      stats := stats0;
      var i := 0;
      while i < |boards|
        invariant 0 <= i <= |boards|
        invariant State(stats) == ScrapedBoards(init, boards[..i], runs[..i], env)
      {
        assert boards[..i + 1][..i] == boards[..i] && runs[..i + 1][..i] == runs[..i];
        stats := ScrapeBoard(username, boards[i], runs[i], maxPins, stats);
        i := i + 1;
      }
      assert boards[..i] == boards && runs[..i] == runs;
    }

    /** The database writes before the loop: the profile upserted by
        username, then the boards inserted when there are any. */
    function ProfileWrites(data: map<CollectionRef, Docs>, profile: PinterestProfile, boards: seq<PinterestBoard>): map<CollectionRef, Docs> {
      var profiles := CollectionRef(database, "pinterest_profiles");
      var withProfile := data[profiles := UpsertOne(DocsAt(data, profiles), map["username" := Str(profile.username)], ProfileDump(profile))];
      var boardsRef := CollectionRef(database, "pinterest_boards");
      if boards == [] then withProfile
      else withProfile[boardsRef := InsertMany(DocsAt(withProfile, boardsRef), BoardDocs(boards))]
    }

    /** `scrape_profile`: authenticate, upsert the profile, keep the first
        `max_boards` boards, insert them, and run the board loop. */
    method ScrapeProfile(username: string, maxBoards: Option<int>, maxPins: int,
                         cookiesPath: Option<string>, email: Option<string>, password: Option<string>,
                         cookiesOk: bool, googleOk: bool, directOk: bool,
                         profile: PinterestProfile, boards: seq<PinterestBoard>, runs: seq<BoardRun>)
      returns (stats: ProfileStats, auth: AuthTrace)
      requires |runs| == |boards|
      modifies this, store, pipeline, pipeline.fs
      ensures auth == ProfileAuth(cookiesPath, email, password, cookiesOk, googleOk, directOk)
      ensures var chosen := LimitBoards(boards, maxBoards);
        State(stats) == ScrapedBoards(old(State(NoStats)).(data := ProfileWrites(old(store.data), profile, chosen)),
                                      chosen, runs[..|chosen|], LoopEnv(username, maxPins))
    {
      auth := ProfileAuth(cookiesPath, email, password, cookiesOk, googleOk, directOk);
      var profiles := CollectionRef(database, "pinterest_profiles");
      store.Put(profiles, UpsertOne(store.Get(profiles), map["username" := Str(profile.username)], ProfileDump(profile)));
      var chosen := LimitBoards(boards, maxBoards);
      if chosen != [] {
        var boardsRef := CollectionRef(database, "pinterest_boards");
        store.Put(boardsRef, InsertMany(store.Get(boardsRef), BoardDocs(chosen)));
      }
      stats := ScrapeBoards(username, chosen, runs[..|chosen|], maxPins, NoStats);
    }
  }
}
