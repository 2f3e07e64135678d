/** `CronScraper`: the unattended run of both scrapers. The Behance half
    searches each configured URL's query, takes the first `max_projects`
    links and scrapes each project; the Pinterest half logs in, upserts the
    profile's boards and scrapes every board. Both count what they did and
    what failed, and a failure of one half does not stop the other. What
    the browser, the logins and the setup steps yield is given as input. */
module CronScraper {
  import opened Wrappers
  import opened Text
  import opened Documents
  import opened Collection
  import opened MongoStore
  import opened PinterestModel
  import opened PinterestExtractor
  import ProjectModel
  import ImageModel
  import PR = ProjectRepository
  import IR = ImageRepository
  import IP = ImagePipeline
  import BS = BehanceScraper
  import PS = PinterestScraper

  // ----- configuration -----

  datatype BehanceConfig = BehanceConfig(urls: seq<string>, database: string, outputDir: string, maxProjects: int)

  /** The Pinterest settings; the credentials are whatever the deployment
      supplies. */
  datatype PinterestConfig = PinterestConfig(username: string, database: string, outputDir: string,
                                             cookiesPath: string, email: Option<string>, password: Option<string>,
                                             maxPins: int)

  const DefaultBehance := BehanceConfig(
    ["https://www.behance.net/search/projects?search=magenta",
     "https://www.behance.net/search/projects?search=branding"],
    "behance_crawler", "./behance_images", 5)

  function DefaultPinterest(email: Option<string>, password: Option<string>): PinterestConfig {
    PinterestConfig("sangichandresh", "pinterest_crawler", "./pinterest_images", "./pinterest_cookies.json",
                    email, password, 10000)
  }

  // ----- the search query of a URL -----

  /** `search=` at `i`, followed by at least one character other than `&`:
      where `re.search(r'search=([^&]+)', url)` can match. */
  predicate QueryAt(s: string, i: int) {
    0 <= i && i + 8 <= |s| && s[i..i + 7] == "search=" && s[i + 7] != '&'
  }

  /** The leftmost match at or after `i`. */
  function FirstQueryFrom(s: string, i: nat): (r: Option<nat>)
    ensures r.Some? ==> i <= r.value && QueryAt(s, r.value)
    ensures r.Some? ==> forall j :: i <= j < r.value ==> !QueryAt(s, j)
    ensures r.None? ==> forall j :: i <= j ==> !QueryAt(s, j)
    decreases |s| - i
  {
    if i + 8 > |s| then None
    else if QueryAt(s, i) then Some(i)
    else FirstQueryFrom(s, i + 1)
  }

  predicate NotAmp(c: char) {
    c != '&'
  }

  /** `query_match.group(1) if query_match else 'design'` */
  function SearchQuery(url: string): string {
    match FirstQueryFrom(url, 0)
    case Some(i) => TakeWhile(url[i + 7..], NotAmp)
    case None => "design"
  }

  /** A URL without `search=` followed by a character other than `&`
      searches "design". */
  lemma SearchQueryDefault(url: string)
    requires forall i :: !QueryAt(url, i)
    ensures SearchQuery(url) == "design"
  {
  }

  /** Otherwise the query is the greedy `[^&]+` run after the leftmost such
      `search=`: never empty, free of `&`, and ended by `&` or the end of
      the URL. */
  lemma SearchQueryAt(url: string, i: nat)
    requires QueryAt(url, i) && forall j :: 0 <= j < i ==> !QueryAt(url, j)
    ensures var q := SearchQuery(url);
      && q != [] && '&' !in q
      && url[i + 7..i + 7 + |q|] == q
      && (i + 7 + |q| == |url| || url[i + 7 + |q|] == '&')
  {
    assert FirstQueryFrom(url, 0) == Some(i);
    var q := TakeWhile(url[i + 7..], NotAmp);
    assert url[i + 7..][0] == url[i + 7];
    assert forall k :: 0 <= k < |q| ==> NotAmp(q[k]);
  }

  /** The search query of every configured URL, in order. */
  function SearchQueries(urls: seq<string>): (r: seq<string>)
    ensures |r| == |urls| && forall i :: 0 <= i < |urls| ==> r[i] == SearchQuery(urls[i])
  {
    seq(|urls|, i requires 0 <= i < |urls| => SearchQuery(urls[i]))
  }

  lemma SearchQueriesStep(urls: seq<string>, i: nat)
    requires i < |urls|
    ensures SearchQueries(urls[..i + 1]) == SearchQueries(urls[..i]) + [SearchQuery(urls[i])]
  {
    var a, b := SearchQueries(urls[..i + 1]), SearchQueries(urls[..i]) + [SearchQuery(urls[i])];
    assert forall k :: 0 <= k < |a| ==> a[k] == b[k];
  }

  // ----- the state a scraper changes -----

  /** The statistics of one half, the file system, the pipeline's output
      directory and the database. */
  datatype State<S> = State(stats: S, fs: IP.FsState, outputDir: string, data: map<CollectionRef, Docs>)

  /** The database after `update_one(filter, {"$set": fields}, upsert=True)`
      for each pair, in order. */
  function UpsertAll(docs: Docs, writes: seq<(Document, Document)>): Docs {
    if writes == [] then docs
    else
      var w := writes[|writes| - 1];
      UpsertOne(UpsertAll(docs, writes[..|writes| - 1]), w.0, w.1)
  }

  // ----- Behance -----

  /** A project link found by a search, with what scraping it yields. */
  datatype Found = Found(url: string, run: BS.ProjectRun)

  /** What one search URL yields: an exception from the search itself, or
      the project links it found. */
  datatype SearchRun = SearchRaised | SearchLoaded(found: seq<Found>)

  datatype BehanceStats = BehanceStats(projectsScraped: nat, imagesDownloaded: nat, errors: nat)

  const NoBehanceStats := BehanceStats(0, 0, 0)

  /** What stays fixed during the Behance loop. */
  datatype BehanceEnv = BehanceEnv(root: string, maxProjects: int, md5hex: string -> string,
                                   fetch: string -> IP.Response, projects: CollectionRef, images: CollectionRef)

  /** `Path(output_dir) / f"{clean_owner} - {clean_title}"` */
  function ProjectFolder(root: string, p: ProjectModel.Project): string {
    IP.JoinPath(root, PS.CleanName(p.ownerUsername) + " - " + PS.CleanName(p.title))
  }

  function BehanceError(s: BehanceStats): BehanceStats {
    s.(errors := s.errors + 1)
  }

  /** A project with images: counted, with its successful downloads. */
  function CountProject(s: BehanceStats, ok: nat): BehanceStats {
    s.(projectsScraped := s.projectsScraped + 1, imagesDownloaded := s.imagesDownloaded + ok)
  }

  /** `project_repo.upsert(project)` */
  function WithProject(data: map<CollectionRef, Docs>, env: BehanceEnv, p: ProjectModel.Project): map<CollectionRef, Docs> {
    BS.WithProject(data, env.projects, p)
  }

  /** `image_repo.save_many(images)` */
  function WithImages(data: map<CollectionRef, Docs>, env: BehanceEnv, images: seq<ImageModel.Image>): map<CollectionRef, Docs> {
    BS.WithImages(data, env.images, images)
  }

  /** The downloads of a project's images into its folder. */
  function ProjectDownload(fs: IP.FsState, env: BehanceEnv, p: ProjectModel.Project, images: seq<ImageModel.Image>)
    : (IP.FsState, seq<IP.DownloadResult>)
  {
    IP.DownloadAll(fs, ProjectFolder(env.root, p), BS.ImageUrls(images), env.md5hex, env.fetch)
  }

  /** One turn of the project loop. */
  function ProjectStep(st: State<BehanceStats>, run: BS.ProjectRun, env: BehanceEnv): State<BehanceStats> {
    match run
    case ProjectRaised => st.(stats := BehanceError(st.stats))
    case ImagesRaised(p) => State(BehanceError(st.stats), st.fs, st.outputDir, WithProject(st.data, env, p))
    case ProjectScraped(p, images) =>
      if images == [] then st.(data := WithProject(st.data, env, p))
      else
        var d := ProjectDownload(st.fs, env, p, images);
        State(CountProject(st.stats, PS.Succeeded(d.1)), d.0, ProjectFolder(env.root, p),
              WithImages(WithProject(st.data, env, p), env, images))
  }

  function ProjectsDone(st: State<BehanceStats>, found: seq<Found>, env: BehanceEnv): State<BehanceStats> {
    if found == [] then st
    else ProjectStep(ProjectsDone(st, found[..|found| - 1], env), found[|found| - 1].run, env)
  }

  /** One turn of the search loop: a failing search is one error; otherwise
      its first `max_projects` links are scraped. */
  function SearchStep(st: State<BehanceStats>, run: SearchRun, env: BehanceEnv): State<BehanceStats> {
    match run
    case SearchRaised => st.(stats := BehanceError(st.stats))
    case SearchLoaded(found) => ProjectsDone(st, PyTake(found, env.maxProjects), env)
  }

  function SearchesDone(st: State<BehanceStats>, runs: seq<SearchRun>, env: BehanceEnv): State<BehanceStats> {
    if runs == [] then st
    else SearchStep(SearchesDone(st, runs[..|runs| - 1], env), runs[|runs| - 1], env)
  }

  lemma SearchesDoneStep(st: State<BehanceStats>, runs: seq<SearchRun>, i: nat, env: BehanceEnv)
    requires i < |runs|
    ensures SearchesDone(st, runs[..i + 1], env) == SearchStep(SearchesDone(st, runs[..i], env), runs[i], env)
  {
    assert runs[..i + 1][..i] == runs[..i];
  }

  // ----- what the Behance counters count -----

  predicate Raises(run: BS.ProjectRun) {
    run.ProjectRaised? || run.ImagesRaised?
  }

  predicate HasImages(run: BS.ProjectRun) {
    run.ProjectScraped? && run.images != []
  }

  /** The links whose scraping raised. */
  function RaisedCount(found: seq<Found>): (r: nat)
    ensures r <= |found|
  {
    if found == [] then 0 else RaisedCount(found[1..]) + (if Raises(found[0].run) then 1 else 0)
  }

  /** The links scraped with at least one image. */
  function WithImagesCount(found: seq<Found>): (r: nat)
    ensures r + RaisedCount(found) <= |found|
  {
    if found == [] then 0 else WithImagesCount(found[1..]) + (if HasImages(found[0].run) then 1 else 0)
  }

  /** All the images found by the links scraped. */
  function ImageTotal(found: seq<Found>): nat {
    if found == [] then 0
    else ImageTotal(found[1..]) + (if found[0].run.ProjectScraped? then |found[0].run.images| else 0)
  }

  lemma CountsAppend(found: seq<Found>, f: Found)
    ensures RaisedCount(found + [f]) == RaisedCount(found) + RaisedCount([f])
    ensures WithImagesCount(found + [f]) == WithImagesCount(found) + WithImagesCount([f])
    ensures ImageTotal(found + [f]) == ImageTotal(found) + ImageTotal([f])
  {
    if found != [] {
      assert (found + [f])[1..] == found[1..] + [f];
      CountsAppend(found[1..], f);
    }
  }

  /** The Behance counters over the links of a loop: `errors` rises once
      per link that raised, `projects_scraped` once per link with images,
      and the downloads never exceed the images found. */
  predicate BehanceCounted(init: BehanceStats, f: BehanceStats, errors: nat, withImages: nat, images: nat) {
    && f.errors == init.errors + errors
    && f.projectsScraped == init.projectsScraped + withImages
    && init.imagesDownloaded <= f.imagesDownloaded <= init.imagesDownloaded + images
  }

  lemma {:induction false} ProjectsDoneCounted(st: State<BehanceStats>, found: seq<Found>, env: BehanceEnv)
    ensures BehanceCounted(st.stats, ProjectsDone(st, found, env).stats,
                           RaisedCount(found), WithImagesCount(found), ImageTotal(found))
  {
    if found != [] {
      var n := |found| - 1;
      ProjectsDoneCounted(st, found[..n], env);
      CountsSnoc(found);
      ProjectStepCounted(st.stats, ProjectsDone(st, found[..n], env), found[n].run, env,
                         RaisedCount(found[..n]), WithImagesCount(found[..n]), ImageTotal(found[..n]));
    }
  }

  lemma CountsSnoc(found: seq<Found>)
    requires found != []
    ensures var last := found[|found| - 1].run;
      && RaisedCount(found) == RaisedCount(found[..|found| - 1]) + (if Raises(last) then 1 else 0)
      && WithImagesCount(found) == WithImagesCount(found[..|found| - 1]) + (if HasImages(last) then 1 else 0)
      && ImageTotal(found) == ImageTotal(found[..|found| - 1]) + (if last.ProjectScraped? then |last.images| else 0)
  {
    var init, last := found[..|found| - 1], found[|found| - 1];
    CountsAppend(init, last);
    CountsOfOne(last);
    assert init + [last] == found;
  }

  lemma CountsOfOne(f: Found)
    ensures RaisedCount([f]) == if Raises(f.run) then 1 else 0
    ensures WithImagesCount([f]) == if HasImages(f.run) then 1 else 0
    ensures ImageTotal([f]) == if f.run.ProjectScraped? then |f.run.images| else 0
  {
    assert [f][1..] == [];
  }

  /** One turn keeps the counters accounted for. */
  lemma ProjectStepCounted(init: BehanceStats, st: State<BehanceStats>, run: BS.ProjectRun, env: BehanceEnv,
                           errors: nat, withImages: nat, images: nat)
    requires BehanceCounted(init, st.stats, errors, withImages, images)
    ensures BehanceCounted(init, ProjectStep(st, run, env).stats,
                           errors + (if Raises(run) then 1 else 0),
                           withImages + (if HasImages(run) then 1 else 0),
                           images + (if run.ProjectScraped? then |run.images| else 0))
  {
    if run.ProjectScraped? && run.images != [] {
      var d := ProjectDownload(st.fs, env, run.project, run.images);
      assert |d.1| == |run.images|;
    }
  }

  /** The links one search has scraped: its first `max_projects` links,
      none when the search failed. */
  function SearchedLinks(run: SearchRun, maxProjects: int): (r: seq<Found>)
    ensures 0 <= maxProjects ==> |r| <= maxProjects
  {
    match run
    case SearchRaised => []
    case SearchLoaded(found) => PyTake(found, maxProjects)
  }

  /** The errors of a whole Behance run: one per failing search, plus one
      per failing link among the links scraped. */
  function SearchErrors(runs: seq<SearchRun>, maxProjects: int): nat {
    if runs == [] then 0
    else
      var last := runs[|runs| - 1];
      SearchErrors(runs[..|runs| - 1], maxProjects)
        + (if last.SearchRaised? then 1 else 0) + RaisedCount(SearchedLinks(last, maxProjects))
  }

  /** The projects with images among the links a run scrapes. */
  function SearchProjects(runs: seq<SearchRun>, maxProjects: int): nat {
    if runs == [] then 0
    else SearchProjects(runs[..|runs| - 1], maxProjects) + WithImagesCount(SearchedLinks(runs[|runs| - 1], maxProjects))
  }

  /** The number of links a run scrapes. */
  function SearchLinks(runs: seq<SearchRun>, maxProjects: int): nat {
    if runs == [] then 0
    else SearchLinks(runs[..|runs| - 1], maxProjects) + |SearchedLinks(runs[|runs| - 1], maxProjects)|
  }

  /** Every failure is counted exactly once and the loops go on: `errors`
      is the number of failing searches plus failing links, and
      `projects_scraped` the number of links scraped with images, which
      together never exceed the links scraped plus the searches. */
  lemma {:induction false} SearchesDoneCounted(st: State<BehanceStats>, runs: seq<SearchRun>, env: BehanceEnv)
    ensures var f := SearchesDone(st, runs, env).stats;
      && f.errors == st.stats.errors + SearchErrors(runs, env.maxProjects)
      && f.projectsScraped == st.stats.projectsScraped + SearchProjects(runs, env.maxProjects)
      && st.stats.imagesDownloaded <= f.imagesDownloaded
    ensures SearchErrors(runs, env.maxProjects) + SearchProjects(runs, env.maxProjects)
         <= SearchLinks(runs, env.maxProjects) + |runs|
  {
    if runs != [] {
      var n := |runs| - 1;
      SearchesDoneCounted(st, runs[..n], env);
      match runs[n]
      case SearchRaised =>
      case SearchLoaded(found) =>
        ProjectsDoneCounted(SearchesDone(st, runs[..n], env), PyTake(found, env.maxProjects), env);
    }
  }

  lemma MulSucc(m: nat, n: nat)
    ensures m * (n + 1) == m * n + m
  {
  }

  /** `projects_scraped` never exceeds `max_projects` per search URL. */
  lemma {:induction false} SearchProjectsBound(runs: seq<SearchRun>, maxProjects: nat)
    ensures SearchProjects(runs, maxProjects) <= maxProjects * |runs|
  {
    if runs != [] {
      var n := |runs| - 1;
      SearchProjectsBound(runs[..n], maxProjects);
      MulSucc(maxProjects, n);
    }
  }

  // ----- Pinterest -----

  /** The logins of `scrape_pinterest`: cookies only when the cookie file
      exists; then, if still logged out and both credentials are given,
      Google, with no further fallback; cookies are saved only after the
      Google login succeeded, and only with a cookie path set. */
  function CronAuth(cookiesExist: bool, cfg: PinterestConfig, cookiesOk: bool, googleOk: bool): PS.AuthTrace {
    var tried := if cookiesExist then [PS.CookieLogin] else [];
    var loggedIn := cookiesExist && cookiesOk;
    if !loggedIn && PS.Given(cfg.email) && PS.Given(cfg.password) then
      PS.AuthTrace(tried + [PS.GoogleLogin], googleOk, googleOk && cfg.cookiesPath != "")
    else PS.AuthTrace(tried, loggedIn, false)
  }

  lemma CronAuthOrder(cookiesExist: bool, cfg: PinterestConfig, cookiesOk: bool, googleOk: bool)
    ensures var t := CronAuth(cookiesExist, cfg, cookiesOk, googleOk);
      && (PS.CookieLogin in t.tried <==> cookiesExist)
      && (cookiesExist ==> t.tried[0] == PS.CookieLogin)
      && (PS.GoogleLogin in t.tried <==> !(cookiesExist && cookiesOk) && PS.Given(cfg.email) && PS.Given(cfg.password))
      && PS.DirectLogin !in t.tried
      && (t.loggedIn <==> (cookiesExist && cookiesOk) || (PS.GoogleLogin in t.tried && googleOk))
      && (t.cookiesSaved <==> PS.GoogleLogin in t.tried && googleOk && cfg.cookiesPath != "")
  {
  }

  /** Where the command-line scraper would fall back to the direct login
      after a failed Google login, the unattended run stays logged out. */
  lemma CronAuthNoFallback(cfg: PinterestConfig, googleOk: bool, directOk: bool)
    requires PS.Given(cfg.email) && PS.Given(cfg.password)
    requires !googleOk && directOk
    ensures !CronAuth(false, cfg, false, googleOk).loggedIn
    ensures PS.ProfileAuth(None, cfg.email, cfg.password, false, googleOk, directOk).loggedIn
  {
  }

  datatype PinterestStats = PinterestStats(boardsScraped: nat, pinsScraped: nat, imagesDownloaded: nat, errors: nat)

  const NoPinterestStats := PinterestStats(0, 0, 0, 0)

  /** What stays fixed during the board loop. */
  datatype PinterestEnv = PinterestEnv(username: string, root: string, maxPins: int, md5hex: string -> string,
                                       fetch: string -> IP.Response, pins: CollectionRef)

  /** The key a board is upserted under. */
  function BoardKey(b: PinterestBoard): Document {
    map["id" := Str(b.id), "owner_username" := Str(b.ownerUsername)]
  }

  /** The key a pin is upserted under. */
  function PinKey(p: PinterestPin): Document {
    map["id" := Str(p.id)]
  }

  function BoardWrites(boards: seq<PinterestBoard>): (r: seq<(Document, Document)>)
    ensures |r| == |boards| && forall i :: 0 <= i < |boards| ==> r[i] == (BoardKey(boards[i]), BoardDump(boards[i]))
  {
    seq(|boards|, i requires 0 <= i < |boards| => (BoardKey(boards[i]), BoardDump(boards[i])))
  }

  function PinWrites(pins: seq<PinterestPin>): (r: seq<(Document, Document)>)
    ensures |r| == |pins| && forall i :: 0 <= i < |pins| ==> r[i] == (PinKey(pins[i]), PinDump(pins[i]))
  {
    seq(|pins|, i requires 0 <= i < |pins| => (PinKey(pins[i]), PinDump(pins[i])))
  }

  function BoardError(s: PinterestStats): PinterestStats {
    s.(errors := s.errors + 1)
  }

  function CountBoard(s: PinterestStats): PinterestStats {
    s.(boardsScraped := s.boardsScraped + 1)
  }

  function CountBoardPins(s: PinterestStats, pins: nat, ok: nat): PinterestStats {
    s.(boardsScraped := s.boardsScraped + 1, pinsScraped := s.pinsScraped + pins, imagesDownloaded := s.imagesDownloaded + ok)
  }

  function WithPins(data: map<CollectionRef, Docs>, env: PinterestEnv, pins: seq<PinterestPin>): map<CollectionRef, Docs> {
    data[env.pins := UpsertAll(DocsAt(data, env.pins), PinWrites(pins))]
  }

  /** The downloads of a board's pin images into its folder. */
  function BoardDownload(fs: IP.FsState, env: PinterestEnv, board: PinterestBoard, pins: seq<PinterestPin>)
    : (IP.FsState, seq<IP.DownloadResult>)
  {
    IP.DownloadAll(fs, PS.BoardDir(env.root, env.username, board), PS.DownloadUrls(pins), env.md5hex, env.fetch)
  }

  /** One turn of the board loop: a board whose visit raised is one error;
      otherwise its pins, if any, are upserted and their images downloaded,
      and the board is counted, with or without pins. */
  function BoardStep(st: State<PinterestStats>, board: PinterestBoard, run: PS.BoardRun, env: PinterestEnv): State<PinterestStats> {
    if run.BoardRaised? then st.(stats := BoardError(st.stats))
    else
      var pins := BoardPins(board.url, run.cards, env.maxPins);
      if pins == [] then st.(stats := CountBoard(st.stats))
      else
        var d := BoardDownload(st.fs, env, board, pins);
        State(CountBoardPins(st.stats, |pins|, PS.Succeeded(d.1)), d.0, PS.BoardDir(env.root, env.username, board),
              WithPins(st.data, env, pins))
  }

  function BoardsDone(st: State<PinterestStats>, boards: seq<PinterestBoard>, runs: seq<PS.BoardRun>, env: PinterestEnv)
    : State<PinterestStats>
    requires |runs| == |boards|
  {
    if boards == [] then st
    else
      var n := |boards| - 1;
      BoardStep(BoardsDone(st, boards[..n], runs[..n], env), boards[n], runs[n], env)
  }

  /** The boards whose visit raised. */
  function BoardsRaised(runs: seq<PS.BoardRun>): (r: nat)
    ensures r <= |runs|
  {
    if runs == [] then 0 else BoardsRaised(runs[..|runs| - 1]) + (if runs[|runs| - 1].BoardRaised? then 1 else 0)
  }

  /** Every board is either scraped or one error, never both, and the
      downloads never exceed the pins scraped. */
  lemma {:induction false} BoardsDoneCounted(st: State<PinterestStats>, boards: seq<PinterestBoard>, runs: seq<PS.BoardRun>,
                                             env: PinterestEnv)
    requires |runs| == |boards|
    requires st.stats.imagesDownloaded <= st.stats.pinsScraped
    ensures var f := BoardsDone(st, boards, runs, env).stats;
      && f.errors == st.stats.errors + BoardsRaised(runs)
      && f.boardsScraped == st.stats.boardsScraped + |boards| - BoardsRaised(runs)
      && st.stats.pinsScraped <= f.pinsScraped
      && f.imagesDownloaded - st.stats.imagesDownloaded <= f.pinsScraped - st.stats.pinsScraped
  {
    if boards != [] {
      var n := |boards| - 1;
      BoardsDoneCounted(st, boards[..n], runs[..n], env);
      var prev := BoardsDone(st, boards[..n], runs[..n], env);
      if runs[n].BoardLoaded? {
        var pins := BoardPins(boards[n].url, runs[n].cards, env.maxPins);
        if pins != [] {
          var d := BoardDownload(prev.fs, env, boards[n], pins);
          assert |d.1| == |PS.DownloadUrls(pins)| <= |pins|;
        }
      }
    }
  }

  // ----- upserts do not duplicate -----

  /** Two filters no document can satisfy both of. */
  predicate Conflicts(f: Document, g: Document) {
    exists k :: k in f && k in g && f[k] != g[k]
  }

  /** An upsert under one key leaves the number of documents under a
      conflicting key as it was: the document it changes or adds matches
      its own key, before and after. */
  lemma UpsertOtherCount(docs: Docs, filter: Document, fields: Document, other: Document)
    requires Agrees(filter, fields) && Conflicts(filter, other)
    ensures CountMatches(UpsertOne(docs, filter, fields), other) == CountMatches(docs, other)
  {
    match FirstMatch(docs, filter)
    case None =>
      CountMatchesAppend(docs, [filter + fields], other);
      CountOne(filter + fields, other);
    case Some(i) =>
      var r := UpsertOne(docs, filter, fields);
      CountMatchesSplit(docs, i, other);
      CountMatchesSplit(r, i, other);
      assert r[..i] == docs[..i] && r[i + 1..] == docs[i + 1..];
      SetKeepsMatch(docs[i], filter, fields);
      CountOne(docs[i], other);
      CountOne(docs[i] + fields, other);
  }

  /** The keys of a write list are, pairwise, equal or conflicting with
      `f`, and each body agrees with its key. */
  predicate KeyedWrites(writes: seq<(Document, Document)>, f: Document) {
    forall i :: 0 <= i < |writes| ==> Agrees(writes[i].0, writes[i].1) && (writes[i].0 == f || Conflicts(writes[i].0, f))
  }

  lemma KeyedPrefix(writes: seq<(Document, Document)>, f: Document, n: nat)
    requires KeyedWrites(writes, f) && n <= |writes|
    ensures KeyedWrites(writes[..n], f)
  {
    assert forall i :: 0 <= i < n ==> writes[..n][i] == writes[i];
  }

  /** After the upserts a key written to has exactly one document if it had
      none, and as many as before otherwise; any other key keeps its count. */
  /** Some write goes under key `f`. */
  predicate Written(writes: seq<(Document, Document)>, f: Document) {
    exists i :: 0 <= i < |writes| && writes[i].0 == f
  }

  lemma WrittenLast(writes: seq<(Document, Document)>, f: Document)
    requires writes != []
    ensures Written(writes, f) <==> Written(writes[..|writes| - 1], f) || writes[|writes| - 1].0 == f
  {
    var n := |writes| - 1;
    if Written(writes, f) && writes[n].0 != f {
      var i :| 0 <= i < |writes| && writes[i].0 == f;
      assert writes[..n][i].0 == f;
    }
    if Written(writes[..n], f) {
      var i :| 0 <= i < n && writes[..n][i].0 == f;
      assert writes[i].0 == f;
    }
  }

  lemma {:induction false} UpsertAllCount(docs: Docs, writes: seq<(Document, Document)>, f: Document)
    requires KeyedWrites(writes, f)
    ensures CountMatches(UpsertAll(docs, writes), f)
         == if CountMatches(docs, f) == 0 && Written(writes, f) then 1 else CountMatches(docs, f)
  {
    if writes != [] {
      var n := |writes| - 1;
      KeyedPrefix(writes, f, n);
      UpsertAllCount(docs, writes[..n], f);
      WrittenLast(writes, f);
      var prev := UpsertAll(docs, writes[..n]);
      var w := writes[n];
      if w.0 == f {
        UpsertCount(prev, w.0, w.1);
      } else {
        UpsertOtherCount(prev, w.0, w.1, f);
      }
    }
  }

  lemma BoardKeysKeyed(boards: seq<PinterestBoard>, b: PinterestBoard)
    ensures KeyedWrites(BoardWrites(boards), BoardKey(b))
  {
    forall i | 0 <= i < |boards|
      ensures BoardKey(boards[i]) == BoardKey(b) || Conflicts(BoardKey(boards[i]), BoardKey(b))
    {
      if boards[i].id != b.id {
        assert BoardKey(boards[i])["id"] != BoardKey(b)["id"];
      } else if boards[i].ownerUsername != b.ownerUsername {
        assert BoardKey(boards[i])["owner_username"] != BoardKey(b)["owner_username"];
      }
    }
  }

  lemma PinKeysKeyed(pins: seq<PinterestPin>, p: PinterestPin)
    ensures KeyedWrites(PinWrites(pins), PinKey(p))
  {
    forall i | 0 <= i < |pins|
      ensures PinKey(pins[i]) == PinKey(p) || Conflicts(PinKey(pins[i]), PinKey(p))
    {
      if pins[i].id != p.id {
        assert PinKey(pins[i])["id"] != PinKey(p)["id"];
      }
    }
  }

  /** Upserting the boards leaves exactly one document per board key that
      had at most one, and upserting them again adds nothing. */
  lemma BoardsNotDuplicated(docs: Docs, boards: seq<PinterestBoard>, b: PinterestBoard)
    requires b in boards && CountMatches(docs, BoardKey(b)) <= 1
    ensures CountMatches(UpsertAll(docs, BoardWrites(boards)), BoardKey(b)) == 1
    ensures CountMatches(UpsertAll(UpsertAll(docs, BoardWrites(boards)), BoardWrites(boards)), BoardKey(b)) == 1
  {
    var i :| 0 <= i < |boards| && boards[i] == b;
    assert BoardWrites(boards)[i].0 == BoardKey(b);
    BoardKeysKeyed(boards, b);
    UpsertAllCount(docs, BoardWrites(boards), BoardKey(b));
    UpsertAllCount(UpsertAll(docs, BoardWrites(boards)), BoardWrites(boards), BoardKey(b));
  }

  /** The same for the pins of a board, keyed by pin id alone. */
  lemma PinsNotDuplicated(docs: Docs, pins: seq<PinterestPin>, p: PinterestPin)
    requires p in pins && CountMatches(docs, PinKey(p)) <= 1
    ensures CountMatches(UpsertAll(docs, PinWrites(pins)), PinKey(p)) == 1
    ensures CountMatches(UpsertAll(UpsertAll(docs, PinWrites(pins)), PinWrites(pins)), PinKey(p)) == 1
  {
    var i :| 0 <= i < |pins| && pins[i] == p;
    assert PinWrites(pins)[i].0 == PinKey(p);
    PinKeysKeyed(pins, p);
    UpsertAllCount(docs, PinWrites(pins), PinKey(p));
    UpsertAllCount(UpsertAll(docs, PinWrites(pins)), PinWrites(pins), PinKey(p));
  }

  // ----- the run -----

  /** An entry of `results`: a scraper's statistics, or `{'error': str(e)}`. */
  datatype Outcome = BehanceDone(behance: BehanceStats) | PinterestDone(pinterest: PinterestStats) | Failed(error: string)

  class CronScraper {
    const behance: BehanceConfig
    const pinterest: PinterestConfig
    const store: Store
    const projectRepo: PR.ProjectRepository
    const imageRepo: IR.ImageRepository
    const pipeline: IP.ImagePipeline

    /** The repositories write to the configured Behance database of the
        one server. */
    ghost predicate Valid()
      reads this, projectRepo, imageRepo
    {
      && projectRepo.store == store && imageRepo.store == store
      && projectRepo.client == Wrapper(behance.database) && imageRepo.client == Wrapper(behance.database)
      && projectRepo.Valid() && imageRepo.Valid()
    }

    constructor (behance: BehanceConfig, pinterest: PinterestConfig, store: Store,
                 projectRepo: PR.ProjectRepository, imageRepo: IR.ImageRepository, pipeline: IP.ImagePipeline)
      requires projectRepo.store == store && imageRepo.store == store
      requires projectRepo.client == Wrapper(behance.database) && imageRepo.client == Wrapper(behance.database)
      requires projectRepo.Valid() && imageRepo.Valid()
      ensures Valid()
      ensures this.behance == behance && this.pinterest == pinterest && this.store == store
      ensures this.projectRepo == projectRepo && this.imageRepo == imageRepo && this.pipeline == pipeline
    {
      this.behance := behance;
      this.pinterest := pinterest;
      this.store := store;
      this.projectRepo := projectRepo;
      this.imageRepo := imageRepo;
      this.pipeline := pipeline;
    }

    function BehanceLoopEnv(): BehanceEnv {
      BehanceEnv(behance.outputDir, behance.maxProjects, pipeline.md5hex, pipeline.fetch,
                 CollectionRef(behance.database, "projects"), CollectionRef(behance.database, "images"))
    }

    function PinterestLoopEnv(): PinterestEnv {
      PinterestEnv(pinterest.username, pinterest.outputDir, pinterest.maxPins, pipeline.md5hex, pipeline.fetch,
                   CollectionRef(pinterest.database, "pinterest_pins"))
    }

    function Now<S>(stats: S): State<S>
      reads store, pipeline, pipeline.fs
    {
      State(stats, pipeline.fs.state, pipeline.outputDir, store.data)
    }

    /** Saving a project's images and downloading them into its folder;
        `ok` is the number of successful downloads. */
    method SaveImages(p: ProjectModel.Project, images: seq<ImageModel.Image>) returns (ok: nat)
      requires Valid() && images != []
      modifies imageRepo, store, pipeline, pipeline.fs
      ensures Valid()
      ensures var d := ProjectDownload(old(pipeline.fs.state), BehanceLoopEnv(), p, images);
        pipeline.fs.state == d.0 && ok == PS.Succeeded(d.1)
      ensures pipeline.outputDir == ProjectFolder(behance.outputDir, p)
      ensures store.data == WithImages(old(store.data), BehanceLoopEnv(), images)
    {
      imageRepo.SaveMany(images);
      pipeline.outputDir := ProjectFolder(behance.outputDir, p);
      var results := pipeline.DownloadMany(BS.ImageUrls(images));
      ok := PS.Succeeded(results);
    }

    /** One turn of the project loop. */
    method ScrapeProject(run: BS.ProjectRun, stats: BehanceStats) returns (stats': BehanceStats)
      requires Valid()
      modifies projectRepo, imageRepo, store, pipeline, pipeline.fs
      ensures Valid()
      ensures Now(stats') == ProjectStep(old(Now(stats)), run, BehanceLoopEnv())
    {
      stats' := stats;
      match run
      case ProjectRaised =>
        stats' := BehanceError(stats);
      case ImagesRaised(p) =>
        projectRepo.Upsert(p);
        stats' := BehanceError(stats);
      case ProjectScraped(p, images) =>
        projectRepo.Upsert(p);
        if images != [] {
          var ok := SaveImages(p, images);
          stats' := CountProject(stats, ok);
        }
    }

    /** The project loop of one search. */
    method ScrapeProjects(found: seq<Found>, stats0: BehanceStats) returns (stats: BehanceStats)
      requires Valid()
      modifies projectRepo, imageRepo, store, pipeline, pipeline.fs
      ensures Valid()
      ensures Now(stats) == ProjectsDone(old(Now(stats0)), found, BehanceLoopEnv())
    {
      ghost var init := Now(stats0);
      stats := stats0;
      var i := 0;
      while i < |found|
        invariant 0 <= i <= |found|
        invariant Valid()
        invariant Now(stats) == ProjectsDone(init, found[..i], BehanceLoopEnv())
      {
        assert found[..i + 1][..i] == found[..i];
        stats := ScrapeProject(found[i].run, stats);
        i := i + 1;
      }
      assert found[..i] == found;
    }

    /** One turn of the search loop. */
    method ScrapeSearch(run: SearchRun, stats: BehanceStats) returns (stats': BehanceStats)
      requires Valid()
      modifies projectRepo, imageRepo, store, pipeline, pipeline.fs
      ensures Valid()
      ensures Now(stats') == SearchStep(old(Now(stats)), run, BehanceLoopEnv())
    {
      match run
      case SearchRaised =>
        stats' := BehanceError(stats);
      case SearchLoaded(found) =>
        var links := PyTake(found, behance.maxProjects);
        stats' := ScrapeProjects(links, stats);
    }

    /** `scrape_behance`; `runs[i]` is what searching `urls[i]` yields and
        `queries` the queries searched. */
    method ScrapeBehance(runs: seq<SearchRun>) returns (stats: BehanceStats, queries: seq<string>)
      requires Valid() && |runs| == |behance.urls|
      modifies projectRepo, imageRepo, store, pipeline, pipeline.fs
      ensures Valid()
      ensures queries == SearchQueries(behance.urls)
      ensures Now(stats) == SearchesDone(old(Now(NoBehanceStats)).(outputDir := behance.outputDir), runs, BehanceLoopEnv())
    {
      pipeline.outputDir := behance.outputDir;
      ghost var init := Now(NoBehanceStats);
      stats := NoBehanceStats;
      queries := [];
      var i := 0;
      while i < |runs|
        invariant 0 <= i <= |runs|
        invariant Valid()
        invariant queries == SearchQueries(behance.urls[..i])
        invariant Now(stats) == SearchesDone(init, runs[..i], BehanceLoopEnv())
      {
        SearchesDoneStep(init, runs, i, BehanceLoopEnv());
        SearchQueriesStep(behance.urls, i);
        queries := queries + [SearchQuery(behance.urls[i])];
        stats := ScrapeSearch(runs[i], stats);
        i := i + 1;
      }
      assert runs[..i] == runs && behance.urls[..i] == behance.urls;
    }

    /** `update_one(key, {"$set": body}, upsert=True)` for each pair, in
        order, on collection `c`. */
    method UpsertEach(c: CollectionRef, writes: seq<(Document, Document)>)
      modifies store
      ensures writes != [] ==> store.data == old(store.data)[c := UpsertAll(old(store.Get(c)), writes)]
      ensures writes == [] ==> store.data == old(store.data)
    {
      hide UpsertOne;
      ghost var before := store.Get(c);
      var i := 0;
      while i < |writes|
        invariant 0 <= i <= |writes|
        invariant i == 0 ==> store.data == old(store.data)
        invariant i > 0 ==> store.data == old(store.data)[c := UpsertAll(before, writes[..i])]
      {
        assert writes[..i + 1][..i] == writes[..i];
        store.Put(c, UpsertOne(store.Get(c), writes[i].0, writes[i].1));
        i := i + 1;
      }
      assert writes[..i] == writes;
    }

    /** Upserting a board's pins and downloading their images into the
        board's folder; `ok` is the number of successful downloads. */
    method SavePins(board: PinterestBoard, pins: seq<PinterestPin>) returns (ok: nat)
      requires pins != []
      modifies store, pipeline, pipeline.fs
      ensures var d := BoardDownload(old(pipeline.fs.state), PinterestLoopEnv(), board, pins);
        pipeline.fs.state == d.0 && ok == PS.Succeeded(d.1)
      ensures pipeline.outputDir == PS.BoardDir(pinterest.outputDir, pinterest.username, board)
      ensures store.data == WithPins(old(store.data), PinterestLoopEnv(), pins)
    {
      UpsertEach(PinterestLoopEnv().pins, PinWrites(pins));
      pipeline.outputDir := PS.BoardDir(pinterest.outputDir, pinterest.username, board);
      var results := pipeline.DownloadMany(PS.DownloadUrls(pins));
      ok := PS.Succeeded(results);
    }

    /** One turn of the board loop. */
    method ScrapeBoard(board: PinterestBoard, run: PS.BoardRun, stats: PinterestStats) returns (stats': PinterestStats)
      modifies store, pipeline, pipeline.fs
      ensures Now(stats') == BoardStep(old(Now(stats)), board, run, PinterestLoopEnv())
    {
      if run.BoardRaised? {
        stats' := BoardError(stats);
        return;
      }
      var pins := ExtractPinsFromBoard(board.url, run.cards, pinterest.maxPins);
      if pins == [] {
        stats' := CountBoard(stats);
      } else {
        var ok := SavePins(board, pins);
        stats' := CountBoardPins(stats, |pins|, ok);
      }
    }

    method ScrapeBoards(boards: seq<PinterestBoard>, runs: seq<PS.BoardRun>, stats0: PinterestStats)
      returns (stats: PinterestStats)
      requires |runs| == |boards|
      modifies store, pipeline, pipeline.fs
      ensures Now(stats) == BoardsDone(old(Now(stats0)), boards, runs, PinterestLoopEnv())
    {
      ghost var init := Now(stats0);
      stats := stats0;
      var i := 0;
      while i < |boards|
        invariant 0 <= i <= |boards|
        invariant Now(stats) == BoardsDone(init, boards[..i], runs[..i], PinterestLoopEnv())
      {
        assert boards[..i + 1][..i] == boards[..i] && runs[..i + 1][..i] == runs[..i];
        stats := ScrapeBoard(boards[i], runs[i], stats);
        i := i + 1;
      }
      assert boards[..i] == boards && runs[..i] == runs;
    }

    /** The database after the boards are upserted, before the loop. */
    function BoardsUpserted(data: map<CollectionRef, Docs>, boards: seq<PinterestBoard>): map<CollectionRef, Docs> {
      var c := CollectionRef(pinterest.database, "pinterest_boards");
      if boards == [] then data else data[c := UpsertAll(DocsAt(data, c), BoardWrites(boards))]
    }

    /** `scrape_pinterest`: log in, upsert every board of the profile by
        its id and owner, then run the board loop. `cookiesExist` says
        whether the cookie file exists, `cookiesOk` and `googleOk` what the
        two logins report, and `runs[i]` what visiting `boards[i]` yields. */
    method ScrapePinterest(cookiesExist: bool, cookiesOk: bool, googleOk: bool,
                           boards: seq<PinterestBoard>, runs: seq<PS.BoardRun>)
      returns (stats: PinterestStats, auth: PS.AuthTrace)
      requires |runs| == |boards|
      modifies store, pipeline, pipeline.fs
      ensures auth == CronAuth(cookiesExist, pinterest, cookiesOk, googleOk)
      ensures Now(stats) == BoardsDone(old(Now(NoPinterestStats)).(outputDir := pinterest.outputDir,
                                                                   data := BoardsUpserted(old(store.data), boards)),
                                       boards, runs, PinterestLoopEnv())
    {
      pipeline.outputDir := pinterest.outputDir;
      auth := CronAuth(cookiesExist, pinterest, cookiesOk, googleOk);
      if boards != [] {
        UpsertEach(CollectionRef(pinterest.database, "pinterest_boards"), BoardWrites(boards));
      }
      stats := ScrapeBoards(boards, runs, NoPinterestStats);
    }

    /** The Behance half of `run` from file system `fs`, output directory
        `outputDir` and database `data`: the outcome it records and the
        state it leaves. A setup that raises (connecting, launching the
        browser, opening the page) changes nothing; otherwise the searches
        run, and a `teardown` error raised after them (closing the page,
        the context, the browser or the connection) replaces the
        statistics but keeps every write. */
    function BehanceHalf(fs: IP.FsState, outputDir: string, data: map<CollectionRef, Docs>,
                         setup: Option<string>, teardown: Option<string>, runs: seq<SearchRun>): State<Outcome>
    {
      if setup.Some? then State(Failed(setup.value), fs, outputDir, data)
      else
        var st := SearchesDone(State(NoBehanceStats, fs, behance.outputDir, data), runs, BehanceLoopEnv());
        State(if teardown.Some? then Failed(teardown.value) else BehanceDone(st.stats), st.fs, st.outputDir, st.data)
    }

    /** The Pinterest half of `run`, in the same terms: a setup that raises
        (connecting, launching, opening the page, reading the profile and
        its boards) changes nothing; otherwise the boards are upserted and
        visited, and a `teardown` error replaces the statistics. */
    function PinterestHalf(fs: IP.FsState, outputDir: string, data: map<CollectionRef, Docs>,
                           setup: Option<string>, teardown: Option<string>,
                           boards: seq<PinterestBoard>, runs: seq<PS.BoardRun>): State<Outcome>
      requires |runs| == |boards|
    {
      if setup.Some? then State(Failed(setup.value), fs, outputDir, data)
      else
        var st := BoardsDone(State(NoPinterestStats, fs, pinterest.outputDir, BoardsUpserted(data, boards)),
                             boards, runs, PinterestLoopEnv());
        State(if teardown.Some? then Failed(teardown.value) else PinterestDone(st.stats), st.fs, st.outputDir, st.data)
    }

    /** When neither half raises, `run` reports for Behance one error per
        failing search or link and one scraped project per link with
        images, and for Pinterest one error per failing board, every other
        board scraped and no more downloads than pins. */
    lemma HalvesCounted(fs: IP.FsState, outputDir: string, data: map<CollectionRef, Docs>,
                        searchRuns: seq<SearchRun>, boards: seq<PinterestBoard>, boardRuns: seq<PS.BoardRun>)
      requires |boardRuns| == |boards|
      ensures var b := BehanceHalf(fs, outputDir, data, None, None, searchRuns);
        && b.stats.BehanceDone?
        && b.stats.behance.errors == SearchErrors(searchRuns, behance.maxProjects)
        && b.stats.behance.projectsScraped == SearchProjects(searchRuns, behance.maxProjects)
      ensures var p := PinterestHalf(fs, outputDir, data, None, None, boards, boardRuns);
        && p.stats.PinterestDone?
        && p.stats.pinterest.errors == BoardsRaised(boardRuns)
        && p.stats.pinterest.boardsScraped == |boards| - BoardsRaised(boardRuns)
        && p.stats.pinterest.imagesDownloaded <= p.stats.pinterest.pinsScraped
    {
      SearchesDoneCounted(State(NoBehanceStats, fs, behance.outputDir, data), searchRuns, BehanceLoopEnv());
      BoardsDoneCounted(State(NoPinterestStats, fs, pinterest.outputDir, BoardsUpserted(data, boards)),
                        boards, boardRuns, PinterestLoopEnv());
    }

    /** `run`: the Behance scraper, then the Pinterest scraper whatever
        became of it; each records its statistics or its error, and the
        Pinterest half starts from the state the Behance half left. */
    method Run(behanceSetup: Option<string>, searchRuns: seq<SearchRun>, behanceTeardown: Option<string>,
               pinterestSetup: Option<string>, cookiesExist: bool, cookiesOk: bool, googleOk: bool,
               boards: seq<PinterestBoard>, boardRuns: seq<PS.BoardRun>, pinterestTeardown: Option<string>)
      returns (results: map<string, Outcome>)
      requires Valid() && |searchRuns| == |behance.urls| && |boardRuns| == |boards|
      modifies projectRepo, imageRepo, store, pipeline, pipeline.fs
      ensures Valid()
      ensures var b := BehanceHalf(old(pipeline.fs.state), old(pipeline.outputDir), old(store.data),
                                   behanceSetup, behanceTeardown, searchRuns);
              var p := PinterestHalf(b.fs, b.outputDir, b.data, pinterestSetup, pinterestTeardown, boards, boardRuns);
              && results == map["behance" := b.stats, "pinterest" := p.stats]
              && pipeline.fs.state == p.fs && pipeline.outputDir == p.outputDir && store.data == p.data
      ensures behanceSetup.Some? ==> results["behance"] == Failed(behanceSetup.value)
      ensures pinterestSetup.Some? ==> results["pinterest"] == Failed(pinterestSetup.value)
      ensures behanceSetup.Some? && pinterestSetup.Some? ==> store.data == old(store.data)
    {
      var b := RunBehance(behanceSetup, searchRuns, behanceTeardown);
      var p := RunPinterest(pinterestSetup, cookiesExist, cookiesOk, googleOk, boards, boardRuns, pinterestTeardown);
      results := map["behance" := b, "pinterest" := p];
    }

    /** The Behance half of `run`. */
    method RunBehance(setup: Option<string>, searchRuns: seq<SearchRun>, teardown: Option<string>) returns (o: Outcome)
      requires Valid() && |searchRuns| == |behance.urls|
      modifies projectRepo, imageRepo, store, pipeline, pipeline.fs
      ensures Valid()
      ensures State(o, pipeline.fs.state, pipeline.outputDir, store.data)
        == BehanceHalf(old(pipeline.fs.state), old(pipeline.outputDir), old(store.data), setup, teardown, searchRuns)
    {
      if setup.Some? {
        return Failed(setup.value);
      }
      var stats, queries := ScrapeBehance(searchRuns);
      o := if teardown.Some? then Failed(teardown.value) else BehanceDone(stats);
    }

    /** The Pinterest half of `run`. */
    method RunPinterest(setup: Option<string>, cookiesExist: bool, cookiesOk: bool, googleOk: bool,
                        boards: seq<PinterestBoard>, boardRuns: seq<PS.BoardRun>, teardown: Option<string>)
      returns (o: Outcome)
      requires Valid() && |boardRuns| == |boards|
      modifies store, pipeline, pipeline.fs
      ensures Valid()
      ensures State(o, pipeline.fs.state, pipeline.outputDir, store.data)
        == PinterestHalf(old(pipeline.fs.state), old(pipeline.outputDir), old(store.data), setup, teardown,
                         boards, boardRuns)
    {
      if setup.Some? {
        return Failed(setup.value);
      }
      var stats, auth := ScrapePinterest(cookiesExist, cookiesOk, googleOk, boards, boardRuns);
      o := if teardown.Some? then Failed(teardown.value) else PinterestDone(stats);
    }
  }
}
