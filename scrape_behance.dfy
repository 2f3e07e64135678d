/** `BehanceScraper`: the command-line Behance scraper. A run picks one mode,
    takes at most `max` of the links that mode discovers, and scrapes each
    link not scraped before; the set of processed links lives on the
    scraper and is shared by every run it makes. What scraping one project
    yields, up to where it raises, is an input, one outcome per link. */
module BehanceScraper {
  import opened Wrappers
  import opened Text
  import opened Collection
  import opened MongoStore
  import ProjectModel
  import ImageModel
  import UserModel
  import PR = ProjectRepository
  import IR = ImageRepository
  import UR = UserRepository
  import IP = ImagePipeline

  /** The elements of a sequence, as a set. */
  function Elems<T>(s: seq<T>): set<T> {
    set x | x in s
  }

  lemma ElemsSnoc<T>(s: seq<T>, x: T)
    ensures Elems(s + [x]) == Elems(s) + {x}
  {
  }

  /** One pass over the links of a run: the links handed to
      `scrape_project`, and those of them it scraped, in order. */
  datatype PassResult = PassResult(attempted: seq<string>, scraped: seq<string>)

  /** The loop of `scrape_search`, `scrape_user` and `scrape_trending`: a
      link already processed, before the run or earlier in it, is skipped;
      otherwise it is scraped, and it counts only if that returns normally. */
  function Pass(links: seq<string>, ok: seq<bool>, done: set<string>): (r: PassResult)
    requires |ok| == |links|
    ensures |r.scraped| <= |r.attempted| <= |links|
  {
    if links == [] then PassResult([], [])
    else
      var n := |links| - 1;
      var prev := Pass(links[..n], ok[..n], done);
      var u := links[n];
      if u in done || u in prev.scraped then prev
      else if ok[n] then PassResult(prev.attempted + [u], prev.scraped + [u])
      else PassResult(prev.attempted + [u], prev.scraped)
  }

  /** No link processed before the pass is scraped again; the links scraped
      are distinct and each of them was attempted. */
  predicate SkipsProcessed(r: PassResult, done: set<string>) {
    && (forall k :: 0 <= k < |r.attempted| ==> r.attempted[k] !in done)
    && (forall k :: 0 <= k < |r.scraped| ==> r.scraped[k] !in done && r.scraped[k] in r.attempted)
    && (forall k, l :: 0 <= k < l < |r.scraped| ==> r.scraped[k] != r.scraped[l])
  }

  lemma {:induction false} PassSkipsProcessed(links: seq<string>, ok: seq<bool>, done: set<string>)
    requires |ok| == |links|
    ensures SkipsProcessed(Pass(links, ok, done), done)
  {
    if links != [] {
      var n := |links| - 1;
      var prev := Pass(links[..n], ok[..n], done);
      PassSkipsProcessed(links[..n], ok[..n], done);
      var u := links[n];
      if !(u in done || u in prev.scraped) {
        assert forall k :: 0 <= k < |prev.scraped| ==> prev.scraped[k] != u;
      }
    }
  }

  /** A link is scraped only on an outcome that returned normally, and
      every link whose outcome did is processed after the pass. */
  predicate ScrapesSuccesses(r: PassResult, links: seq<string>, ok: seq<bool>, done: set<string>)
    requires |ok| == |links|
  {
    && (forall u :: u in r.scraped ==> exists i :: 0 <= i < |links| && links[i] == u && ok[i])
    && (forall i :: 0 <= i < |links| && ok[i] ==> links[i] in done || links[i] in r.scraped)
  }

  lemma {:induction false} PassScrapesSuccesses(links: seq<string>, ok: seq<bool>, done: set<string>)
    requires |ok| == |links|
    ensures ScrapesSuccesses(Pass(links, ok, done), links, ok, done)
  {
    if links != [] {
      var n := |links| - 1;
      var prev := Pass(links[..n], ok[..n], done);
      PassScrapesSuccesses(links[..n], ok[..n], done);
      forall u | u in Pass(links, ok, done).scraped
        ensures exists i :: 0 <= i < |links| && links[i] == u && ok[i]
      {
        if u in prev.scraped {
          var i :| 0 <= i < |links[..n]| && links[..n][i] == u && ok[..n][i];
          assert links[i] == u && ok[i];
        } else {
          assert links[n] == u && ok[n];
        }
      }
      forall i | 0 <= i < |links| && ok[i]
        ensures links[i] in done || links[i] in Pass(links, ok, done).scraped
      {
        if i < n {
          assert links[..n][i] == links[i] && ok[..n][i];
        }
      }
    }
  }

  /** The set is shared: running the same links again after a pass
      attempts none of the links that pass scraped. */
  lemma RerunSkipsScraped(links: seq<string>, ok: seq<bool>, again: seq<bool>, done: set<string>)
    requires |ok| == |links| && |again| == |links|
    ensures var first := Pass(links, ok, done);
      forall u :: u in Pass(links, again, done + Elems(first.scraped)).attempted ==> u !in first.scraped
  {
    var first := Pass(links, ok, done);
    var second := Pass(links, again, done + Elems(first.scraped));
    PassSkipsProcessed(links, again, done + Elems(first.scraped));
    forall u | u in second.attempted
      ensures u !in first.scraped
    {
      var k :| 0 <= k < |second.attempted| && second.attempted[k] == u;
      assert u !in Elems(first.scraped);
    }
  }

  /** `[str(img.url) for img in images]` */
  function ImageUrls(images: seq<ImageModel.Image>): (r: seq<string>)
    ensures |r| == |images|
    ensures forall i :: 0 <= i < |images| ==> r[i] == images[i].url
  {
    seq(|images|, i requires 0 <= i < |images| => images[i].url)
  }

  /** What scraping one project link yields: an exception before anything
      is stored (navigation, project extraction), an exception after the
      project was upserted (image extraction), or the project and its
      images. */
  datatype ProjectRun =
    | ProjectRaised
    | ImagesRaised(project: ProjectModel.Project)
    | ProjectScraped(project: ProjectModel.Project, images: seq<ImageModel.Image>)

  /** Whether `scrape_project` returned normally, link by link. */
  function Oks(runs: seq<ProjectRun>): (r: seq<bool>)
    ensures |r| == |runs|
  {
    if runs == [] then [] else Oks(runs[..|runs| - 1]) + [runs[|runs| - 1].ProjectScraped?]
  }

  lemma {:induction false} OksPrefix(runs: seq<ProjectRun>, k: nat)
    requires k <= |runs|
    ensures Oks(runs)[..k] == Oks(runs[..k])
  {
    if k < |runs| {
      var n := |runs| - 1;
      OksPrefix(runs[..n], k);
      assert runs[..n][..k] == runs[..k];
      assert Oks(runs)[..n] == Oks(runs[..n]);
    } else {
      assert runs[..k] == runs;
    }
  }

  lemma {:induction false} OksAt(runs: seq<ProjectRun>, i: nat)
    requires i < |runs|
    ensures Oks(runs)[i] <==> runs[i].ProjectScraped?
  {
    if i < |runs| - 1 {
      OksAt(runs[..|runs| - 1], i);
    }
  }

  /** `project_repo.upsert(project)`, into collection `c`. */
  function WithProject(data: map<CollectionRef, Docs>, c: CollectionRef, p: ProjectModel.Project): map<CollectionRef, Docs> {
    data[c := UpsertOne(DocsAt(data, c), PR.IdFilter(p.id), ProjectModel.ToMongoDict(p))]
  }

  /** `image_repo.save_many(images)`, into collection `c`. */
  function WithImages(data: map<CollectionRef, Docs>, c: CollectionRef, images: seq<ImageModel.Image>): map<CollectionRef, Docs> {
    data[c := InsertMany(DocsAt(data, c), IR.MongoDicts(images))]
  }

  /** Everything a scrape writes to: the file system, the pipeline's output
      directory and the database. */
  datatype Effects = Effects(fs: IP.FsState, outputDir: string, data: map<CollectionRef, Docs>)

  /** What stays fixed while the scraper runs: its output directory, the
      two collections it writes projects and images to, and what the
      pipeline's `download_many` leaves on the file system for a directory
      and a list of URLs. */
  datatype Env = Env(root: string, projects: CollectionRef, images: CollectionRef,
                     download: (IP.FsState, string, seq<string>) -> IP.FsState)

  /** `Path(output_dir) / str(project.id)` */
  function ProjectDir(root: string, p: ProjectModel.Project): string {
    IP.JoinPath(root, IntToString(p.id))
  }

  /** The writes of `scrape_project` for one link: none when it raises
      before the upsert, the upsert alone when it raises after it or finds
      no image, and otherwise the upsert, the images inserted and every
      image downloaded into the project's directory. */
  function ProjectEffect(e: Effects, run: ProjectRun, env: Env): Effects {
    match run
    case ProjectRaised => e
    case ImagesRaised(p) => e.(data := WithProject(e.data, env.projects, p))
    case ProjectScraped(p, images) =>
      if images == [] then e.(data := WithProject(e.data, env.projects, p))
      else
        var dir := ProjectDir(env.root, p);
        Effects(env.download(e.fs, dir, ImageUrls(images)), dir,
                WithImages(WithProject(e.data, env.projects, p), env.images, images))
  }

  /** How far the loop has got: the processed set, the links counted and
      attempted, and the writes so far. */
  datatype Progress = Progress(processed: set<string>, count: nat, attempted: seq<string>, effects: Effects)

  /** One turn of the loop on link `url`: a processed link is skipped; any
      other is attempted, its writes `after` are made, and it is counted and
      added to the processed set only if `scrape_project` returned normally
      (`scraped`). */
  function Turn(st: Progress, url: string, scraped: bool, after: Effects): Progress {
    if url in st.processed then st
    else if scraped then Progress(st.processed + {url}, st.count + 1, st.attempted + [url], after)
    else Progress(st.processed, st.count, st.attempted + [url], after)
  }

  /** The turns over `links`, in order, each link writing what scraping it
      does. */
  function Turns(st: Progress, links: seq<string>, runs: seq<ProjectRun>, env: Env): Progress
    requires |runs| == |links|
  {
    if links == [] then st
    else
      var n := |links| - 1;
      var prev := Turns(st, links[..n], runs[..n], env);
      Turn(prev, links[n], runs[n].ProjectScraped?, ProjectEffect(prev.effects, runs[n], env))
  }

  /** The loop keeps to `Pass`: the processed set grows by exactly the
      links scraped, the count is theirs, and the links attempted are the
      same. */
  lemma {:induction false} TurnsFollowPass(done: set<string>, e: Effects, links: seq<string>, runs: seq<ProjectRun>, env: Env)
    requires |runs| == |links|
    ensures var p := Pass(links, Oks(runs), done);
      var t := Turns(Progress(done, 0, [], e), links, runs, env);
      && t.processed == done + Elems(p.scraped) && t.count == |p.scraped| && t.attempted == p.attempted
  {
    hide ProjectEffect;
    if links != [] {
      var n := |links| - 1;
      TurnsFollowPass(done, e, links[..n], runs[..n], env);
      OksPrefix(runs, n);
      OksAt(runs, n);
      var p := Pass(links[..n], Oks(runs[..n]), done);
      ElemsSnoc(p.scraped, links[n]);
    }
  }

  /** A pass over links that were all processed before changes nothing: a
      rerun leaves the database and the files as they were. */
  lemma {:induction false} ProcessedTurnsChangeNothing(st: Progress, links: seq<string>, runs: seq<ProjectRun>, env: Env)
    requires |runs| == |links|
    requires forall i :: 0 <= i < |links| ==> links[i] in st.processed
    ensures Turns(st, links, runs, env) == st
  {
    hide ProjectEffect;
    if links != [] {
      var n := |links| - 1;
      ProcessedTurnsChangeNothing(st, links[..n], runs[..n], env);
      assert links[n] in st.processed;
    }
  }

  /** The loop writes only the project and image collections: every other
      collection, the users' among them, keeps its documents. */
  lemma {:induction false} TurnsWriteTwoCollections(st: Progress, links: seq<string>, runs: seq<ProjectRun>, env: Env,
                                                    c: CollectionRef)
    requires |runs| == |links|
    requires c != env.projects && c != env.images
    ensures DocsAt(Turns(st, links, runs, env).effects.data, c) == DocsAt(st.effects.data, c)
  {
    if links != [] {
      var n := |links| - 1;
      var prev := Turns(st, links[..n], runs[..n], env);
      TurnsWriteTwoCollections(st, links[..n], runs[..n], env, c);
      if links[n] !in prev.processed {
        ProjectEffectOtherCollections(prev.effects, runs[n], env, c);
      }
    }
  }

  lemma ProjectEffectOtherCollections(e: Effects, run: ProjectRun, env: Env, c: CollectionRef)
    requires c != env.projects && c != env.images
    ensures DocsAt(ProjectEffect(e, run, env).data, c) == DocsAt(e.data, c)
  {
    if run.ImagesRaised? || run.ProjectScraped? {
      var d := WithProject(e.data, env.projects, run.project);
      assert DocsAt(d, c) == DocsAt(e.data, c);
      if run.ProjectScraped? {
        assert DocsAt(WithImages(d, env.images, run.images), c) == DocsAt(d, c);
      }
    }
  }

  /** The command-line modes, with their arguments. */
  datatype Mode = SearchMode(query: string) | UserMode(username: string) | TrendingMode

  /** `main`: one of `--search`, `--user` and `--trending` must be given (an
      empty string counts as absent), and the first of them in that order
      decides the mode. */
  function SelectMode(search: Option<string>, user: Option<string>, trending: bool): (r: Result<Mode, string>)
  {
    if search.Some? && search.value != "" then Ok(SearchMode(search.value))
    else if user.Some? && user.value != "" then Ok(UserMode(user.value))
    else if trending then Ok(TrendingMode)
    else Err("Must specify one of: --search, --user, or --trending")
  }

  lemma SelectModeProperties(search: Option<string>, user: Option<string>, trending: bool)
    ensures var given := |(if search.Some? && search.value != "" then {0} else {})
                          + (if user.Some? && user.value != "" then {1} else {})
                          + (if trending then {2} else {})|;
      SelectMode(search, user, trending).Err? <==> given == 0
    ensures search.Some? && search.value != "" ==> SelectMode(search, user, trending) == Ok(SearchMode(search.value))
    ensures SelectMode(search, user, trending) == Ok(TrendingMode) ==> trending && (search.None? || search.value == "") && (user.None? || user.value == "")
  {
  }

  class Scraper {
    /** `processed_projects` */
    var processedProjects: set<string>
    const outputDir: string
    const store: Store
    const projectRepo: PR.ProjectRepository
    const imageRepo: IR.ImageRepository
    const userRepo: UR.UserRepository
    const pipeline: IP.ImagePipeline

    /** The repositories write to the one database the scraper connected to. */
    ghost predicate Valid()
      reads projectRepo, imageRepo, userRepo
    {
      && projectRepo.store == store && imageRepo.store == store && userRepo.store == store
      && projectRepo.Valid() && imageRepo.Valid() && userRepo.Valid()
    }

    constructor (outputDir: string, store: Store, projectRepo: PR.ProjectRepository, imageRepo: IR.ImageRepository,
                 userRepo: UR.UserRepository, pipeline: IP.ImagePipeline)
      requires projectRepo.store == store && imageRepo.store == store && userRepo.store == store
      requires projectRepo.Valid() && imageRepo.Valid() && userRepo.Valid()
      ensures Valid() && processedProjects == {}
      ensures this.outputDir == outputDir && this.store == store && this.pipeline == pipeline
      ensures this.projectRepo == projectRepo && this.imageRepo == imageRepo && this.userRepo == userRepo
    {
      this.outputDir := outputDir;
      this.store := store;
      this.projectRepo := projectRepo;
      this.imageRepo := imageRepo;
      this.userRepo := userRepo;
      this.pipeline := pipeline;
      processedProjects := {};
    }

    /** What the scraper's writes reach now. */
    ghost function Now(): Effects
      reads store, pipeline, pipeline.fs
    {
      Effects(pipeline.fs.state, pipeline.outputDir, store.data)
    }

    ghost function LoopEnv(): Env {
      Env(outputDir, projectRepo.Target(), imageRepo.Target(),
          (fs, dir, urls) => IP.DownloadAll(fs, dir, urls, pipeline.md5hex, pipeline.fetch).0)
    }

    /** The loop shared by the three modes, over the links the mode
        discovered; `runs[i]` is what scraping `links[i]` yields.
        `attempted` lists the links scraped, in order. */
    method ScrapeLinks(links: seq<string>, maxProjects: int, runs: seq<ProjectRun>) returns (count: nat, attempted: seq<string>)
      requires Valid()
      requires |runs| == |links|
      modifies this, projectRepo, imageRepo, store, pipeline, pipeline.fs
      ensures Valid()
      ensures var considered := PyTake(links, maxProjects);
        var r := Pass(considered, Oks(runs)[..|considered|], old(processedProjects));
        && count == |r.scraped| && attempted == r.attempted
        && processedProjects == old(processedProjects) + Elems(r.scraped)
      ensures var considered := PyTake(links, maxProjects);
        Now() == Turns(Progress(old(processedProjects), 0, [], old(Now())), considered, runs[..|considered|], LoopEnv()).effects
    {
      hide ProjectEffect;
      var considered := PyTake(links, maxProjects);
      var rs := runs[..|considered|];
      ghost var start, env := Progress(processedProjects, 0, [], Now()), LoopEnv();
      count := 0;
      attempted := [];
      var i := 0;
      while i < |considered|
        invariant 0 <= i <= |considered|
        invariant Valid() && LoopEnv() == env
        invariant Progress(processedProjects, count, attempted, Now()) == Turns(start, considered[..i], rs[..i], env)
      {
        assert considered[..i + 1][..i] == considered[..i];
        assert rs[..i + 1][..i] == rs[..i];
        count, attempted := Visit(considered[i], rs[i], count, attempted);
        i := i + 1;
      }
      assert considered[..i] == considered && rs[..i] == rs;
      TurnsFollowPass(start.processed, start.effects, considered, rs, env);
      OksPrefix(runs, |considered|);
    }

    /** One turn of the loop, on the count and the list of links
        attempted so far: a processed link is skipped. */
    method Visit(url: string, run: ProjectRun, count: nat, attempted: seq<string>) returns (count': nat, attempted': seq<string>)
      requires Valid()
      modifies this, projectRepo, imageRepo, store, pipeline, pipeline.fs
      ensures Valid()
      ensures Progress(processedProjects, count', attempted', Now())
           == Turn(Progress(old(processedProjects), count, attempted, old(Now())), url, run.ProjectScraped?,
                   ProjectEffect(old(Now()), run, LoopEnv()))
    {
      hide ProjectEffect;
      count', attempted' := count, attempted;
      if url !in processedProjects {
        attempted' := attempted + [url];
        var ok := ScrapeLink(url, run);
        if ok {
          count' := count + 1;
        }
      }
    }

    /** The `try` block for link `url`: `scrape_project` up to where it
        raises, then, if it returned normally, `url` joins the processed
        set; `ok` says whether it did. */
    method ScrapeLink(url: string, run: ProjectRun) returns (ok: bool)
      requires Valid()
      modifies this, projectRepo, imageRepo, store, pipeline, pipeline.fs
      ensures Valid()
      ensures ok <==> run.ProjectScraped?
      ensures processedProjects == if ok then old(processedProjects) + {url} else old(processedProjects)
      ensures Now() == ProjectEffect(old(Now()), run, LoopEnv())
    {
      match run
      case ProjectRaised =>
        ok := false;
      case ImagesRaised(p) =>
        projectRepo.Upsert(p);
        ok := false;
      case ProjectScraped(p, images) =>
        ScrapeProject(p, images);
        processedProjects := processedProjects + {url};
        ok := true;
    }

    /** `scrape_project`: the project is upserted first; only a non-empty
        image list is saved and downloaded, into the directory named after
        the project id. */
    method ScrapeProject(project: ProjectModel.Project, images: seq<ImageModel.Image>)
      requires Valid()
      modifies projectRepo, imageRepo, store, pipeline, pipeline.fs
      ensures Valid()
      ensures var pt := projectRepo.Target();
        var upserted := old(store.data)[pt := UpsertOne(old(store.Get(pt)), PR.IdFilter(project.id), ProjectModel.ToMongoDict(project))];
        store.data == if images == [] then upserted
                      else upserted[imageRepo.Target() := InsertMany(old(store.Get(imageRepo.Target())), IR.MongoDicts(images))]
      ensures images == [] ==> pipeline.outputDir == old(pipeline.outputDir) && pipeline.fs.state == old(pipeline.fs.state)
      ensures images != [] ==> pipeline.outputDir == IP.JoinPath(outputDir, IntToString(project.id))
      ensures images != [] ==> pipeline.fs.state == IP.DownloadAll(old(pipeline.fs.state), pipeline.outputDir, ImageUrls(images),
                                                                     pipeline.md5hex, pipeline.fetch).0
    {
      projectRepo.Upsert(project);
      if images != [] {
        StoreImages(project.id, images);
      }
    }

    /** The image half of `scrape_project`: the images are saved, then
        downloaded into the directory named after the project id. */
    method StoreImages(projectId: int, images: seq<ImageModel.Image>)
      requires Valid() && images != []
      modifies imageRepo, store, pipeline, pipeline.fs
      ensures Valid()
      ensures store.data == old(store.data)[imageRepo.Target() := InsertMany(old(store.Get(imageRepo.Target())), IR.MongoDicts(images))]
      ensures pipeline.outputDir == IP.JoinPath(outputDir, IntToString(projectId))
      ensures pipeline.fs.state == IP.DownloadAll(old(pipeline.fs.state), pipeline.outputDir, ImageUrls(images),
                                                  pipeline.md5hex, pipeline.fetch).0
    {
      imageRepo.SaveMany(images);
      pipeline.outputDir := IP.JoinPath(outputDir, IntToString(projectId));
      var results := pipeline.DownloadMany(ImageUrls(images));
    }

    /** `scrape_user`: the user is saved (always inserted), then the user's
        project links go through the shared loop. */
    method ScrapeUser(user: UserModel.User, links: seq<string>, maxProjects: int, runs: seq<ProjectRun>)
      returns (count: nat, attempted: seq<string>)
      requires Valid()
      requires |runs| == |links|
      modifies this, userRepo, projectRepo, imageRepo, store, pipeline, pipeline.fs
      ensures Valid()
      ensures var considered := PyTake(links, maxProjects);
        var r := Pass(considered, Oks(runs)[..|considered|], old(processedProjects));
        && count == |r.scraped| && attempted == r.attempted
        && processedProjects == old(processedProjects) + Elems(r.scraped)
      ensures var considered := PyTake(links, maxProjects);
        var ut := userRepo.Target();
        var saved := old(Now()).(data := old(store.data)[ut := InsertOne(old(store.Get(ut)), UserModel.ToMongoDict(user))]);
        Now() == Turns(Progress(old(processedProjects), 0, [], saved), considered, runs[..|considered|], LoopEnv()).effects
    {
      var saved := userRepo.Save(user);
      count, attempted := ScrapeLinks(links, maxProjects, runs);
    }
  }
}
