/** `ImagePipeline`: names downloaded images after a digest of their URL,
    writes them under an output directory, and turns every per-URL failure
    into a result. The network and the MD5 digest are parameters. */
module ImagePipeline {
  import opened Wrappers
  import opened Text
  import opened UrlParse

  type Bytes = seq<bv8>

  /** What `client.get(url)` yields: a response, or a transport failure
      raised as an exception. */
  datatype Response = Response(status: nat, content: Bytes) | TransportError(message: string)

  /** The local file system: directories and the contents of files, by path. */
  datatype FsState = FsState(dirs: set<string>, files: map<string, Bytes>)

  /** `ImageDownloadResult` */
  datatype DownloadResult = DownloadResult(success: bool, url: string, localPath: Option<string>, errorMessage: Option<string>)

  function Failed(url: string, message: string): DownloadResult {
    DownloadResult(false, url, None, Some(message))
  }

  /** A file extension as `Path.suffix` returns it. */
  predicate IsExtension(e: string) {
    |e| >= 2 && e[0] == '.' && '.' !in e[1..] && '/' !in e
  }

  /** The suffix of the path's last segment, or `.jpg` when it has none. */
  function Extension(path: string): (r: string)
    ensures IsExtension(r)
  {
    var name := PathName(path);
    var sfx := Suffix(name);
    if sfx == "" then DefaultIsExtension(); ".jpg"
    else SuffixIsExtension(name); sfx
  }

  lemma DefaultIsExtension()
    ensures IsExtension(".jpg")
  {
    assert ".jpg"[1..] == "jpg";
  }

  /** A non-empty suffix of a name without a slash is an extension. */
  lemma SuffixIsExtension(name: string)
    requires '/' !in name && Suffix(name) != ""
    ensures IsExtension(Suffix(name))
  {
    var sfx := Suffix(name);
    NotInSlice(name, |name| - |sfx|, '/');
  }

  lemma NotInSlice(s: string, i: nat, c: char)
    requires i <= |s| && c !in s
    ensures c !in s[i..]
  {
  }

  /** `generate_filename`: the hex digest of the whole URL followed by the
      extension of its path. `urlparse` raising makes it fail. */
  function GenerateFilename(url: string, md5hex: string -> string): (r: Result<string, string>)
    ensures r.Ok? <==> UrlPath(url).Ok?
    ensures r.Ok? ==> |r.value| >= |md5hex(url)| + 2
    ensures r.Ok? ==> r.value[..|md5hex(url)|] == md5hex(url) && IsExtension(r.value[|md5hex(url)|..])
  {
    var path :- UrlPath(url);
    var name := md5hex(url) + Extension(path);
    assert name[|md5hex(url)|..] == Extension(path);
    Ok(name)
  }

  /** A query string changes the digest but never the extension. */
  lemma FilenameIgnoresQuery(base: string, q: string, md5hex: string -> string)
    requires NoMarks(base) && UrlPath(base).Ok?
    ensures GenerateFilename(base + "?" + q, md5hex)
         == Ok(md5hex(base + "?" + q) + Extension(UrlPath(base).value))
  {
    UrlPathIgnoresQuery(base, q);
  }

  /** A path whose last segment has no suffix gets `.jpg`. */
  lemma DefaultExtension(url: string, md5hex: string -> string)
    requires UrlPath(url).Ok? && Suffix(PathName(UrlPath(url).value)) == ""
    ensures GenerateFilename(url, md5hex) == Ok(md5hex(url) + ".jpg")
  {
  }

  /** The root of a POSIX path: `//` when it starts with exactly two
      slashes, `/` when with one or three or more, and none otherwise. */
  function Root(p: string): (r: string)
    ensures r == "" || r == "/" || r == "//"
    ensures r == "" <==> p == [] || p[0] != '/'
  {
    if |p| >= 2 && p[..2] == "//" && (|p| == 2 || p[2] != '/') then "//"
    else if p != [] && p[0] == '/' then "/"
    else ""
  }

  /** A path segment `pathlib` keeps: not empty, not `.`, no slash. */
  predicate IsSegment(x: string) {
    x != "" && x != "." && '/' !in x
  }

  /** The segments `pathlib` keeps from a path: the parts between slashes,
      without the empty ones and the `.` ones. */
  function Segments(p: string): seq<string>
    decreases |p|
  {
    if p == [] then []
    else
      var head := BeforeFirst(p, '/');
      var rest := if |head| < |p| then p[|head| + 1..] else [];
      (if head == "" || head == "." then [] else [head]) + Segments(rest)
  }

  /** Every segment kept is one `pathlib` would keep. */
  lemma {:induction false} SegmentsKept(p: string)
    ensures forall k :: 0 <= k < |Segments(p)| ==> IsSegment(Segments(p)[k])
    decreases |p|
  {
    if p != [] {
      var head := BeforeFirst(p, '/');
      var rest := if |head| < |p| then p[|head| + 1..] else [];
      SegmentsKept(rest);
    }
  }

  /** The segments with a slash between each two. */
  function JoinSegments(segs: seq<string>): string {
    if segs == [] then ""
    else if |segs| == 1 then segs[0]
    else segs[0] + "/" + JoinSegments(segs[1..])
  }

  /** The string of a path made of a root and segments; the empty relative
      path is `.`. */
  function Render(root: string, segs: seq<string>): string {
    if root == "" && segs == [] then "." else root + JoinSegments(segs)
  }

  /** `str(Path(p))` */
  function PathStr(p: string): string {
    Render(Root(p), Segments(p))
  }

  /** `str(Path(output_dir) / filename)`: an absolute name replaces the
      directory; otherwise the segments of both are joined under the
      directory's root. */
  function JoinPath(dir: string, name: string): string {
    if Root(name) != "" then PathStr(name)
    else Render(Root(dir), Segments(dir) + Segments(name))
  }

  lemma BeforeFirstOfJoined(a: string, b: string)
    requires '/' !in a
    ensures BeforeFirst(a + "/" + b, '/') == a
  {
    if a != [] {
      assert (a + "/" + b)[1..] == a[1..] + "/" + b;
      BeforeFirstOfJoined(a[1..], b);
    }
  }

  /** Splitting joined segments gives them back. */
  lemma {:induction false} SegmentsOfJoin(segs: seq<string>)
    requires forall k :: 0 <= k < |segs| ==> IsSegment(segs[k])
    ensures Segments(JoinSegments(segs)) == segs
  {
    if |segs| == 1 {
      var p := segs[0];
      BeforeFirstKeeps(p);
      assert Segments(p) == [p] + Segments([]);
    } else if |segs| > 1 {
      var p := JoinSegments(segs);
      SegmentsOfJoin(segs[1..]);
      BeforeFirstOfJoined(segs[0], JoinSegments(segs[1..]));
      assert p[|segs[0]| + 1..] == JoinSegments(segs[1..]);
    }
  }

  lemma BeforeFirstKeeps(p: string)
    requires '/' !in p
    ensures BeforeFirst(p, '/') == p
  {
  }

  /** Slashes in front of a path add no segment. */
  lemma SegmentsAfterSlash(x: string)
    ensures Segments("/" + x) == Segments(x)
  {
    assert BeforeFirst("/" + x, '/') == "";
    assert ("/" + x)[1..] == x;
  }

  /** The string of a root and segments reads back as that root and those
      segments. */
  lemma RenderRoundTrip(root: string, segs: seq<string>)
    requires root == "" || root == "/" || root == "//"
    requires forall k :: 0 <= k < |segs| ==> IsSegment(segs[k])
    ensures Root(Render(root, segs)) == root
    ensures Segments(Render(root, segs)) == segs
  {
    SegmentsOfJoin(segs);
    if root == "" && segs == [] {
      assert Segments(".") == [] + Segments([]);
    } else {
      RenderRoot(root, segs);
      SegmentsAfterRoot(root, JoinSegments(segs));
    }
  }

  lemma RenderRoot(root: string, segs: seq<string>)
    requires root == "" || root == "/" || root == "//"
    requires forall k :: 0 <= k < |segs| ==> IsSegment(segs[k])
    requires root != "" || segs != []
    ensures Root(root + JoinSegments(segs)) == root
  {
    var j := JoinSegments(segs);
    if segs != [] {
      JoinSegmentsStarts(segs);
      assert j[0] == segs[0][0];
    }
    var p := root + j;
    if root == "/" && j != [] {
      assert p[..2] == ['/', j[0]];
    } else if root == "//" && j != [] {
      assert p[2] == j[0];
    }
  }

  lemma SegmentsAfterRoot(root: string, j: string)
    requires root == "" || root == "/" || root == "//"
    ensures Segments(root + j) == Segments(j)
  {
    if root == "/" {
      SegmentsAfterSlash(j);
    } else if root == "//" {
      SegmentsAfterSlash(j);
      SegmentsAfterSlash("/" + j);
      assert "//" + j == "/" + ("/" + j);
    } else {
      assert root + j == j;
    }
  }

  lemma JoinSegmentsStarts(segs: seq<string>)
    requires segs != []
    ensures |JoinSegments(segs)| >= |segs[0]| && JoinSegments(segs)[..|segs[0]|] == segs[0]
  {
  }

  /** Joining is `pathlib`'s: a relative name adds its segments after the
      directory's, under the directory's root, an absolute one replaces the
      directory, and the result is already in the form `str(Path(...))`
      gives. */
  lemma JoinPathProperties(dir: string, name: string)
    ensures Root(name) == "" ==>
      Root(JoinPath(dir, name)) == Root(dir) && Segments(JoinPath(dir, name)) == Segments(dir) + Segments(name)
    ensures Root(name) != "" ==> JoinPath(dir, name) == PathStr(name)
    ensures PathStr(JoinPath(dir, name)) == JoinPath(dir, name)
  {
    SegmentsKept(dir);
    SegmentsKept(name);
    if Root(name) == "" {
      RenderRoundTrip(Root(dir), Segments(dir) + Segments(name));
    } else {
      RenderRoundTrip(Root(name), Segments(name));
    }
  }

  /** The Behance scraper's default directory loses its `./` when a
      project's id is joined to it. */
  lemma JoinPathDropsDot()
    ensures JoinPath("./behance_images", "42") == "behance_images/42"
  {
    var dir, d, n := "./behance_images", "behance_images", "42";
    DropsDotParts();
    BeforeFirstOfJoined(".", d);
    assert Segments(dir) == Segments(d);
    OneSegment(d);
    OneSegment(n);
    assert JoinSegments([d, n]) == d + "/" + n;
  }

  lemma DropsDotParts()
    ensures "./behance_images" == "." + "/" + "behance_images"
    ensures "behance_images/42" == "behance_images" + "/" + "42"
    ensures IsSegment("behance_images") && IsSegment("42")
    ensures Root("./behance_images") == "" && Root("42") == ""
  {
  }

  lemma OneSegment(x: string)
    requires IsSegment(x)
    ensures Segments(x) == [x]
  {
    BeforeFirstKeeps(x);
    assert Segments(x) == [x] + Segments([]);
  }

  /** The directory and all its parents, as `mkdir(parents=True)` creates
      them. */
  function Ancestors(dir: string): (r: set<string>)
    ensures forall p :: p in r ==> |p| > 0 && p <= dir
  {
    set i | 0 < i <= |dir| && (i == |dir| || dir[i] == '/') :: dir[..i]
  }

  /** `ensure_output_dir`: `mkdir(parents=True, exist_ok=True)`, which
      fails only when a file stands where a directory must be. */
  function EnsureDir(fs: FsState, dir: string): (r: Result<FsState, string>)
    ensures r.Ok? <==> forall p :: p in Ancestors(PathStr(dir)) ==> p !in fs.files
    ensures r.Ok? ==> r.value.files == fs.files
    ensures r.Ok? ==> r.value.dirs == fs.dirs + Ancestors(PathStr(dir))
  {
    var d := PathStr(dir);
    if exists p :: p in Ancestors(d) && p in fs.files then Err("File exists: " + dir)
    else Ok(fs.(dirs := fs.dirs + Ancestors(d)))
  }

  /** `download_image`: one URL, the new file system and its result. Any
      failure along the way is caught and reported in the result. */
  function DownloadStep(fs: FsState, outputDir: string, url: string,
                        md5hex: string -> string, fetch: string -> Response): (r: (FsState, DownloadResult))
    ensures r.1.url == url
    ensures r.1.success <==> r.1.localPath.Some?
    ensures r.1.success <==> r.1.errorMessage.None?
  {
    match EnsureDir(fs, outputDir)
    case Err(e) => (fs, Failed(url, e))
    case Ok(fs1) => FetchStep(fs1, outputDir, url, md5hex, fetch)
  }

  /** The part of `download_image` after the directory exists: name the
      file, fetch the URL and write the body. */
  function FetchStep(fs: FsState, outputDir: string, url: string,
                     md5hex: string -> string, fetch: string -> Response): (r: (FsState, DownloadResult))
    ensures r.1.url == url
    ensures r.1.success <==> r.1.localPath.Some?
    ensures r.1.success <==> r.1.errorMessage.None?
    ensures !r.1.success ==> r.0 == fs
    ensures r.1.success ==>
      && GenerateFilename(url, md5hex).Ok?
      && fetch(url).Response? && 200 <= fetch(url).status <= 299
      && r.1.localPath == Some(JoinPath(outputDir, GenerateFilename(url, md5hex).value))
      && r.0 == fs.(files := fs.files[r.1.localPath.value := fetch(url).content])
  {
    match GenerateFilename(url, md5hex)
    case Err(e) => (fs, Failed(url, e))
    case Ok(filename) => SaveStep(fs, JoinPath(outputDir, filename), url, fetch(url))
  }

  /** The response to `url` written to `localPath`: a transport failure, a
      status outside 2xx or a directory in the way is a failed result. */
  function SaveStep(fs: FsState, localPath: string, url: string, response: Response): (r: (FsState, DownloadResult))
    ensures r.1.url == url
    ensures r.1.success <==> r.1.localPath.Some?
    ensures r.1.success <==> r.1.errorMessage.None?
    ensures !r.1.success ==> r.0 == fs
    ensures r.1.success <==> response.Response? && 200 <= response.status <= 299 && localPath !in fs.dirs
    ensures r.1.success ==> r.1.localPath == Some(localPath) && r.0 == fs.(files := fs.files[localPath := response.content])
  {
    match response
    case TransportError(m) => (fs, Failed(url, m))
    case Response(status, content) =>
      if !(200 <= status <= 299) then (fs, Failed(url, "HTTP status " + NatToString(status) + " for url " + url))
      else if localPath in fs.dirs then (fs, Failed(url, "Is a directory: " + localPath))
      else (fs.(files := fs.files[localPath := content]), DownloadResult(true, url, Some(localPath), None))
  }

  /** A failed download writes no file; a successful one has made the
      output directory with its parents and written the response body under
      the name made from the URL. */
  lemma DownloadStepEffect(fs: FsState, outputDir: string, url: string,
                           md5hex: string -> string, fetch: string -> Response)
    ensures var r := DownloadStep(fs, outputDir, url, md5hex, fetch);
      && (!r.1.success ==> r.0.files == fs.files)
      && (r.1.success ==>
        && EnsureDir(fs, outputDir).Ok?
        && GenerateFilename(url, md5hex).Ok?
        && fetch(url).Response? && 200 <= fetch(url).status <= 299
        && r.1.localPath == Some(JoinPath(outputDir, GenerateFilename(url, md5hex).value))
        && r.0.files == fs.files[r.1.localPath.value := fetch(url).content]
        && Ancestors(PathStr(outputDir)) <= r.0.dirs)
  {
  }

  /** A download succeeds exactly when the directory can be made, the URL
      parses, the server answers 2xx and the target is not a directory. */
  lemma DownloadSucceedsIff(fs: FsState, outputDir: string, url: string,
                            md5hex: string -> string, fetch: string -> Response)
    ensures DownloadStep(fs, outputDir, url, md5hex, fetch).1.success <==>
      && EnsureDir(fs, outputDir).Ok?
      && GenerateFilename(url, md5hex).Ok?
      && fetch(url).Response? && 200 <= fetch(url).status <= 299
      && JoinPath(outputDir, GenerateFilename(url, md5hex).value) !in EnsureDir(fs, outputDir).value.dirs
  {
  }

  /** `download_many`: the downloads one after another, in input order. */
  function DownloadAll(fs: FsState, outputDir: string, urls: seq<string>,
                       md5hex: string -> string, fetch: string -> Response): (r: (FsState, seq<DownloadResult>))
    ensures |r.1| == |urls|
  {
    if urls == [] then (fs, [])
    else
      var init := urls[..|urls| - 1];
      var prev := DownloadAll(fs, outputDir, init, md5hex, fetch);
      var step := DownloadStep(prev.0, outputDir, urls[|urls| - 1], md5hex, fetch);
      (step.0, prev.1 + [step.1])
  }

  /** Result `i` of `download_many` is that of downloading `urls[i]` on
      the file system the earlier downloads left, so what `DownloadStep`
      promises holds of every result. */
  lemma {:induction false} DownloadAllResult(fs: FsState, outputDir: string, urls: seq<string>,
                                             md5hex: string -> string, fetch: string -> Response, i: nat)
    requires i < |urls|
    ensures var r := DownloadAll(fs, outputDir, urls, md5hex, fetch).1[i];
      r == DownloadStep(DownloadAll(fs, outputDir, urls[..i], md5hex, fetch).0, outputDir, urls[i], md5hex, fetch).1
  {
    hide DownloadStep;
    var n := |urls| - 1;
    var init := urls[..n];
    if i < n {
      DownloadAllResult(fs, outputDir, init, md5hex, fetch, i);
      assert init[..i] == urls[..i];
    } else {
      assert init == urls[..i];
    }
  }

  /** The local file system as a mutable object. */
  class FileSystem {
    var state: FsState

    constructor (s: FsState)
      ensures state == s
    {
      state := s;
    }
  }

  class ImagePipeline {
    var outputDir: string
    const fs: FileSystem
    const md5hex: string -> string
    const fetch: string -> Response

    constructor (outputDir: string, fs: FileSystem, md5hex: string -> string, fetch: string -> Response)
      ensures this.outputDir == outputDir && this.fs == fs && this.md5hex == md5hex && this.fetch == fetch
    {
      this.outputDir := outputDir;
      this.fs := fs;
      this.md5hex := md5hex;
      this.fetch := fetch;
    }

    /** `ensure_output_dir` */
    method EnsureOutputDir() returns (r: Result<(), string>)
      modifies fs
      ensures match EnsureDir(old(fs.state), outputDir)
        case Ok(s) => r.Ok? && fs.state == s
        case Err(e) => r == Err(e) && fs.state == old(fs.state)
    {
      match EnsureDir(fs.state, outputDir)
      case Ok(s) =>
        fs.state := s;
        r := Ok(());
      case Err(e) =>
        r := Err(e);
    }

    /** `download_image` */
    method DownloadImage(url: string) returns (r: DownloadResult)
      modifies fs
      ensures (fs.state, r) == DownloadStep(old(fs.state), outputDir, url, md5hex, fetch)
    {
      var ok := EnsureOutputDir();
      if ok.Err? {
        return Failed(url, ok.error);
      }
      r := FetchImage(url);
    }

    /** The download once the output directory exists. */
    method FetchImage(url: string) returns (r: DownloadResult)
      modifies fs
      ensures (fs.state, r) == FetchStep(old(fs.state), outputDir, url, md5hex, fetch)
    {
      var name := GenerateFilename(url, md5hex);
      if name.Err? {
        return Failed(url, name.error);
      }
      r := SaveResponse(url, JoinPath(outputDir, name.value), fetch(url));
    }

    /** Writing the response, once the file name is known. */
    method SaveResponse(url: string, localPath: string, response: Response) returns (r: DownloadResult)
      modifies fs
      ensures (fs.state, r) == SaveStep(old(fs.state), localPath, url, response)
    {
      if response.TransportError? {
        return Failed(url, response.message);
      }
      if !(200 <= response.status <= 299) {
        return Failed(url, "HTTP status " + NatToString(response.status) + " for url " + url);
      }
      if localPath in fs.state.dirs {
        return Failed(url, "Is a directory: " + localPath);
      }
      fs.state := fs.state.(files := fs.state.files[localPath := response.content]);
      r := DownloadResult(true, url, Some(localPath), None);
    }

    /** `download_many`: one result per URL, in input order. */
    method DownloadMany(urls: seq<string>) returns (results: seq<DownloadResult>)
      modifies fs
      ensures (fs.state, results) == DownloadAll(old(fs.state), outputDir, urls, md5hex, fetch)
    {
      results := [];
      var i := 0;
      while i < |urls|
        invariant 0 <= i <= |urls|
        invariant (fs.state, results) == DownloadAll(old(fs.state), outputDir, urls[..i], md5hex, fetch)
      {
        assert urls[..i + 1][..i] == urls[..i];
        var r := DownloadImage(urls[i]);
        results := results + [r];
        i := i + 1;
      }
      assert urls[..i] == urls;
    }
  }
}
