/** `ImageExtractor`: project images from a page's `img` elements or from a
    project's JSON modules, and the format a URL suggests. */
module ImageExtractor {
  import opened Wrappers
  import opened Text
  import opened Documents
  import opened Html
  import opened ImageModel

  const DefaultWidth := 1920
  const DefaultHeight := 1080

  // ----- extract_format -----

  /** The formats `extract_format` can answer. */
  const GuessedFormats: seq<string> := ["jpg", "png", "gif", "webp", "svg"]

  /** `extract_format`: the first of `.jpg`/`.jpeg`, `.png`, `.gif`,
      `.webp`, `.svg` found anywhere in the lower-cased URL, and `jpg` when
      none is. */
  function ExtractFormat(url: string): (r: string)
    ensures r in GuessedFormats
    ensures var u := Lower(url);
      && (r == "png" <==> !Contains(u, ".jpg") && !Contains(u, ".jpeg") && Contains(u, ".png"))
      && (r == "gif" <==> !Contains(u, ".jpg") && !Contains(u, ".jpeg") && !Contains(u, ".png") && Contains(u, ".gif"))
      && (r == "webp" <==> !Contains(u, ".jpg") && !Contains(u, ".jpeg") && !Contains(u, ".png") && !Contains(u, ".gif")
                           && Contains(u, ".webp"))
      && (r == "svg" <==> !Contains(u, ".jpg") && !Contains(u, ".jpeg") && !Contains(u, ".png") && !Contains(u, ".gif")
                          && !Contains(u, ".webp") && Contains(u, ".svg"))
  {
    var u := Lower(url);
    if Contains(u, ".jpg") || Contains(u, ".jpeg") then "jpg"
    else if Contains(u, ".png") then "png"
    else if Contains(u, ".gif") then "gif"
    else if Contains(u, ".webp") then "webp"
    else if Contains(u, ".svg") then "svg"
    else "jpg"
  }

  /** Whatever `extract_format` answers passes the image format validator
      unchanged. */
  lemma ExtractFormatValidates(url: string)
    ensures ValidateFormat(ExtractFormat(url)) == Ok(ExtractFormat(url))
  {
    var f := ExtractFormat(url);
    ValidFormatsLowerCase(f);
    LowerOfLowerCase(f);
  }

  // ----- extract_from_page -----

  /** `img_elem.get('src') or img_elem.get('data-src')` */
  function ImageUrl(e: Element): Option<string> {
    Or(e.Get("src"), e.Get("data-src"))
  }

  const ThumbnailMarks: seq<string> := ["_thumb", "_small", "/32x32/", "/64x64/", "/avatar"]

  predicate IsThumbnail(url: string) {
    exists m :: m in ThumbnailMarks && Contains(url, m)
  }

  /** `int(img_elem.get(name, default))`: the default when the attribute is
      absent, otherwise the attribute as a Python integer literal. */
  function Dimension(e: Element, name: string, default: int): (r: Result<int, string>)
    ensures name !in e.attrs ==> r == Ok(default)
  {
    match e.Get(name)
    case None => Ok(default)
    case Some(v) =>
      match PyInt(v)
      case None => Err("invalid literal for int() with base 10: " + v)
      case Some(n) => Ok(n)
  }

  /** What the loop has gathered: the images, and the URLs it has seen. */
  type Gathered = (seq<Image>, set<string>)

  /** One element of `extract_from_page`: skipped when it has no URL, a
      seen URL or a thumbnail URL; otherwise its image is appended, and an
      invalid dimension or image makes the whole extraction raise. */
  function PageStep(acc: Gathered, e: Element, projectId: int): Result<Gathered, string> {
    var url := ImageUrl(e);
    if !Truthy(url) || url.value in acc.1 then Ok(acc)
    else if IsThumbnail(url.value) then Ok(acc)
    else
      var width :- Dimension(e, "width", DefaultWidth);
      var height :- Dimension(e, "height", DefaultHeight);
      var image :- MakeImage(url.value, width, height, 0, ExtractFormat(url.value), projectId);
      Ok((acc.0 + [image], acc.1 + {url.value}))
  }

  /** The loop of `extract_from_page` run over `es` from `start`; a raise
      ends it. */
  function Run(start: Result<Gathered, string>, es: seq<Element>, projectId: int): Result<Gathered, string> {
    if es == [] then start
    else
      var acc :- Run(start, es[..|es| - 1], projectId);
      PageStep(acc, es[|es| - 1], projectId)
  }

  function PageImages(es: seq<Element>, projectId: int): Result<Gathered, string> {
    Run(Ok(([], {})), es, projectId)
  }

  lemma RunSnoc(start: Result<Gathered, string>, es: seq<Element>, e: Element, projectId: int)
    ensures Run(start, es + [e], projectId)
         == if Run(start, es, projectId).Ok? then PageStep(Run(start, es, projectId).value, e, projectId)
            else Run(start, es, projectId)
  {
    assert (es + [e])[..|es|] == es;
  }

  /** Once an element makes the extraction raise, later elements change
      nothing. */
  lemma {:induction false} RunErrorSticks(m: string, es: seq<Element>, projectId: int)
    ensures Run(Err(m), es, projectId) == Err(m)
  {
    if es != [] {
      RunErrorSticks(m, es[..|es| - 1], projectId);
    }
  }

  /** Running over two pieces is running over their concatenation. */
  lemma {:induction false} RunConcat(start: Result<Gathered, string>, xs: seq<Element>, ys: seq<Element>, projectId: int)
    ensures Run(start, xs + ys, projectId) == Run(Run(start, xs, projectId), ys, projectId)
    decreases |ys|
  {
    if ys == [] {
      assert xs + ys == xs;
    } else {
      var init := ys[..|ys| - 1];
      assert xs + ys == (xs + init) + [ys[|ys| - 1]];
      RunConcat(start, xs, init, projectId);
      RunSnoc(start, xs + init, ys[|ys| - 1], projectId);
    }
  }

  /** An element that raises ends the run with its error. */
  lemma RaiseStops(start: Result<Gathered, string>, es: seq<Element>, j: nat, m: string, projectId: int)
    requires j < |es| && Run(start, es[..j + 1], projectId) == Err(m)
    ensures Run(start, es, projectId) == Err(m)
  {
    assert es == es[..j + 1] + es[j + 1..];
    RunConcat(start, es[..j + 1], es[j + 1..], projectId);
    RunErrorSticks(m, es[j + 1..], projectId);
  }

  /** What the images gathered so far satisfy: their URLs are the seen set
      and pairwise distinct, and each is a valid, non-thumbnail image of the
      project with size 0. */
  predicate GatheredInv(g: Gathered, projectId: int) {
    && g.1 == (set i | 0 <= i < |g.0| :: g.0[i].url)
    && (forall i, j :: 0 <= i < j < |g.0| ==> g.0[i].url != g.0[j].url)
    && (forall i :: 0 <= i < |g.0| ==> !IsThumbnail(g.0[i].url) && g.0[i].Valid())
    && (forall i :: 0 <= i < |g.0| ==> g.0[i].projectId == projectId && g.0[i].size == 0)
  }

  /** One element keeps the invariant, never forgets a seen URL, and
      leaves its usable non-thumbnail URL seen. */
  lemma StepKeepsInv(acc: Gathered, e: Element, projectId: int)
    requires GatheredInv(acc, projectId) && PageStep(acc, e, projectId).Ok?
    ensures GatheredInv(PageStep(acc, e, projectId).value, projectId)
    ensures acc.1 <= PageStep(acc, e, projectId).value.1
    ensures Truthy(ImageUrl(e)) && !IsThumbnail(ImageUrl(e).value) ==> ImageUrl(e).value in PageStep(acc, e, projectId).value.1
  {
    var url := ImageUrl(e);
    if Truthy(url) && url.value !in acc.1 && !IsThumbnail(url.value) {
      var next := PageStep(acc, e, projectId).value;
      var image := next.0[|acc.0|];
      assert next == (acc.0 + [image], acc.1 + {url.value});
      AppendKeepsInv(acc, image, projectId);
    }
  }

  /** Appending an image of the project with a URL not seen yet keeps the
      invariant. */
  lemma AppendKeepsInv(acc: Gathered, image: Image, projectId: int)
    requires GatheredInv(acc, projectId)
    requires image.url !in acc.1 && !IsThumbnail(image.url) && image.Valid()
    requires image.projectId == projectId && image.size == 0
    ensures GatheredInv((acc.0 + [image], acc.1 + {image.url}), projectId)
  {
    var images' := acc.0 + [image];
    assert forall i :: 0 <= i < |acc.0| ==> images'[i] == acc.0[i];
    assert (set i | 0 <= i < |images'| :: images'[i].url) == acc.1 + {image.url} by {
      assert images'[|acc.0|].url == image.url;
    }
  }

  /** The images of a page keep the invariant, and every element with a
      usable, non-thumbnail URL has its URL among them. */
  lemma {:induction false} PageImagesProperties(es: seq<Element>, projectId: int)
    requires PageImages(es, projectId).Ok?
    ensures GatheredInv(PageImages(es, projectId).value, projectId)
    ensures forall k :: 0 <= k < |es| && Truthy(ImageUrl(es[k])) && !IsThumbnail(ImageUrl(es[k]).value) ==>
      ImageUrl(es[k]).value in PageImages(es, projectId).value.1
  {
    if es != [] {
      var init := es[..|es| - 1];
      assert es == init + [es[|es| - 1]];
      RunSnoc(Ok(([], {})), init, es[|es| - 1], projectId);
      PageImagesProperties(init, projectId);
      StepKeepsInv(PageImages(init, projectId).value, es[|es| - 1], projectId);
      assert forall k :: 0 <= k < |init| ==> init[k] == es[k];
    }
  }

  /** An element without `width` and `height` attributes, with a fresh
      usable URL, yields a 1920 by 1080 image of size 0. */
  lemma DefaultDimensions(acc: Gathered, e: Element, projectId: int)
    requires "width" !in e.attrs && "height" !in e.attrs
    requires Truthy(ImageUrl(e)) && ImageUrl(e).value !in acc.1 && !IsThumbnail(ImageUrl(e).value)
    requires IsHttpUrl(ImageUrl(e).value)
    ensures var url := ImageUrl(e).value;
      PageStep(acc, e, projectId) == Ok((acc.0 + [Image(url, 1920, 1080, 0, ExtractFormat(url), projectId)], acc.1 + {url}))
  {
    ExtractFormatValidates(ImageUrl(e).value);
  }

  function ExtractFromPageSpec(selections: seq<seq<Element>>, projectId: int): Result<seq<Image>, string> {
    var g :- PageImages(Flatten(selections), projectId);
    Ok(g.0)
  }

  /** The inner loop of `extract_from_page`: the elements one selector
      matched, continuing from what earlier selectors gathered. */
  method ScanSelection(images0: seq<Image>, seen0: set<string>, imgElements: seq<Element>, projectId: int)
    returns (r: Result<Gathered, string>)
    ensures r == Run(Ok((images0, seen0)), imgElements, projectId)
  {
    var images, seenUrls := images0, seen0;
    var j := 0;
    while j < |imgElements|
      invariant 0 <= j <= |imgElements|
      invariant Run(Ok((images0, seen0)), imgElements[..j], projectId) == Ok((images, seenUrls))
    {
      var e := imgElements[j];
      assert imgElements[..j + 1] == imgElements[..j] + [e];
      RunSnoc(Ok((images0, seen0)), imgElements[..j], e, projectId);
      var imgUrl := ImageUrl(e);
      if !Truthy(imgUrl) || imgUrl.value in seenUrls {
        j := j + 1;
        continue;
      }
      if IsThumbnail(imgUrl.value) {
        j := j + 1;
        continue;
      }
      ghost var step := PageStep((images, seenUrls), e, projectId);
      seenUrls := seenUrls + {imgUrl.value};
      var width := Dimension(e, "width", DefaultWidth);
      var height := if width.Ok? then Dimension(e, "height", DefaultHeight) else Ok(0);
      var image := if width.Ok? && height.Ok? then MakeImage(imgUrl.value, width.value, height.value, 0, ExtractFormat(imgUrl.value), projectId) else Err("");
      if width.Err? || height.Err? || image.Err? {
        var m := if width.Err? then width.error else if height.Err? then height.error else image.error;
        assert step == Err(m);
        RaiseStops(Ok((images0, seen0)), imgElements, j, m, projectId);
        return Err(m);
      }
      images := images + [image.value];
      j := j + 1;
    }
    assert imgElements[..j] == imgElements;
    r := Ok((images, seenUrls));
  }

  /** `extract_from_page`, given what each of the three image selectors
      matched. */
  method ExtractFromPage(selections: seq<seq<Element>>, projectId: int) returns (r: Result<seq<Image>, string>)
    ensures r == ExtractFromPageSpec(selections, projectId)
  {
    var images: seq<Image> := [];
    var seenUrls: set<string> := {};
    var s := 0;
    while s < |selections|
      invariant 0 <= s <= |selections|
      invariant PageImages(Flatten(selections[..s]), projectId) == Ok((images, seenUrls))
    {
      assert selections[..s + 1][..s] == selections[..s];
      RunConcat(Ok(([], {})), Flatten(selections[..s]), selections[s], projectId);
      var scanned := ScanSelection(images, seenUrls, selections[s], projectId);
      if scanned.Err? {
        FlattenSplit(selections, s + 1);
        RunConcat(Ok(([], {})), Flatten(selections[..s + 1]), Flatten(selections[s + 1..]), projectId);
        RunErrorSticks(scanned.error, Flatten(selections[s + 1..]), projectId);
        return Err(scanned.error);
      }
      images, seenUrls := scanned.value.0, scanned.value.1;
      s := s + 1;
    }
    assert selections[..s] == selections;
    r := Ok(images);
  }

  lemma {:induction false} FlattenSplit(selections: seq<seq<Element>>, n: nat)
    requires n <= |selections|
    ensures Flatten(selections) == Flatten(selections[..n]) + Flatten(selections[n..])
    decreases |selections|
  {
    if n < |selections| {
      var last := |selections| - 1;
      FlattenSplit(selections[..last], n);
      assert selections[..last][..n] == selections[..n];
      assert selections[n..][..|selections[n..]| - 1] == selections[n..last];
      assert selections[..last][n..] == selections[n..last];
    } else {
      assert selections[..n] == selections;
      assert selections[n..] == [];
    }
  }

  // ----- extract_from_project and extract_metadata -----

  /** Python truthiness of a JSON value. */
  predicate Truthful(v: Value) {
    match v
    case Null => false
    case Int(i) => i != 0
    case Bool(b) => b
    case Str(s) => s != ""
    case Url(_) => true
    case Time(_) => true
    case List(items) => items != []
    case Dict(entries) => entries != map[]
  }

  /** `extract_metadata`: `width`, `height` and `size` copied when present,
      1920, 1080 and 0 otherwise; nothing else. */
  function Metadata(d: Document): (r: Document)
    ensures r.Keys == {"width", "height", "size"}
    ensures forall k :: k in r && k in d ==> r[k] == d[k]
    ensures "width" !in d ==> r["width"] == Int(DefaultWidth)
    ensures "height" !in d ==> r["height"] == Int(DefaultHeight)
    ensures "size" !in d ==> r["size"] == Int(0)
  {
    map[
      "width" := if "width" in d then d["width"] else Int(DefaultWidth),
      "height" := if "height" in d then d["height"] else Int(DefaultHeight),
      "size" := if "size" in d then d["size"] else Int(0)]
  }

  /** A module that yields an image: a dict of type `image` whose `sizes`
      dict has a truthy `original`. */
  predicate IsImageModule(v: Value) {
    && v.Dict? && "type" in v.entries && v.entries["type"] == Str("image")
    && "sizes" in v.entries && v.entries["sizes"].Dict?
    && "original" in v.entries["sizes"].entries && Truthful(v.entries["sizes"].entries["original"])
  }

  function Original(v: Value): Value
    requires IsImageModule(v)
  {
    v.entries["sizes"].entries["original"]
  }

  /** The modules that yield an image, in module order. */
  function ImageModules(items: seq<Value>): (r: seq<Value>)
    ensures forall i :: 0 <= i < |r| ==> IsImageModule(r[i])
    ensures |r| <= |items|
  {
    if items == [] then []
    else ImageModules(items[..|items| - 1]) + (if IsImageModule(items[|items| - 1]) then [items[|items| - 1]] else [])
  }

  /** The fields `Image(...)` is called with for an image module. */
  function ImageFields(m: Value, projectId: Value): Document
    requires IsImageModule(m) && Original(m).Str?
  {
    var md := Metadata(m.entries);
    map[
      "url" := Original(m),
      "width" := md["width"],
      "height" := md["height"],
      "size" := md["size"],
      "format" := Str(ExtractFormat(Original(m).s)),
      "project_id" := projectId]
  }

  /** One module of `extract_from_project`: no image unless it is an image
      module; a module that is not a dict, `sizes` that is not a dict, or a
      non-string original URL raise, as does an image that does not
      validate. */
  function ModuleImage(m: Value, projectId: Value): (r: Result<Option<Image>, string>)
    ensures r.Ok? && r.value.Some? <==> IsImageModule(m) && Original(m).Str? && ParseImage(ImageFields(m, projectId)).Ok?
    ensures r.Ok? && r.value.Some? ==> r.value.value == ParseImage(ImageFields(m, projectId)).value
    ensures r == Ok(None) <==> (m.Dict? && !IsImageModule(m)
      && !("type" in m.entries && m.entries["type"] == Str("image") && "sizes" in m.entries && !m.entries["sizes"].Dict?))
  {
    if !m.Dict? then Err("'module' object has no attribute 'get'")
    else
      var d := m.entries;
      if !("type" in d && d["type"] == Str("image")) then Ok(None)
      else if "sizes" !in d then Ok(None)
      else if !d["sizes"].Dict? then Err("'sizes' object has no attribute 'get'")
      else if !("original" in d["sizes"].entries && Truthful(d["sizes"].entries["original"])) then Ok(None)
      else if !Original(m).Str? then Err("'original' object has no attribute 'lower'")
      else
        var image :- ParseImage(ImageFields(m, projectId));
        Ok(Some(image))
  }

  /** `data.get("modules", [])`, as a sequence to iterate: an empty dict or
      string iterates nothing, any other non-list raises. */
  function ModulesOf(data: Document): Result<seq<Value>, string> {
    if "modules" !in data then Ok([])
    else match data["modules"]
      case List(items) => Ok(items)
      case Dict(m) => if m == map[] then Ok([]) else Err("'str' object has no attribute 'get'")
      case Str(s) => if s == "" then Ok([]) else Err("'str' object has no attribute 'get'")
      case _ => Err("'modules' object is not iterable")
  }

  function ProjectIdOf(data: Document): Value {
    if "id" in data then data["id"] else Int(0)
  }

  /** The loop of `extract_from_project` over `items`. */
  function ProjectImages(items: seq<Value>, projectId: Value): Result<seq<Image>, string> {
    if items == [] then Ok([])
    else
      var images :- ProjectImages(items[..|items| - 1], projectId);
      var one :- ModuleImage(items[|items| - 1], projectId);
      Ok(images + (if one.Some? then [one.value] else []))
  }

  function FromProject(data: Document): Result<seq<Image>, string> {
    var items :- ModulesOf(data);
    ProjectImages(items, ProjectIdOf(data))
  }

  /** The images of a project are those of its image modules, one each, in
      module order, with the module's original URL and the project's id. */
  lemma {:induction false} ProjectImagesFollowModules(items: seq<Value>, projectId: Value)
    requires ProjectImages(items, projectId).Ok?
    ensures var images := ProjectImages(items, projectId).value;
      && |images| == |ImageModules(items)|
      && (forall i :: 0 <= i < |images| ==> Original(ImageModules(items)[i]) == Str(images[i].url))
      && (forall i :: 0 <= i < |images| ==> images[i].Valid() && projectId == Int(images[i].projectId))
  {
    if items != [] {
      var init := items[..|items| - 1];
      ProjectImagesFollowModules(init, projectId);
      ModuleImageSome(items[|items| - 1], projectId);
    }
  }

  /** A module that does not raise yields an image exactly when it is an
      image module, and then the image has the module's original URL. */
  lemma ModuleImageSome(m: Value, projectId: Value)
    requires ModuleImage(m, projectId).Ok?
    ensures ModuleImage(m, projectId).value.Some? <==> IsImageModule(m)
    ensures var one := ModuleImage(m, projectId).value;
      one.Some? ==> Original(m) == Str(one.value.url) && one.value.Valid() && projectId == Int(one.value.projectId)
  {
    var one := ModuleImage(m, projectId).value;
    if one.Some? {
      var fields := ImageFields(m, projectId);
      assert "url" in fields && fields["url"] == Original(m);
      ParseImageUrl(fields);
    }
  }

  /** `Image(**fields)` keeps the url it was given. */
  lemma ParseImageUrl(d: Document)
    requires ParseImage(d).Ok? && "url" in d && d["url"].Str?
    ensures d["url"] == Str(ParseImage(d).value.url)
  {
  }

  /** Once a module makes the extraction raise, later modules change
      nothing. */
  lemma {:induction false} ProjectErrorSticks(items: seq<Value>, n: nat, projectId: Value)
    requires n <= |items| && ProjectImages(items[..n], projectId).Err?
    ensures ProjectImages(items, projectId) == ProjectImages(items[..n], projectId)
    decreases |items|
  {
    if n < |items| {
      assert items[..|items| - 1][..n] == items[..n];
      ProjectErrorSticks(items[..|items| - 1], n, projectId);
    } else {
      assert items[..n] == items;
    }
  }

  /** `extract_from_project` */
  method ExtractFromProject(data: Document) returns (r: Result<seq<Image>, string>)
    ensures r == FromProject(data)
  {
    var modules := ModulesOf(data);
    if modules.Err? {
      return Err(modules.error);
    }
    var items := modules.value;
    var projectId := ProjectIdOf(data);
    var images: seq<Image> := [];
    var i := 0;
    while i < |items|
      invariant 0 <= i <= |items|
      invariant ProjectImages(items[..i], projectId) == Ok(images)
    {
      ghost var next := items[..i + 1];
      assert next[..|next| - 1] == items[..i] && next[|next| - 1] == items[i];
      var image := ModuleImage(items[i], projectId);
      if image.Err? {
        ProjectErrorSticks(items, i + 1, projectId);
        return Err(image.error);
      }
      if image.value.Some? {
        images := images + [image.value.value];
      } else {
        assert images + [] == images;
      }
      i := i + 1;
    }
    assert items[..i] == items;
    r := Ok(images);
  }
}
