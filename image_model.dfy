/** The project image record and its format whitelist. */
module ImageModel {
  import opened Wrappers
  import opened Text
  import opened Documents

  const ValidFormats: seq<string> := ["jpg", "jpeg", "png", "gif", "webp", "svg"]

  datatype Image = Image(url: string, width: int, height: int, size: int, format: string, projectId: int)
  {
    /** What pydantic guarantees of every constructed image: positive
        dimensions, an http(s) url and a whitelisted lower-case format.
        `size` and `projectId` are unconstrained. */
    predicate Valid() {
      width > 0 && height > 0 && IsHttpUrl(url) && format in ValidFormats
    }
  }

  /** `lower()` leaves a lower-cased string as it is. */
  lemma LowerIsLowerCase(s: string)
    ensures IsLowerCase(Lower(s))
    ensures Lower(Lower(s)) == Lower(s)
  {
    assert forall i :: 0 <= i < |s| ==> LowerChar(LowerChar(s[i])) == LowerChar(s[i]);
  }

  lemma ValidFormatsLowerCase(f: string)
    requires f in ValidFormats
    ensures IsLowerCase(f)
  {
  }

  /** The `validate_format` field validator: a format is accepted when its
      lower-cased form is whitelisted, and is stored lower-cased. */
  function ValidateFormat(v: string): (r: Result<string, string>)
    ensures r.Ok? <==> Lower(v) in ValidFormats
    ensures r.Ok? ==> r.value in ValidFormats && IsLowerCase(r.value) && Lower(r.value) == Lower(v)
  {
    LowerIsLowerCase(v);
    if Lower(v) !in ValidFormats then Err("Image format must be one of ['jpg', 'jpeg', 'png', 'gif', 'webp', 'svg'], got: " + v)
    else Ok(Lower(v))
  }

  /** Validating an accepted format again yields the same value. */
  lemma ValidateFormatIdempotent(v: string)
    requires ValidateFormat(v).Ok?
    ensures ValidateFormat(ValidateFormat(v).value) == ValidateFormat(v)
  {
    LowerIsLowerCase(v);
  }

  /** `Image(url=..., width=..., ...)`: validation of the fields. */
  function MakeImage(url: string, width: int, height: int, size: int, format: string, projectId: int): (r: Result<Image, string>)
    ensures r.Ok? <==> IsHttpUrl(url) && width > 0 && height > 0 && ValidateFormat(format).Ok?
    ensures r.Ok? ==> r.value.Valid()
    ensures r.Ok? ==> r.value == Image(url, width, height, size, ValidateFormat(format).value, projectId)
  {
    if !IsHttpUrl(url) then Err("url")
    else if width <= 0 then Err("width")
    else if height <= 0 then Err("height")
    else
      var f :- ValidateFormat(format);
      Ok(Image(url, width, height, size, f, projectId))
  }

  /** Neither `size` nor `project_id` takes part in validation. */
  lemma SizeAndProjectUnconstrained(url: string, width: int, height: int, format: string, s1: int, s2: int, p1: int, p2: int)
    ensures MakeImage(url, width, height, s1, format, p1).Ok? == MakeImage(url, width, height, s2, format, p2).Ok?
  {
  }

  /** `model_dump()`, with `url` still an `HttpUrl` object. */
  function ModelDump(img: Image): Document {
    map[
      "url" := Url(img.url),
      "width" := Int(img.width),
      "height" := Int(img.height),
      "size" := Int(img.size),
      "format" := Str(img.format),
      "project_id" := Int(img.projectId)]
  }

  /** The document the image repository stores: the dump with `url` as a
      string. */
  function MongoDict(img: Image): (r: Document)
    ensures r.Keys == ModelDump(img).Keys
    ensures r["url"] == Str(img.url)
    ensures forall k :: k in r && k != "url" ==> r[k] == ModelDump(img)[k]
  {
    ModelDump(img)["url" := Str(img.url)]
  }

  /** `Image(**doc)` */
  function ParseImage(d: Document): (r: Result<Image, string>)
    ensures r.Ok? ==> r.value.Valid()
    ensures r.Ok? ==> "project_id" in d && d["project_id"] == Int(r.value.projectId)
  {
    var url :- FieldUrl(d, "url");
    var width :- FieldInt(d, "width");
    var height :- FieldInt(d, "height");
    var size :- FieldInt(d, "size");
    var format :- FieldStr(d, "format");
    var projectId :- FieldInt(d, "project_id");
    MakeImage(url, width, height, size, format, projectId)
  }

  /** `d` holds every field of `img` in the form the repository writes. */
  predicate Represents(d: Document, img: Image) {
    && "url" in d && d["url"] == Str(img.url)
    && "width" in d && d["width"] == Int(img.width)
    && "height" in d && d["height"] == Int(img.height)
    && "size" in d && d["size"] == Int(img.size)
    && "format" in d && d["format"] == Str(img.format)
    && "project_id" in d && d["project_id"] == Int(img.projectId)
  }

  lemma ParseRepresented(d: Document, img: Image)
    requires img.Valid() && Represents(d, img)
    ensures ParseImage(d) == Ok(img)
  {
    ValidFormatsLowerCase(img.format);
    LowerOfLowerCase(img.format);
  }

  /** A stored image reads back as itself, whatever other keys (such as
      `_id`) the stored document carries. */
  lemma MongoRoundTrip(img: Image, extra: Document)
    requires img.Valid()
    requires forall k :: k in extra ==> k !in MongoDict(img)
    ensures ParseImage(MongoDict(img)) == Ok(img)
    ensures ParseImage(MongoDict(img) + extra) == Ok(img)
  {
    var d := MongoDict(img);
    assert Represents(d, img);
    ParseRepresented(d, img);
    assert Represents(d + extra, img);
    ParseRepresented(d + extra, img);
  }
}
