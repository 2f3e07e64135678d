/** The Behance project record: its statistics, the tag de-duplicating
    validator, and the conversions to and from the MongoDB document. */
module ProjectModel {
  import opened Wrappers
  import opened Text
  import opened Documents

  /** Field constraints `ge=0` on every counter. */
  datatype ProjectStats = ProjectStats(views: int, appreciations: int, comments: int)
  {
    predicate Valid() {
      views >= 0 && appreciations >= 0 && comments >= 0
    }
  }

  /** `url` is kept as the string form of the `HttpUrl`; timestamps are
      opaque instants. */
  datatype Project = Project(
    id: int,
    title: string,
    description: string,
    url: string,
    publishedOn: int,
    createdOn: int,
    modifiedOn: int,
    stats: ProjectStats,
    tags: seq<string>,
    covers: map<string, string>,
    ownerId: int,
    ownerUsername: string)
  {
    /** What pydantic guarantees of every constructed project: the stats
        constraints hold, the url is an http(s) URL and the tag validator has
        run, so no tag occurs twice. */
    predicate Valid() {
      stats.Valid() && IsHttpUrl(url) && Distinct(tags)
    }
  }

  predicate Distinct<T(==)>(s: seq<T>) {
    forall i, j :: 0 <= i < j < |s| ==> s[i] != s[j]
  }

  // ----- tag de-duplication -----

  /** The tags of `v` with every repeat of an earlier tag dropped. */
  function Dedup(v: seq<string>): seq<string> {
    if v == [] then []
    else
      var prefix := Dedup(v[..|v| - 1]);
      if v[|v| - 1] in prefix then prefix else prefix + [v[|v| - 1]]
  }

  /** The position of the first occurrence of `t` in `v`, or `|v|` when
      there is none. */
  function FirstIndex(v: seq<string>, t: string): (r: nat)
    ensures r <= |v|
    ensures r < |v| <==> t in v
    ensures r < |v| ==> v[r] == t
    ensures forall k :: 0 <= k < r ==> v[k] != t
  {
    if v == [] then 0 else if v[0] == t then 0 else 1 + FirstIndex(v[1..], t)
  }

  /** The `deduplicate_tags` field validator: a `seen` set and a growing
      result list. */
  method DeduplicateTags(v: seq<string>) returns (result: seq<string>)
    ensures result == Dedup(v)
  {
    var seen: set<string> := {};
    result := [];
    var i := 0;
    while i < |v|
      invariant 0 <= i <= |v|
      invariant result == Dedup(v[..i])
      invariant forall t :: t in seen <==> t in result
    {
      var tag := v[i];
      assert v[..i + 1][..i] == v[..i];
      if tag !in seen {
        seen := seen + {tag};
        result := result + [tag];
      }
      i := i + 1;
    }
    assert v[..i] == v;
  }

  /** No tag occurs twice in the result. */
  lemma {:induction false} DedupDistinct(v: seq<string>)
    ensures Distinct(Dedup(v))
  {
    if v != [] {
      DedupDistinct(v[..|v| - 1]);
    }
  }

  /** Every input tag is kept, and no other tag appears. */
  lemma {:induction false} DedupSameTags(v: seq<string>)
    ensures forall t :: t in Dedup(v) <==> t in v
  {
    if v != [] {
      var init := v[..|v| - 1];
      DedupSameTags(init);
      assert v == init + [v[|v| - 1]];
    }
  }

  /** Tags are kept in the order of their first occurrence in the input. */
  lemma {:induction false} DedupFirstOccurrenceOrder(v: seq<string>)
    ensures forall i, j :: 0 <= i < j < |Dedup(v)| ==> FirstIndex(v, Dedup(v)[i]) < FirstIndex(v, Dedup(v)[j])
  {
    if v != [] {
      var init := v[..|v| - 1];
      var last := v[|v| - 1];
      var p := Dedup(init);
      DedupFirstOccurrenceOrder(init);
      DedupSameTags(init);
      assert v == init + [last];
      forall t | t in init ensures FirstIndex(v, t) == FirstIndex(init, t) < |init| {
        FirstIndexPrefix(init, last, t);
      }
      if last !in p {
        assert FirstIndex(v, last) == |init| by {
          FirstIndexPrefix(init, last, last);
        }
      }
    }
  }

  lemma FirstIndexPrefix(init: seq<string>, last: string, t: string)
    ensures t in init ==> FirstIndex(init + [last], t) == FirstIndex(init, t)
    ensures t !in init && t == last ==> FirstIndex(init + [last], t) == |init|
  {
    var v := init + [last];
    var a, b := FirstIndex(v, t), FirstIndex(init, t);
    if t in init {
      assert v[b] == t;
      assert a <= b;
      assert a < |init| ==> init[a] == t;
    } else if t == last {
      assert forall k :: 0 <= k < |init| ==> v[k] != t;
      assert v[|init|] == t;
    }
  }

  /** A list that already has no repeats passes through unchanged. */
  lemma {:induction false} DedupOfDistinct(v: seq<string>)
    requires Distinct(v)
    ensures Dedup(v) == v
  {
    if v != [] {
      var init := v[..|v| - 1];
      DedupOfDistinct(init);
      assert v[|v| - 1] !in init;
      assert v == init + [v[|v| - 1]];
    }
  }

  /** Running the validator again on its own output changes nothing. */
  lemma DedupIdempotent(v: seq<string>)
    ensures Dedup(Dedup(v)) == Dedup(v)
  {
    DedupDistinct(v);
    DedupOfDistinct(Dedup(v));
  }

  // ----- documents -----

  function StatsDump(s: ProjectStats): Value {
    Dict(map["views" := Int(s.views), "appreciations" := Int(s.appreciations), "comments" := Int(s.comments)])
  }

  /** `model_dump()`: every field under its own name, with `url` still an
      `HttpUrl` object. */
  function ModelDump(p: Project): Document {
    map[
      "id" := Int(p.id),
      "title" := Str(p.title),
      "description" := Str(p.description),
      "url" := Url(p.url),
      "published_on" := Time(p.publishedOn),
      "created_on" := Time(p.createdOn),
      "modified_on" := Time(p.modifiedOn),
      "stats" := StatsDump(p.stats),
      "tags" := StrList(p.tags),
      "covers" := StrDict(p.covers),
      "owner_id" := Int(p.ownerId),
      "owner_username" := Str(p.ownerUsername)]
  }

  /** `to_mongo_dict`: the dumped model with `url` replaced by its string. */
  function ToMongoDict(p: Project): (r: Document)
    ensures r.Keys == ModelDump(p).Keys
    ensures r["url"] == Str(p.url)
    ensures forall k :: k in r && k != "url" ==> r[k] == ModelDump(p)[k]
  {
    ModelDump(p)["url" := Str(p.url)]
  }

  function ParseStats(v: Value): (r: Result<ProjectStats, string>)
    ensures r.Ok? ==> r.value.Valid()
  {
    if !v.Dict? then Err("stats")
    else
      var views :- FieldInt(v.entries, "views");
      var appreciations :- FieldInt(v.entries, "appreciations");
      var comments :- FieldInt(v.entries, "comments");
      var s := ProjectStats(views, appreciations, comments);
      if s.Valid() then Ok(s) else Err("stats")
  }

  /** The stats record validates exactly when no counter is negative. */
  lemma StatsConstraint(views: int, appreciations: int, comments: int)
    ensures var s := ProjectStats(views, appreciations, comments);
      ParseStats(StatsDump(s)) == (if views >= 0 && appreciations >= 0 && comments >= 0 then Ok(s) else Err("stats"))
  {
  }

  /** `Project(**data)`: pydantic validation of a document. Missing or
      ill-typed required fields and negative stats are errors; `tags` and
      `covers` default to empty; the tag validator runs; keys that are not
      fields (such as `_id`) are ignored. */
  function ParseProject(d: Document): (r: Result<Project, string>)
    ensures r.Ok? ==> r.value.Valid()
    ensures r.Ok? ==> "id" in d && d["id"] == Int(r.value.id)
    ensures r.Ok? ==> "owner_id" in d && d["owner_id"] == Int(r.value.ownerId)
    ensures r.Ok? ==> "title" in d && d["title"] == Str(r.value.title)
    ensures r.Ok? ==> "description" in d && d["description"] == Str(r.value.description)
    ensures r.Ok? ==> "owner_username" in d && d["owner_username"] == Str(r.value.ownerUsername)
    ensures r.Ok? ==> FieldUrl(d, "url") == Ok(r.value.url)
    ensures r.Ok? ==> "stats" in d && ParseStats(d["stats"]) == Ok(r.value.stats)
    ensures r.Ok? ==> "published_on" in d && d["published_on"] == Time(r.value.publishedOn)
    ensures r.Ok? ==> "created_on" in d && d["created_on"] == Time(r.value.createdOn)
    ensures r.Ok? ==> "modified_on" in d && d["modified_on"] == Time(r.value.modifiedOn)
    ensures r.Ok? && "tags" !in d ==> r.value.tags == []
    ensures r.Ok? && "tags" in d ==> ParseStrList(d["tags"]).Some? && r.value.tags == Dedup(ParseStrList(d["tags"]).value)
    ensures r.Ok? && "covers" !in d ==> r.value.covers == map[]
    ensures r.Ok? && "covers" in d ==> ParseStrDict(d["covers"]) == Some(r.value.covers)
  {
    var id :- FieldInt(d, "id");
    var title :- FieldStr(d, "title");
    var description :- FieldStr(d, "description");
    var url :- FieldUrl(d, "url");
    var publishedOn :- FieldTime(d, "published_on");
    var createdOn :- FieldTime(d, "created_on");
    var modifiedOn :- FieldTime(d, "modified_on");
    var stats :- if "stats" in d then ParseStats(d["stats"]) else Err("stats");
    var tags :- if "tags" !in d then Ok([])
                else match ParseStrList(d["tags"]) case Some(t) => Ok(t) case None => Err("tags");
    var covers :- if "covers" !in d then Ok(map[])
                  else match ParseStrDict(d["covers"]) case Some(c) => Ok(c) case None => Err("covers");
    var ownerId :- FieldInt(d, "owner_id");
    var ownerUsername :- FieldStr(d, "owner_username");
    DedupDistinct(tags);
    Ok(Project(id, title, description, url, publishedOn, createdOn, modifiedOn,
               stats, Dedup(tags), covers, ownerId, ownerUsername))
  }

  /** `Project(...)` called with typed keyword arguments: the stats
      constraints and the URL type are checked and the tag validator runs. */
  function NewProject(id: int, title: string, description: string, url: string,
                      publishedOn: int, createdOn: int, modifiedOn: int,
                      stats: ProjectStats, tags: seq<string>, covers: map<string, string>,
                      ownerId: int, ownerUsername: string): (r: Result<Project, string>)
    ensures r.Ok? <==> stats.Valid() && IsHttpUrl(url)
    ensures r.Ok? ==> r.value.Valid()
    ensures r.Ok? ==> r.value.tags == Dedup(tags)
    ensures r.Ok? ==> r.value == Project(id, title, description, url, publishedOn, createdOn, modifiedOn,
                                         stats, r.value.tags, covers, ownerId, ownerUsername)
  {
    if !stats.Valid() then Err("stats")
    else if !IsHttpUrl(url) then Err("url")
    else
      DedupDistinct(tags);
      Ok(Project(id, title, description, url, publishedOn, createdOn, modifiedOn,
                 stats, Dedup(tags), covers, ownerId, ownerUsername))
  }

  /** `d` holds every field of `p` in the form `to_mongo_dict` writes. */
  predicate Represents(d: Document, p: Project) {
    && "id" in d && d["id"] == Int(p.id)
    && "title" in d && d["title"] == Str(p.title)
    && "description" in d && d["description"] == Str(p.description)
    && "url" in d && d["url"] == Str(p.url)
    && "published_on" in d && d["published_on"] == Time(p.publishedOn)
    && "created_on" in d && d["created_on"] == Time(p.createdOn)
    && "modified_on" in d && d["modified_on"] == Time(p.modifiedOn)
    && "stats" in d && d["stats"] == StatsDump(p.stats)
    && "tags" in d && d["tags"] == StrList(p.tags)
    && "covers" in d && d["covers"] == StrDict(p.covers)
    && "owner_id" in d && d["owner_id"] == Int(p.ownerId)
    && "owner_username" in d && d["owner_username"] == Str(p.ownerUsername)
  }

  lemma ParseRepresented(d: Document, p: Project)
    requires p.Valid() && Represents(d, p)
    ensures ParseProject(d) == Ok(p)
  {
    StrListRoundTrip(p.tags);
    StrDictRoundTrip(p.covers);
    DedupOfDistinct(p.tags);
    assert ParseStats(d["stats"]) == Ok(p.stats);
  }

  /** The document `to_mongo_dict` writes holds every field. */
  lemma MongoDictRepresents(p: Project)
    ensures Represents(ToMongoDict(p), p)
  {
  }

  /** Keys written over a document decide the fields it represents. */
  lemma OverlayRepresents(base: Document, d: Document, p: Project)
    requires Represents(d, p)
    ensures Represents(base + d, p)
  {
  }

  /** A key that is not a field leaves the fields alone. */
  lemma ExtraKeyRepresents(d: Document, p: Project, k: string, v: Value)
    requires Represents(d, p) && k == "_id"
    ensures Represents(d[k := v], p)
  {
  }

  /** A document `$set` with the project's fields reads back as the
      project, whatever it held before. */
  lemma ParseOverlay(base: Document, p: Project)
    requires p.Valid()
    ensures ParseProject(base + ToMongoDict(p)) == Ok(p)
  {
    MongoDictRepresents(p);
    OverlayRepresents(base, ToMongoDict(p), p);
    ParseRepresented(base + ToMongoDict(p), p);
  }

  /** A stored project reads back as itself: the document `to_mongo_dict`
      writes, with whatever `_id` MongoDB adds, validates to the same
      project. */
  lemma MongoRoundTrip(p: Project, oid: Value)
    requires p.Valid()
    ensures ParseProject(ToMongoDict(p)) == Ok(p)
    ensures ParseProject(MapMongoId(ToMongoDict(p)["_id" := oid])) == Ok(p)
  {
    var d := ToMongoDict(p);
    MongoDictRepresents(p);
    ParseRepresented(d, p);
    ExtraKeyRepresents(d, p, "_id", oid);
    var e := d["_id" := oid];
    assert MapMongoId(e) == e;
    ParseRepresented(e, p);
  }

  /** `from_mongo_dict`: maps `_id` to `id` in the caller's dict, in place,
      then validates it. */
  method FromMongoDict(data: DictRef) returns (r: Result<Project, string>)
    modifies data
    ensures data.entries == MapMongoId(old(data.entries))
    ensures r == ParseProject(data.entries)
  {
    if "_id" in data.entries && "id" !in data.entries {
      data.entries := data.entries["id" := data.entries["_id"]];
    }
    r := ParseProject(data.entries);
  }

  /** A document that names its `id` reads the same whether or not it also
      has an `_id`, and one with only `_id` reads that value as the id. */
  lemma FromMongoId(d: Document)
    ensures "id" in d ==> ParseProject(MapMongoId(d)) == ParseProject(d)
    ensures "_id" in d && "id" !in d && ParseProject(MapMongoId(d)).Ok?
      ==> d["_id"] == Int(ParseProject(MapMongoId(d)).value.id)
  {
  }
}
