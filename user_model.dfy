/** The Behance user record: its statistics, the social-link validator,
    and the conversions to and from the MongoDB document. */
module UserModel {
  import opened Wrappers
  import opened Text
  import opened Documents

  /** Field constraints `ge=0` on all five counters. */
  datatype UserStats = UserStats(followers: int, following: int, appreciations: int, views: int, projectViews: int)
  {
    predicate Valid() {
      followers >= 0 && following >= 0 && appreciations >= 0 && views >= 0 && projectViews >= 0
    }
  }

  datatype User = User(
    id: int,
    username: string,
    displayName: string,
    url: string,
    location: Option<string>,
    company: Option<string>,
    occupation: Option<string>,
    stats: UserStats,
    socialLinks: seq<string>,
    fields: seq<string>)
  {
    /** What pydantic guarantees of every constructed user. */
    predicate Valid() {
      stats.Valid() && IsHttpUrl(url) && forall i :: 0 <= i < |socialLinks| ==> IsSocialLink(socialLinks[i])
    }
  }

  predicate IsSocialLink(link: string) {
    StartsWith(link, "http://") || StartsWith(link, "https://")
  }

  /** The `validate_social_links` field validator: the list is returned as
      it is when every link has an http(s) scheme; otherwise the first link
      without one is reported. */
  function ValidateSocialLinks(v: seq<string>): (r: Result<seq<string>, string>)
    ensures r.Ok? <==> forall i :: 0 <= i < |v| ==> IsSocialLink(v[i])
    ensures r.Ok? ==> r.value == v
    ensures r.Err? ==> (exists i :: 0 <= i < |v| && !IsSocialLink(v[i])
                          && (forall j :: 0 <= j < i ==> IsSocialLink(v[j]))
                          && r.error == "Social link must be a valid URL: " + v[i])
  {
    if v == [] then Ok(v)
    else if !IsSocialLink(v[0]) then Err("Social link must be a valid URL: " + v[0])
    else match ValidateSocialLinks(v[1..])
      case Ok(_) => Ok(v)
      case Err(e) =>
        var i :| 0 <= i < |v[1..]| && !IsSocialLink(v[1..][i])
          && (forall j :: 0 <= j < i ==> IsSocialLink(v[1..][j]))
          && e == "Social link must be a valid URL: " + v[1..][i];
        assert v[i + 1] == v[1..][i];
        Err(e)
  }

  function StatsDump(s: UserStats): Value {
    Dict(map[
      "followers" := Int(s.followers),
      "following" := Int(s.following),
      "appreciations" := Int(s.appreciations),
      "views" := Int(s.views),
      "project_views" := Int(s.projectViews)])
  }

  /** `model_dump()`, with `url` still an `HttpUrl` object. */
  function ModelDump(u: User): Document {
    map[
      "id" := Int(u.id),
      "username" := Str(u.username),
      "display_name" := Str(u.displayName),
      "url" := Url(u.url),
      "location" := OptStr(u.location),
      "company" := OptStr(u.company),
      "occupation" := OptStr(u.occupation),
      "stats" := StatsDump(u.stats),
      "social_links" := StrList(u.socialLinks),
      "fields" := StrList(u.fields)]
  }

  /** `to_mongo_dict`: the dumped model with `url` replaced by its string. */
  function ToMongoDict(u: User): (r: Document)
    ensures r.Keys == ModelDump(u).Keys
    ensures r["url"] == Str(u.url)
    ensures forall k :: k in r && k != "url" ==> r[k] == ModelDump(u)[k]
  {
    var data := ModelDump(u);
    data["url" := Str(data["url"].u)]
  }

  function ParseStats(v: Value): (r: Result<UserStats, string>)
    ensures r.Ok? ==> r.value.Valid()
  {
    if !v.Dict? then Err("stats")
    else
      var followers :- FieldInt(v.entries, "followers");
      var following :- FieldInt(v.entries, "following");
      var appreciations :- FieldInt(v.entries, "appreciations");
      var views :- FieldInt(v.entries, "views");
      var projectViews :- FieldInt(v.entries, "project_views");
      var s := UserStats(followers, following, appreciations, views, projectViews);
      if s.Valid() then Ok(s) else Err("stats")
  }

  /** The stats record validates exactly when no counter is negative. */
  lemma StatsConstraint(s: UserStats)
    ensures ParseStats(StatsDump(s)) == (if s.Valid() then Ok(s) else Err("stats"))
  {
  }

  function FieldStrList(d: Document, k: string): (r: Result<seq<string>, string>)
    ensures r.Ok? && k !in d ==> r.value == []
    ensures r.Ok? && k in d ==> d[k] == StrList(r.value)
  {
    if k !in d then Ok([])
    else match ParseStrList(d[k]) case Some(xs) => Ok(xs) case None => Err(k)
  }

  /** `User(**data)`: pydantic validation of a document. */
  function ParseUser(d: Document): (r: Result<User, string>)
    ensures r.Ok? ==> r.value.Valid()
    ensures r.Ok? ==> "id" in d && d["id"] == Int(r.value.id)
    ensures r.Ok? ==> "username" in d && d["username"] == Str(r.value.username)
    ensures r.Ok? ==> "display_name" in d && d["display_name"] == Str(r.value.displayName)
    ensures r.Ok? ==> FieldUrl(d, "url") == Ok(r.value.url)
    ensures r.Ok? ==> FieldOptStr(d, "location") == Ok(r.value.location)
    ensures r.Ok? ==> FieldOptStr(d, "company") == Ok(r.value.company)
    ensures r.Ok? ==> FieldOptStr(d, "occupation") == Ok(r.value.occupation)
    ensures r.Ok? ==> "stats" in d && ParseStats(d["stats"]) == Ok(r.value.stats)
    ensures r.Ok? ==> FieldStrList(d, "social_links") == Ok(r.value.socialLinks)
    ensures r.Ok? ==> FieldStrList(d, "fields") == Ok(r.value.fields)
    ensures r.Ok? && "social_links" !in d ==> r.value.socialLinks == []
    ensures r.Ok? && "fields" !in d ==> r.value.fields == []
  {
    var id :- FieldInt(d, "id");
    var username :- FieldStr(d, "username");
    var displayName :- FieldStr(d, "display_name");
    var url :- FieldUrl(d, "url");
    var location :- FieldOptStr(d, "location");
    var company :- FieldOptStr(d, "company");
    var occupation :- FieldOptStr(d, "occupation");
    var stats :- if "stats" in d then ParseStats(d["stats"]) else Err("stats");
    var links :- FieldStrList(d, "social_links");
    var socialLinks :- ValidateSocialLinks(links);
    var fields :- FieldStrList(d, "fields");
    Ok(User(id, username, displayName, url, location, company, occupation, stats, socialLinks, fields))
  }

  /** `User(...)` called with typed keyword arguments: the stats
      constraints, the URL type and the social-link validator are checked. */
  function NewUser(id: int, username: string, displayName: string, url: string,
                   location: Option<string>, company: Option<string>, occupation: Option<string>,
                   stats: UserStats, socialLinks: seq<string>, fields: seq<string>): (r: Result<User, string>)
    ensures r.Ok? <==> stats.Valid() && IsHttpUrl(url) && forall i :: 0 <= i < |socialLinks| ==> IsSocialLink(socialLinks[i])
    ensures r.Ok? ==> r.value.Valid()
    ensures r.Ok? ==> r.value == User(id, username, displayName, url, location, company, occupation,
                                      stats, socialLinks, fields)
  {
    if !stats.Valid() then Err("stats")
    else if !IsHttpUrl(url) then Err("url")
    else
      var links :- ValidateSocialLinks(socialLinks);
      Ok(User(id, username, displayName, url, location, company, occupation, stats, links, fields))
  }

  /** A user document is rejected exactly when one of its social links
      lacks an http(s) scheme, other fields being well formed. */
  lemma SocialLinksDecide(d: Document, u: User)
    requires Represents(d, u) && u.stats.Valid() && IsHttpUrl(u.url)
    ensures ParseUser(d).Ok? <==> forall i :: 0 <= i < |u.socialLinks| ==> IsSocialLink(u.socialLinks[i])
  {
    StrListRoundTrip(u.socialLinks);
    StrListRoundTrip(u.fields);
    assert ParseStats(d["stats"]) == Ok(u.stats);
  }

  /** `d` holds every field of `u` in the form `to_mongo_dict` writes. */
  predicate Represents(d: Document, u: User) {
    && "id" in d && d["id"] == Int(u.id)
    && "username" in d && d["username"] == Str(u.username)
    && "display_name" in d && d["display_name"] == Str(u.displayName)
    && "url" in d && d["url"] == Str(u.url)
    && "location" in d && d["location"] == OptStr(u.location)
    && "company" in d && d["company"] == OptStr(u.company)
    && "occupation" in d && d["occupation"] == OptStr(u.occupation)
    && "stats" in d && d["stats"] == StatsDump(u.stats)
    && "social_links" in d && d["social_links"] == StrList(u.socialLinks)
    && "fields" in d && d["fields"] == StrList(u.fields)
  }

  lemma ParseRepresented(d: Document, u: User)
    requires u.Valid() && Represents(d, u)
    ensures ParseUser(d) == Ok(u)
  {
    StrListRoundTrip(u.socialLinks);
    StrListRoundTrip(u.fields);
    assert ParseStats(d["stats"]) == Ok(u.stats);
    assert FieldOptStr(d, "location") == Ok(u.location);
    assert FieldOptStr(d, "company") == Ok(u.company);
    assert FieldOptStr(d, "occupation") == Ok(u.occupation);
  }

  /** The document `to_mongo_dict` writes holds every field. */
  lemma MongoDictRepresents(u: User)
    ensures Represents(ToMongoDict(u), u)
  {
  }

  /** A key that is not a field leaves the fields alone. */
  lemma ExtraKeyRepresents(d: Document, u: User, k: string, v: Value)
    requires Represents(d, u) && k == "_id"
    ensures Represents(d[k := v], u)
  {
  }

  /** A stored user reads back as itself, with or without the `_id`
      MongoDB adds. */
  lemma MongoRoundTrip(u: User, oid: Value)
    requires u.Valid()
    ensures ParseUser(ToMongoDict(u)) == Ok(u)
    ensures ParseUser(MapMongoId(ToMongoDict(u)["_id" := oid])) == Ok(u)
  {
    var d := ToMongoDict(u);
    MongoDictRepresents(u);
    ParseRepresented(d, u);
    ExtraKeyRepresents(d, u, "_id", oid);
    var e := d["_id" := oid];
    assert MapMongoId(e) == e;
    ParseRepresented(e, u);
  }

  /** `from_mongo_dict`: maps `_id` to `id` in the caller's dict, in place,
      then validates it. */
  method FromMongoDict(data: DictRef) returns (r: Result<User, string>)
    modifies data
    ensures data.entries == MapMongoId(old(data.entries))
    ensures r == ParseUser(data.entries)
  {
    if "_id" in data.entries && "id" !in data.entries {
      data.entries := data.entries["id" := data.entries["_id"]];
    }
    r := ParseUser(data.entries);
  }
}
