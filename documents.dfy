/** Documents as the scraper hands them to MongoDB: a Python dict of
    string keys whose values are ints, strings, URLs, timestamps, lists and
    nested dicts. */
module Documents {
  import opened Wrappers
  import opened Text

  datatype Value =
    | Null
    | Int(i: int)
    | Bool(b: bool)
    | Str(s: string)
    /** a pydantic `HttpUrl` object, as `model_dump()` leaves it */
    | Url(u: string)
    /** a `datetime`, as an opaque instant */
    | Time(t: int)
    | List(items: seq<Value>)
    | Dict(entries: map<string, Value>)

  type Document = map<string, Value>

  /** A Python dict handed around by reference, which a callee may change
      in place. */
  class DictRef {
    var entries: Document

    constructor (d: Document)
      ensures entries == d
    {
      entries := d;
    }
  }

  /** The URLs pydantic's `HttpUrl` accepts, as far as the scraper relies on
      them: an `http` or `https` scheme followed by something. */
  predicate IsHttpUrl(u: string) {
    (StartsWith(u, "http://") && |u| > 7) || (StartsWith(u, "https://") && |u| > 8)
  }

  function OptStr(s: Option<string>): Value {
    match s
    case Some(v) => Str(v)
    case None => Null
  }

  function StrList(xs: seq<string>): (r: Value)
    ensures r.List? && |r.items| == |xs|
    ensures forall i :: 0 <= i < |xs| ==> r.items[i] == Str(xs[i])
  {
    List(seq(|xs|, i requires 0 <= i < |xs| => Str(xs[i])))
  }

  function StrDict(m: map<string, string>): (r: Value)
    ensures r.Dict? && r.entries.Keys == m.Keys
    ensures forall k :: k in m ==> r.entries[k] == Str(m[k])
  {
    Dict(map k | k in m :: Str(m[k]))
  }

  // ----- reading a document back, field by field, as pydantic validates it -----

  /** `data.get(k, default)` */
  function Get(data: Document, k: string, default: Value): Value {
    if k in data then data[k] else default
  }

  function FieldInt(d: Document, k: string): (r: Result<int, string>)
    ensures r.Ok? <==> k in d && d[k].Int?
    ensures r.Ok? ==> d[k] == Int(r.value)
  {
    if k in d && d[k].Int? then Ok(d[k].i) else Err(k)
  }

  function FieldStr(d: Document, k: string): (r: Result<string, string>)
    ensures r.Ok? <==> k in d && d[k].Str?
    ensures r.Ok? ==> d[k] == Str(r.value)
  {
    if k in d && d[k].Str? then Ok(d[k].s) else Err(k)
  }

  /** An optional string field: absent or `None` gives `None`. */
  function FieldOptStr(d: Document, k: string): (r: Result<Option<string>, string>)
    ensures r.Ok? <==> k !in d || d[k].Null? || d[k].Str?
    ensures r.Ok? ==> (r.value.None? <==> k !in d || d[k].Null?)
    ensures r.Ok? && r.value.Some? ==> d[k] == Str(r.value.value)
  {
    if k !in d || d[k].Null? then Ok(None)
    else if d[k].Str? then Ok(Some(d[k].s))
    else Err(k)
  }

  function FieldTime(d: Document, k: string): (r: Result<int, string>)
    ensures r.Ok? <==> k in d && d[k].Time?
    ensures r.Ok? ==> d[k] == Time(r.value)
  {
    if k in d && d[k].Time? then Ok(d[k].t) else Err(k)
  }

  /** An `HttpUrl` field, given either as a URL object or as its string. */
  function FieldUrl(d: Document, k: string): (r: Result<string, string>)
    ensures r.Ok? <==> k in d && (d[k].Url? || d[k].Str?) && IsHttpUrl(if d[k].Url? then d[k].u else d[k].s)
    ensures r.Ok? ==> d[k] == Url(r.value) || d[k] == Str(r.value)
  {
    if k in d && d[k].Url? && IsHttpUrl(d[k].u) then Ok(d[k].u)
    else if k in d && d[k].Str? && IsHttpUrl(d[k].s) then Ok(d[k].s)
    else Err(k)
  }

  /** A `list[str]` value. */
  function ParseStrList(v: Value): (r: Option<seq<string>>)
    ensures r.Some? <==> v.List? && forall i :: 0 <= i < |v.items| ==> v.items[i].Str?
    ensures r.Some? ==> v == StrList(r.value)
  {
    if v.List? && forall i :: 0 <= i < |v.items| ==> v.items[i].Str? then
      var xs := seq(|v.items|, i requires 0 <= i < |v.items| => v.items[i].s);
      assert v.items == StrList(xs).items;
      Some(xs)
    else None
  }

  /** A `dict[str, str]` value. */
  function ParseStrDict(v: Value): (r: Option<map<string, string>>)
    ensures r.Some? <==> v.Dict? && forall k :: k in v.entries ==> v.entries[k].Str?
    ensures r.Some? ==> v == StrDict(r.value)
  {
    if v.Dict? && forall k :: k in v.entries ==> v.entries[k].Str? then
      var m := map k | k in v.entries :: v.entries[k].s;
      assert v.entries == StrDict(m).entries;
      Some(m)
    else None
  }

  lemma StrListRoundTrip(xs: seq<string>)
    ensures ParseStrList(StrList(xs)) == Some(xs)
  {
    var r := ParseStrList(StrList(xs));
    assert r.Some?;
    assert StrList(r.value) == StrList(xs);
    assert |r.value| == |xs|;
    forall i | 0 <= i < |xs| ensures r.value[i] == xs[i] {
      assert Str(r.value[i]) == StrList(r.value).items[i] == StrList(xs).items[i] == Str(xs[i]);
    }
    assert r.value == xs;
  }

  lemma StrDictRoundTrip(m: map<string, string>)
    ensures ParseStrDict(StrDict(m)) == Some(m)
  {
    var r := ParseStrDict(StrDict(m));
    assert r.Some?;
    assert r.value.Keys == m.Keys;
    forall k | k in m ensures r.value[k] == m[k] {
      assert Str(r.value[k]) == StrDict(r.value).entries[k] == StrDict(m).entries[k] == Str(m[k]);
    }
    assert r.value == m;
  }

  /** The `_id` to `id` mapping both `from_mongo_dict` class methods apply
      to the document before validating it. */
  function MapMongoId(d: Document): (r: Document)
    ensures r.Keys == d.Keys + (if "_id" in d then {"id"} else {})
    ensures "id" in d ==> r == d
    ensures "_id" in d && "id" !in d ==> r["id"] == d["_id"]
    ensures forall k :: k in d ==> r[k] == d[k]
  {
    if "_id" in d && "id" !in d then d["id" := d["_id"]] else d
  }

  /** Applying the mapping twice changes nothing more. */
  lemma MapMongoIdIdempotent(d: Document)
    ensures MapMongoId(MapMongoId(d)) == MapMongoId(d)
  {
  }

  /** `$set` of one field is an update of that key. */
  lemma MergeOne(d: Document, k: string, v: Value)
    ensures d + map[k := v] == d[k := v]
  {
  }
}
