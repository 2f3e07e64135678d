/** `UserExtractor`: the Behance user read off a profile page (the username
    from the URL, the display name and location from selector chains, the
    follower counts) and the user read from an API response. `hash()` is a
    parameter. */
module UserExtractor {
  import opened Wrappers
  import opened Text
  import opened Documents
  import opened Html
  import opened UserModel
  import opened UrlParse

  // ----- username -----

  /** `url.rstrip('/').split('/')[-1].split('?')[0]` */
  function Username(url: string): (r: string)
    ensures '/' !in r && '?' !in r
  {
    var last := AfterLast(RStripChar(url, '/'), '/');
    var r := BeforeFirst(last, '?');
    assert forall k :: 0 <= k < |r| ==> r[k] == last[k];
    r
  }

  /** The last segment of `a/b` is `b` when `b` holds no `/`. */
  lemma {:induction false} AfterLastSegment(a: string, b: string)
    requires '/' !in b
    ensures AfterLast(a + "/" + b, '/') == b
  {
    if b != [] {
      var init := b[..|b| - 1];
      assert (a + "/" + b)[..|a + "/" + b| - 1] == a + "/" + init;
      AfterLastSegment(a, init);
      assert init + [b[|b| - 1]] == b;
    } else {
      assert (a + "/" + b) == a + "/";
    }
  }

  /** A profile URL `<prefix>/<handle>`, with or without a trailing slash,
      and with or without a query, yields the handle. */
  lemma ProfileUsername(prefix: string, handle: string, query: string)
    requires handle != [] && '/' !in handle && '?' !in handle
    requires '/' !in query
    ensures Username(prefix + "/" + handle) == handle
    ensures Username(prefix + "/" + handle + "/") == handle
    ensures Username(prefix + "/" + handle + "?" + query) == handle
  {
    PlainProfile(prefix, handle);
    SlashedProfile(prefix, handle);
    QueriedProfile(prefix, handle, query);
  }

  lemma PlainProfile(prefix: string, handle: string)
    requires handle != [] && '/' !in handle && '?' !in handle
    ensures RStripChar(prefix + "/" + handle, '/') == prefix + "/" + handle
    ensures Username(prefix + "/" + handle) == handle
  {
    var url := prefix + "/" + handle;
    assert url[|url| - 1] == handle[|handle| - 1];
    AfterLastSegment(prefix, handle);
    BeforeFirstConcat(handle, [], '?');
    assert handle + [] == handle;
  }

  lemma SlashedProfile(prefix: string, handle: string)
    requires handle != [] && '/' !in handle && '?' !in handle
    ensures Username(prefix + "/" + handle + "/") == handle
  {
    var url := prefix + "/" + handle;
    PlainProfile(prefix, handle);
    var slashed := url + "/";
    assert slashed[..|slashed| - 1] == url;
    assert RStripChar(slashed, '/') == url;
  }

  lemma QueriedProfile(prefix: string, handle: string, query: string)
    requires handle != [] && '/' !in handle && '?' !in handle
    requires '/' !in query
    ensures Username(prefix + "/" + handle + "?" + query) == handle
  {
    var mq := "?" + query;
    var last := handle + mq;
    assert '/' !in last;
    Regroup(prefix + "/" + handle, "?", query);
    Regroup(prefix + "/", handle, mq);
    UsernameOfSegment(prefix, last);
    BeforeFirstConcat(handle, mq, '?');
    assert BeforeFirst(mq, '?') == [];
    assert handle + [] == handle;
  }

  /** The username of `<prefix>/<last>` is `last` up to its query. */
  lemma UsernameOfSegment(prefix: string, last: string)
    requires last != [] && '/' !in last
    ensures Username(prefix + "/" + last) == BeforeFirst(last, '?')
  {
    var url := prefix + "/" + last;
    assert url[|url| - 1] == last[|last| - 1];
    assert RStripChar(url, '/') == url;
    AfterLastSegment(prefix, last);
  }

  // ----- follower counts -----

  /** The first run of digits of the stripped element text with its commas
      removed, 0 without an element or a digit. */
  function FollowCount(elem: Option<Element>): (r: nat)
    ensures elem.None? ==> r == 0
  {
    match elem
    case None => 0
    case Some(e) =>
      match FirstDigitRun(RemoveChar(Strip(e.text), ','))
      case None => 0
      case Some(digits) => DigitsValue(digits)
  }

  lemma {:induction false} RemoveCharConcat(a: string, b: string, c: char)
    ensures RemoveChar(a + b, c) == RemoveChar(a, c) + RemoveChar(b, c)
  {
    if a != [] {
      assert (a + b)[0] == a[0] && (a + b)[1..] == a[1..] + b;
      RemoveCharConcat(a[1..], b, c);
    } else {
      assert a + b == b;
    }
  }

  lemma {:induction false} RemoveAbsentChar(s: string, c: char)
    requires c !in s
    ensures RemoveChar(s, c) == s
  {
    if s != [] {
      RemoveAbsentChar(s[1..], c);
      assert [s[0]] + s[1..] == s;
    }
  }

  /** Dropping the separator of `high,low<tail>` joins the digits. */
  lemma SeparatorRemoved(high: string, low: string, tail: string)
    requires ',' !in high && ',' !in low && ',' !in tail
    ensures RemoveChar(high + ("," + (low + tail)), ',') == high + (low + tail)
  {
    var rest := low + tail;
    RemoveCharConcat(low, tail, ',');
    RemoveAbsentChar(low, ',');
    RemoveAbsentChar(tail, ',');
    assert RemoveChar(rest, ',') == rest;
    assert ("," + rest)[1..] == rest;
    assert RemoveChar("," + rest, ',') == rest;
    RemoveCharConcat(high, "," + rest, ',');
    RemoveAbsentChar(high, ',');
  }

  /** The stripped, comma-free text of "<high>,<low> <word>". */
  lemma SeparatedCleaned(high: string, low: string, word: string)
    requires high != [] && AllDigits(high) && AllDigits(low)
    requires word != [] && ',' !in word && !IsSpace(word[|word| - 1])
    ensures RemoveChar(Strip(high + "," + low + " " + word), ',') == (high + low) + (" " + word)
  {
    var tail := " " + word;
    var text := high + ("," + (low + tail));
    assert text == high + "," + low + " " + word;
    assert text[|text| - 1] == word[|word| - 1];
    assert !IsSpace(text[0]);
    StripOfTrimmed(text);
    assert ',' !in high && ',' !in low && ',' !in tail;
    SeparatorRemoved(high, low, tail);
    assert (high + low) + tail == high + (low + tail);
  }

  /** A count written with a thousands separator, such as
      "1,234 followers", reads as the number without it. */
  lemma ThousandsSeparated(attrs: map<string, string>, high: string, low: string, word: string)
    requires high != [] && AllDigits(high) && low != [] && AllDigits(low)
    requires word != [] && ',' !in word && !IsSpace(word[|word| - 1])
    ensures FollowCount(Some(Element(attrs, high + "," + low + " " + word))) == DigitsValue(high + low)
  {
    SeparatedCleaned(high, low, word);
    LeadingDigitRun(high + low, " " + word);
    FollowCountOf(Element(attrs, high + "," + low + " " + word), high + low);
  }

  lemma FollowCountOf(e: Element, digits: string)
    requires FirstDigitRun(RemoveChar(Strip(e.text), ',')) == Some(digits)
    ensures FollowCount(Some(e)) == DigitsValue(digits)
  {
  }

  /** A text that starts with digits and then a non-digit has those digits
      as its first run. */
  lemma LeadingDigitRun(digits: string, tail: string)
    requires digits != [] && AllDigits(digits)
    requires tail != [] && !IsDigit(tail[0])
    ensures FirstDigitRun(digits + tail) == Some(digits)
  {
    TakeWhileRun(digits, tail, IsDigit);
    assert (digits + tail)[0] == digits[0];
  }

  // ----- statistics -----

  /** `d.setdefault(k, v)`, for the dictionary it leaves */
  function SetDefault(d: Document, k: string, v: Value): Document {
    if k in d then d else d[k := v]
  }

  /** The `stats_data` dictionary the page path builds: the two counts,
      then every other counter defaulting to 0. */
  function PageStatsData(followers: Option<Element>, following: Option<Element>): Document {
    var d := map["followers" := Int(FollowCount(followers)), "following" := Int(FollowCount(following))];
    SetDefault(SetDefault(SetDefault(d, "appreciations", Int(0)), "views", Int(0)), "project_views", Int(0))
  }

  /** `extract_stats`: `UserStats` of the dictionary, a missing counter
      being 0. */
  function ExtractStats(data: Document): (r: Result<UserStats, string>)
    ensures r.Ok? ==> r.value.Valid()
  {
    ParseStats(Dict(map[
      "followers" := Get(data, "followers", Int(0)),
      "following" := Get(data, "following", Int(0)),
      "appreciations" := Get(data, "appreciations", Int(0)),
      "views" := Get(data, "views", Int(0)),
      "project_views" := Get(data, "project_views", Int(0))]))
  }

  /** A counter that is present and a non-negative integer. */
  predicate CounterOk(data: Document, k: string) {
    k !in data || (data[k].Int? && data[k].i >= 0)
  }

  /** The statistics validate exactly when every present counter is a
      non-negative integer, and a missing one reads as 0. */
  lemma ExtractStatsDecides(data: Document)
    ensures ExtractStats(data).Ok? <==>
      CounterOk(data, "followers") && CounterOk(data, "following") && CounterOk(data, "appreciations")
      && CounterOk(data, "views") && CounterOk(data, "project_views")
    ensures var r := ExtractStats(data);
      r.Ok? ==> ("followers" !in data ==> r.value.followers == 0) && ("following" !in data ==> r.value.following == 0)
    ensures var r := ExtractStats(data);
      r.Ok? ==> ("appreciations" !in data ==> r.value.appreciations == 0) && ("views" !in data ==> r.value.views == 0)
    ensures var r := ExtractStats(data);
      r.Ok? ==> ("project_views" !in data ==> r.value.projectViews == 0)
  {
  }

  /** On the page path only the two follower counts can be non-zero. */
  lemma PageStatsZero(followers: Option<Element>, following: Option<Element>)
    ensures ExtractStats(PageStatsData(followers, following))
         == Ok(UserStats(FollowCount(followers), FollowCount(following), 0, 0, 0))
  {
    var s := UserStats(FollowCount(followers), FollowCount(following), 0, 0, 0);
    PageStatsDump(followers, following);
    ExtractStatsOfDump(s);
    StatsConstraint(s);
  }

  /** The page's dictionary is the dump of the two counts and three zeros. */
  lemma PageStatsDump(followers: Option<Element>, following: Option<Element>)
    ensures PageStatsData(followers, following)
         == StatsDump(UserStats(FollowCount(followers), FollowCount(following), 0, 0, 0)).entries
  {
    CountersDefaulted(FollowCount(followers), FollowCount(following));
  }

  /** `setdefault` adds each missing counter as 0. */
  lemma CountersDefaulted(a: int, b: int)
    ensures var d := map["followers" := Int(a), "following" := Int(b)];
      SetDefault(SetDefault(SetDefault(d, "appreciations", Int(0)), "views", Int(0)), "project_views", Int(0))
        == StatsDump(UserStats(a, b, 0, 0, 0)).entries
  {
    var d0 := map["followers" := Int(a), "following" := Int(b)];
    var d1 := SetDefault(d0, "appreciations", Int(0));
    var d2 := SetDefault(d1, "views", Int(0));
    assert "appreciations" !in d0;
    assert "views" !in d1;
    assert "project_views" != "appreciations";
    assert "project_views" !in d2;
  }

  /** Every counter of a dumped record is read back. */
  lemma ExtractStatsOfDump(s: UserStats)
    ensures ExtractStats(StatsDump(s).entries) == ParseStats(StatsDump(s))
  {
  }

  // ----- the profile page -----

  /** What a profile page shows: its URL, what each selector of the
      display-name and location chains matched, and the follower and
      following elements. */
  datatype UserPage = UserPage(
    url: string,
    names: seq<Option<Element>>,
    locations: seq<Option<Element>>,
    followers: Option<Element>,
    following: Option<Element>)

  const DefaultDisplayName := "Unknown User"
  const IdModulus := 100000000

  /** `extract_from_page`; `hash` is Python's `hash()`. */
  function FromPage(page: UserPage, hash: string -> int): Result<User, string> {
    var username := Username(page.url);
    var stats :- ExtractStats(PageStatsData(page.followers, page.following));
    var displayName := match FirstNonBlankText(page.names) case Some(t) => t case None => DefaultDisplayName;
    NewUser(hash(username) % IdModulus, username, displayName, BeforeFirst(page.url, '?'),
            FirstNonBlankText(page.locations), None, None, stats, [], [])
  }

  /** A page yields a user exactly when its URL without the query is an
      http(s) URL; the user has a username without `/` or `?`, a display
      name, the location of the first selector with text (or none), only
      the follower counts and no links or fields. */
  lemma FromPageProperties(page: UserPage, hash: string -> int)
    ensures FromPage(page, hash).Ok? <==> IsHttpUrl(BeforeFirst(page.url, '?'))
    ensures var r := FromPage(page, hash);
      r.Ok? ==> r.value.username == Username(page.url) && r.value.displayName != "" && '?' !in r.value.url
    ensures var r := FromPage(page, hash);
      r.Ok? ==> (r.value.location.None? <==> forall i :: 0 <= i < |page.locations| ==> !NonBlank(page.locations[i]))
    ensures var r := FromPage(page, hash);
      r.Ok? ==> r.value.stats == UserStats(FollowCount(page.followers), FollowCount(page.following), 0, 0, 0)
    ensures var r := FromPage(page, hash);
      r.Ok? ==> r.value.company.None? && r.value.occupation.None? && r.value.socialLinks == [] && r.value.fields == []
    ensures var r := FromPage(page, hash);
      r.Ok? ==> 0 <= r.value.id < IdModulus
  {
    PageStatsZero(page.followers, page.following);
  }

  /** `extract_from_page`, step by step. */
  method ExtractFromPage(page: UserPage, hash: string -> int) returns (r: Result<User, string>)
    ensures r == FromPage(page, hash)
  {
    var username := Username(page.url);
    var displayName := DefaultDisplayName;
    var found := FindNonBlank(page.names);
    if found.Some? {
      displayName := found.value;
    }
    var location := FindNonBlank(page.locations);
    var statsData := map[];
    statsData := statsData["followers" := Int(FollowCount(page.followers))];
    statsData := statsData["following" := Int(FollowCount(page.following))];
    statsData := SetDefault(statsData, "appreciations", Int(0));
    statsData := SetDefault(statsData, "views", Int(0));
    statsData := SetDefault(statsData, "project_views", Int(0));
    assert statsData == PageStatsData(page.followers, page.following);
    var stats := ExtractStats(statsData);
    if stats.Err? {
      return Err(stats.error);
    }
    var userId := hash(username) % IdModulus;
    r := NewUser(userId, username, displayName, BeforeFirst(page.url, '?'), location, None, None,
                 stats.value, [], []);
  }

  // ----- the API response -----

  /** `extract_stats(data.get("stats", {}))`: a stats value without `get`
      raises. */
  function JsonStats(data: Document): Result<UserStats, string> {
    var statsData := Get(data, "stats", Dict(map[]));
    if !statsData.Dict? then Err("AttributeError: get")
    else ExtractStats(statsData.entries)
  }

  /** The keyword arguments `extract_from_json` passes to `User`. */
  function JsonArguments(data: Document, stats: UserStats): (r: Document)
    requires "id" in data && "username" in data && "display_name" in data && "url" in data
    ensures "location" in r && r["location"] == Get(data, "location", Null)
    ensures "company" in r && r["company"] == Get(data, "company", Null)
    ensures "occupation" in r && r["occupation"] == Get(data, "occupation", Null)
    ensures "social_links" in r && r["social_links"] == Get(data, "social_links", List([]))
    ensures "fields" in r && r["fields"] == Get(data, "fields", List([]))
    ensures "stats" in r && r["stats"] == StatsDump(stats)
  {
    map[
      "id" := data["id"],
      "username" := data["username"],
      "display_name" := data["display_name"],
      "url" := data["url"],
      "location" := Get(data, "location", Null),
      "company" := Get(data, "company", Null),
      "occupation" := Get(data, "occupation", Null),
      "stats" := StatsDump(stats),
      "social_links" := Get(data, "social_links", List([])),
      "fields" := Get(data, "fields", List([]))]
  }

  /** `extract_from_json`: the stats are read first, then `User` validates
      the arguments; `extract_social_links` and `extract_fields` default to
      empty lists. */
  function FromJson(data: Document): Result<User, string> {
    var stats :- JsonStats(data);
    if "id" !in data then Err("KeyError: id")
    else if "username" !in data then Err("KeyError: username")
    else if "display_name" !in data then Err("KeyError: display_name")
    else if "url" !in data then Err("KeyError: url")
    else ParseUser(JsonArguments(data, stats))
  }

  /** Missing optional keys leave location, company and occupation unset. */
  lemma JsonOptionalDefaults(data: Document)
    ensures var r := FromJson(data);
      r.Ok? ==> ("location" !in data ==> r.value.location.None?) && ("company" !in data ==> r.value.company.None?)
    ensures var r := FromJson(data);
      r.Ok? ==> ("occupation" !in data ==> r.value.occupation.None?)
  {
    var r := FromJson(data);
    if r.Ok? {
      var args := JsonArguments(data, JsonStats(data).value);
      assert r == ParseUser(args);
    }
  }

  /** Missing link and field lists read as empty lists. */
  lemma JsonListDefaults(data: Document)
    ensures var r := FromJson(data);
      r.Ok? ==> ("social_links" !in data ==> r.value.socialLinks == []) && ("fields" !in data ==> r.value.fields == [])
  {
    var r := FromJson(data);
    if r.Ok? {
      var args := JsonArguments(data, JsonStats(data).value);
      assert r == ParseUser(args);
      assert ParseStrList(List([])) == Some([]);
    }
  }

  /** The user carries the statistics read first, all 0 when the response
      has none. */
  lemma JsonStatsDefaults(data: Document)
    ensures var r := FromJson(data);
      r.Ok? ==> r.value.stats == JsonStats(data).value
    ensures var r := FromJson(data);
      r.Ok? && "stats" !in data ==> r.value.stats == UserStats(0, 0, 0, 0, 0)
  {
    var r := FromJson(data);
    if r.Ok? {
      var stats := JsonStats(data).value;
      var args := JsonArguments(data, stats);
      assert r == ParseUser(args);
      StatsConstraint(stats);
      if "stats" !in data {
        EmptyStats();
      }
    }
  }

  /** An empty statistics dictionary reads as all zeros. */
  lemma EmptyStats()
    ensures ExtractStats(map[]) == Ok(UserStats(0, 0, 0, 0, 0))
  {
    ExtractStatsDecides(map[]);
  }
}
