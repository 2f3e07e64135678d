/** `ProjectExtractor`: the project record read off a Behance project page
    (its id from the URL, the first non-blank text of each selector chain,
    the tags, the statistics) and the project read from an API response.
    The page is given as what each selector matched; `hash()` and the ISO
    timestamp parser are parameters. */
module ProjectExtractor {
  import opened Wrappers
  import opened Text
  import opened Documents
  import opened Html
  import opened ProjectModel

  // ----- project id -----

  const GalleryMarker := "/gallery/"

  /** `/gallery/(\d+)/([^/?]+)` matches at `i`: the marker, a digit run,
      a slash and at least one character that is neither `/` nor `?`.
      A shorter digit run would leave a digit where the slash must be, so
      the run is the maximal one. */
  predicate GalleryAt(url: string, i: nat) {
    && i + |GalleryMarker| <= |url|
    && url[i..i + |GalleryMarker|] == GalleryMarker
    && var digits := TakeWhile(url[i + |GalleryMarker|..], IsDigit);
       var j := i + |GalleryMarker| + |digits|;
       && digits != []
       && j + 1 < |url|
       && url[j] == '/'
       && url[j + 1] != '/' && url[j + 1] != '?'
  }

  /** The leftmost match at or after `i`, as `re.search` scans. */
  function GallerySearch(url: string, i: nat): (r: Option<nat>)
    decreases |url| - i
    ensures r.Some? ==> i <= r.value < |url| && GalleryAt(url, r.value)
    ensures r.Some? ==> forall j :: i <= j < r.value ==> !GalleryAt(url, j)
    ensures r.None? ==> forall j :: i <= j < |url| ==> !GalleryAt(url, j)
  {
    if i >= |url| then None
    else if GalleryAt(url, i) then Some(i)
    else GallerySearch(url, i + 1)
  }

  /** The id in a `/gallery/<digits>/<slug>` URL, from the leftmost match. */
  function GalleryId(url: string): (r: Option<nat>)
    ensures r.None? <==> forall i :: 0 <= i < |url| ==> !GalleryAt(url, i)
  {
    match GallerySearch(url, 0)
    case None => None
    case Some(i) =>
      var digits := TakeWhile(url[i + |GalleryMarker|..], IsDigit);
      Some(DigitsValue(digits))
  }

  /** The project id: the gallery id, or `hash(url) % 10**8`. Python's `%`
      with a positive modulus is never negative, as Dafny's is not. */
  function ProjectId(url: string, hash: string -> int): (r: int)
    ensures GalleryId(url).Some? ==> r == GalleryId(url).value
    ensures GalleryId(url).None? ==> 0 <= r < 100000000
  {
    match GalleryId(url)
    case Some(n) => n
    case None => hash(url) % 100000000
  }

  /** A host in which no `/` is followed by `g` cannot hold the start of
      the marker. */
  predicate NoMarkerStart(host: string) {
    forall i :: 0 <= i < |host| - 1 ==> host[i] == '/' ==> host[i + 1] != 'g'
  }

  lemma BehanceHostHasNoMarker()
    ensures NoMarkerStart("https://www.behance.net")
  {
  }

  /** `host/gallery/<id>/<slug>` matches at the end of the host. */
  lemma {:induction false} GalleryAtHostEnd(host: string, id: string, slug: string)
    requires id != [] && AllDigits(id)
    requires slug != [] && slug[0] != '/' && slug[0] != '?'
    ensures GalleryAt(host + GalleryMarker + id + "/" + slug, |host|)
    ensures TakeWhile((host + GalleryMarker + id + "/" + slug)[|host| + |GalleryMarker|..], IsDigit) == id
  {
    var url := host + GalleryMarker + id + "/" + slug;
    var m := |host|;
    assert url[m + |GalleryMarker|..] == id + ("/" + slug);
    assert ("/" + slug)[0] == '/';
    TakeWhileRun(id, "/" + slug, IsDigit);
    assert url[m..m + |GalleryMarker|] == GalleryMarker;
    assert url[m + |GalleryMarker| + |id|] == '/';
    assert url[m + |GalleryMarker| + |id| + 1] == slug[0];
  }

  /** Nothing matches inside such a host. */
  lemma {:induction false} NoGalleryInHost(host: string, rest: string)
    requires NoMarkerStart(host)
    ensures forall i :: 0 <= i < |host| ==> !GalleryAt(host + GalleryMarker + rest, i)
  {
    var url := host + GalleryMarker + rest;
    forall i | 0 <= i < |host|
      ensures !GalleryAt(url, i)
    {
      assert url[i] == host[i];
      if i + 1 < |host| {
        assert url[i + 1] == host[i + 1];
      } else {
        assert url[i + 1] == GalleryMarker[0];
      }
    }
  }

  /** The links the search pages produce name their project: for a digit
      run and a slug that starts with neither `/` nor `?`, the URL
      `https://www.behance.net/gallery/<id>/<slug>` yields `<id>`. */
  lemma CanonicalGalleryId(id: string, slug: string)
    requires id != [] && AllDigits(id)
    requires slug != [] && slug[0] != '/' && slug[0] != '?'
    ensures GalleryId("https://www.behance.net" + GalleryMarker + id + "/" + slug) == Some(DigitsValue(id))
  {
    var host := "https://www.behance.net";
    var url := host + GalleryMarker + id + "/" + slug;
    GalleryAtHostEnd(host, id, slug);
    BehanceHostHasNoMarker();
    NoGalleryInHost(host, id + "/" + slug);
    assert url == host + GalleryMarker + (id + "/" + slug);
    assert GallerySearch(url, 0) == Some(|host|);
  }

  // ----- title, description and owner -----

  const DefaultTitle := "Untitled Project"
  const DefaultOwner := "unknown"

  /** `text.split('\n')[0]` of the first non-blank owner text. */
  function OwnerName(found: seq<Option<Element>>): string {
    match FirstNonBlankText(found)
    case Some(t) => BeforeFirst(t, '\n')
    case None => DefaultOwner
  }

  /** `text` when some selector has text, otherwise the default. */
  function FirstText(found: seq<Option<Element>>, default: string): string {
    match FirstNonBlankText(found)
    case Some(t) => t
    case None => default
  }

  /** A project title is never empty. */
  lemma TitleNotEmpty(found: seq<Option<Element>>)
    ensures FirstText(found, DefaultTitle) != ""
  {
  }

  /** The owner is one non-empty line: the text is non-blank, so it does not
      start with a newline. */
  lemma OwnerIsOneLine(found: seq<Option<Element>>)
    ensures OwnerName(found) != ""
    ensures '\n' !in OwnerName(found)
  {
    var t := FirstText(found, DefaultOwner);
    assert t[0] != '\n';
  }

  // ----- tags -----

  /** The stripped, non-blank texts of the tag elements, in document order. */
  function TagTexts(es: seq<Element>): seq<string> {
    if es == [] then []
    else
      var prefix := TagTexts(es[..|es| - 1]);
      var t := Strip(es[|es| - 1].text);
      if t != "" then prefix + [t] else prefix
  }

  lemma TagTextsStep(es: seq<Element>, i: nat)
    requires i < |es|
    ensures var t := Strip(es[i].text);
      TagTexts(es[..i + 1]) == if t != "" then TagTexts(es[..i]) + [t] else TagTexts(es[..i])
  {
    assert es[..i + 1][..i] == es[..i];
  }

  /** The stripped text of every tag element, blank or not. */
  function StrippedTexts(es: seq<Element>): (r: seq<string>)
    ensures |r| == |es|
  {
    if es == [] then [] else StrippedTexts(es[..|es| - 1]) + [Strip(es[|es| - 1].text)]
  }

  /** Every tag is a non-blank stripped text of some tag element. */
  lemma {:induction false} TagTextsSound(es: seq<Element>)
    ensures |TagTexts(es)| <= |es|
    ensures forall i :: 0 <= i < |TagTexts(es)| ==> TagTexts(es)[i] != "" && TagTexts(es)[i] in StrippedTexts(es)
  {
    if es != [] {
      var init := es[..|es| - 1];
      TagTextsSound(init);
    }
  }

  /** Every non-blank tag element text is a tag. */
  lemma {:induction false} TagTextsComplete(es: seq<Element>)
    ensures forall e :: e in es && Strip(e.text) != "" ==> Strip(e.text) in TagTexts(es)
  {
    if es != [] {
      var init := es[..|es| - 1];
      TagTextsComplete(init);
      assert forall e :: e in es ==> e in init || e == es[|es| - 1] by {
        assert es == init + [es[|es| - 1]];
      }
    }
  }

  /** `extract_tags` */
  method ExtractTags(es: seq<Element>) returns (tags: seq<string>)
    ensures tags == TagTexts(es)
  {
    tags := [];
    var i := 0;
    while i < |es|
      invariant 0 <= i <= |es|
      invariant tags == TagTexts(es[..i])
    {
      TagTextsStep(es, i);
      var t := Strip(es[i].text);
      if t != "" {
        tags := tags + [t];
      }
      i := i + 1;
    }
    assert es[..i] == es;
  }

  // ----- statistics -----

  /** `[\d,]` */
  predicate IsNumChar(c: char) {
    IsDigit(c) || c == ','
  }

  /** One of the patterns that find the number written before a keyword:
      `([\d,]+)\s*<keyword>`, and for views `([\d,]+\.?\d*[KMB]?)\s*view`
      (`decimal` adds the optional fraction, `suffixes` the optional
      letter). */
  datatype StatPattern = StatPattern(keyword: string, decimal: bool, suffixes: set<char>)

  const AppreciationPattern := StatPattern("appreciation", false, {})
  const CommentPattern := StatPattern("comment", false, {})
  /** The views pattern as the source writes it: an upper-case suffix,
      searched for in lower-cased text. */
  const ViewPatternAsWritten := StatPattern("view", true, {'K', 'M', 'B'})
  /** The views pattern with the suffix letters that lower-cased text holds. */
  const ViewPattern := StatPattern("view", true, {'K', 'M', 'B', 'k', 'm', 'b'})

  /** The end of the group that starts at `i`. Backtracking never helps:
      a shorter run or fraction leaves a digit or comma where the pattern
      needs a point, a suffix, a space or the keyword, and a suffix that
      is dropped stands where the keyword must start. */
  function GroupEnd(s: string, i: nat, p: StatPattern): (r: nat)
    requires i < |s| && IsNumChar(s[i])
    ensures i < r <= |s|
    ensures forall k :: i <= k < r ==> IsGroupChar(s[k], p)
  {
    var j := RunEnd(s, i, IsNumChar);
    var k := if p.decimal && j < |s| && s[j] == '.' then RunEnd(s, j + 1, IsDigit) else j;
    if k < |s| && s[k] in p.suffixes then k + 1 else k
  }

  /** The end of the greedy run of `c` characters starting at `i`. */
  function RunEnd(s: string, i: nat, c: char -> bool): (r: nat)
    requires i <= |s|
    ensures i <= r <= |s|
    ensures i < |s| && c(s[i]) ==> i < r
    ensures forall k :: i <= k < r ==> c(s[k])
  {
    TakeWhileAt(s, i, c);
    i + |TakeWhile(s[i..], c)|
  }

  /** A character the group of `p` may hold. */
  predicate IsGroupChar(c: char, p: StatPattern) {
    IsNumChar(c) || (p.decimal && c == '.') || c in p.suffixes
  }

  /** The pattern matches at `i`. */
  predicate MatchesAt(s: string, i: nat, p: StatPattern) {
    && i < |s| && IsNumChar(s[i])
    && var rest := s[GroupEnd(s, i, p)..];
       StartsWith(rest[|TakeWhile(rest, IsSpace)|..], p.keyword)
  }

  /** The leftmost match at or after `i`. */
  function MatchSearch(s: string, p: StatPattern, i: nat): (r: Option<nat>)
    decreases |s| - i
    ensures r.Some? ==> i <= r.value < |s| && MatchesAt(s, r.value, p)
    ensures r.Some? ==> forall j :: i <= j < r.value ==> !MatchesAt(s, j, p)
    ensures r.None? ==> forall j :: i <= j < |s| ==> !MatchesAt(s, j, p)
  {
    if i >= |s| then None
    else if MatchesAt(s, i, p) then Some(i)
    else MatchSearch(s, p, i + 1)
  }

  /** `re.search(pattern, s).group(1)`, or None. */
  function Search(s: string, p: StatPattern): (r: Option<string>)
    ensures r.None? <==> forall i :: 0 <= i < |s| ==> !MatchesAt(s, i, p)
    ensures r.Some? ==> r.value != []
    ensures r.Some? ==> forall k :: 0 <= k < |r.value| ==> IsGroupChar(r.value[k], p)
    ensures r.Some? ==> forall k :: 0 <= k < |r.value| ==> r.value[k] in s
  {
    match MatchSearch(s, p, 0)
    case None => None
    case Some(i) =>
      Some(s[i..GroupEnd(s, i, p)])
  }

  const EmptyIntLiteral := "invalid literal for int() with base 10: ''"

  /** `int(g.replace(',', ''))` on a run of digits and commas: a run of
      commas alone leaves nothing, and `int('')` raises. */
  function RunValue(g: string): (r: Result<nat, string>)
    requires forall k :: 0 <= k < |g| ==> IsNumChar(g[k])
    ensures r.Ok? <==> exists k :: 0 <= k < |g| && IsDigit(g[k])
  {
    CommaFreeDigits(g);
    var d := RemoveChar(g, ',');
    if d == [] then Err(EmptyIntLiteral) else Ok(DigitsValue(d))
  }

  /** Dropping the commas of a run leaves its digits. */
  lemma {:induction false} CommaFreeDigits(g: string)
    requires forall k :: 0 <= k < |g| ==> IsNumChar(g[k])
    ensures AllDigits(RemoveChar(g, ','))
    ensures RemoveChar(g, ',') == [] <==> forall k :: 0 <= k < |g| ==> !IsDigit(g[k])
  {
    if g != [] {
      CommaFreeDigits(g[1..]);
      assert forall k :: 1 <= k < |g| ==> g[1..][k - 1] == g[k];
    }
  }

  /** The keyword count as written: 0 when the lower-cased text lacks the
      keyword or no number precedes it; raises on a run of commas. */
  function KeywordCountAsWritten(text: string, p: StatPattern): (r: Result<nat, string>)
    requires !p.decimal && p.suffixes == {}
  {
    var lowered := Lower(text);
    if !Contains(lowered, p.keyword) then Ok(0)
    else match Search(lowered, p)
      case None => Ok(0)
      case Some(g) => RunValue(g)
  }

  /** The keyword count: a run of commas alone counts as no number. */
  function KeywordCount(text: string, p: StatPattern): (r: nat)
    requires !p.decimal && p.suffixes == {}
    ensures KeywordCountAsWritten(text, p).Ok? ==> r == KeywordCountAsWritten(text, p).value
  {
    match KeywordCountAsWritten(text, p)
    case Ok(n) => n
    case Err(_) => 0
  }

  /** The views count: `_parse_number` of the matched group, 0 without
      one. `parseNumber` stands for `_parse_number`, which works in floating
      point and returns 0 instead of raising. */
  function ViewsCount(text: string, p: StatPattern, parseNumber: string -> nat): nat {
    var lowered := Lower(text);
    if !Contains(lowered, "view") then 0
    else match Search(lowered, p)
      case None => 0
      case Some(g) => parseNumber(g)
  }

  /** `re.findall(r'[\d,]+', s)`: the maximal runs of digits and commas. */
  function NumberRuns(s: string): (r: seq<string>)
    ensures forall i :: 0 <= i < |r| ==> r[i] != [] && forall k :: 0 <= k < |r[i]| ==> IsNumChar(r[i][k])
    decreases |s|
  {
    if s == [] then []
    else if IsNumChar(s[0]) then
      var run := TakeWhile(s, IsNumChar);
      [run] + NumberRuns(s[|run|..])
    else NumberRuns(s[1..])
  }

  /** The fallback as written: the first run of the stripped element text,
      0 without an element or a run; raises when that run is commas alone. */
  function FallbackAsWritten(elem: Option<Element>): (r: Result<nat, string>)
  {
    if elem.None? then Ok(0)
    else
      var runs := NumberRuns(Strip(elem.value.text));
      if runs == [] then Ok(0) else RunValue(runs[0])
  }

  /** The value of the first run that holds a digit, or 0. */
  function FirstNumber(runs: seq<string>): (r: nat)
    requires forall i :: 0 <= i < |runs| ==> forall k :: 0 <= k < |runs[i]| ==> IsNumChar(runs[i][k])
    ensures runs != [] && RunValue(runs[0]).Ok? ==> r == RunValue(runs[0]).value
  {
    if runs == [] then 0
    else match RunValue(runs[0])
      case Ok(n) => n
      case Err(_) => FirstNumber(runs[1..])
  }

  /** The fallback: the first number of the element text, or 0. */
  function Fallback(elem: Option<Element>): (r: nat)
    ensures FallbackAsWritten(elem).Ok? ==> r == FallbackAsWritten(elem).value
  {
    if elem.None? then 0 else FirstNumber(NumberRuns(Strip(elem.value.text)))
  }

  /** What `extract_stats` finds on the page: the element of the stats
      block and those of the three fallback selectors. */
  datatype StatsSources = StatsSources(
    block: Option<Element>,
    views: Option<Element>,
    appreciations: Option<Element>,
    comments: Option<Element>)

  /** `extract_stats` as written: the keyword counts of the stats block,
      each replaced by its fallback when it is 0; an `int('')` anywhere
      raises. */
  function ExtractStatsAsWritten(src: StatsSources, viewPattern: StatPattern,
                                 parseNumber: string -> nat): (r: Result<ProjectStats, string>)
    ensures r.Ok? ==> r.value.Valid()
  {
    var appreciations :- if src.block.Some? then KeywordCountAsWritten(src.block.value.text, AppreciationPattern) else Ok(0);
    var views := if src.block.Some? then ViewsCount(src.block.value.text, viewPattern, parseNumber) else 0;
    var comments :- if src.block.Some? then KeywordCountAsWritten(src.block.value.text, CommentPattern) else Ok(0);
    var views' :- if views == 0 then FallbackAsWritten(src.views) else Ok(views);
    var appreciations' :- if appreciations == 0 then FallbackAsWritten(src.appreciations) else Ok(appreciations);
    var comments' :- if comments == 0 then FallbackAsWritten(src.comments) else Ok(comments);
    Ok(ProjectStats(views', appreciations', comments'))
  }

  /** The keyword count of the stats block, or 0 without a block. */
  function BlockCount(block: Option<Element>, p: StatPattern): nat
    requires !p.decimal && p.suffixes == {}
  {
    if block.Some? then KeywordCount(block.value.text, p) else 0
  }

  function BlockViews(block: Option<Element>, p: StatPattern, parseNumber: string -> nat): nat {
    if block.Some? then ViewsCount(block.value.text, p, parseNumber) else 0
  }

  /** `extract_stats` with runs of commas read as no number and the suffix
      letters of lower-cased text accepted: it never raises. */
  function ExtractStats(src: StatsSources, parseNumber: string -> nat): (r: ProjectStats)
    ensures r.Valid()
    ensures BlockViews(src.block, ViewPattern, parseNumber) != 0 ==> r.views == BlockViews(src.block, ViewPattern, parseNumber)
    ensures BlockCount(src.block, AppreciationPattern) != 0 ==> r.appreciations == BlockCount(src.block, AppreciationPattern)
    ensures BlockCount(src.block, CommentPattern) != 0 ==> r.comments == BlockCount(src.block, CommentPattern)
    ensures BlockViews(src.block, ViewPattern, parseNumber) == 0 ==> r.views == Fallback(src.views)
    ensures BlockCount(src.block, AppreciationPattern) == 0 ==> r.appreciations == Fallback(src.appreciations)
    ensures BlockCount(src.block, CommentPattern) == 0 ==> r.comments == Fallback(src.comments)
  {
    var views := BlockViews(src.block, ViewPattern, parseNumber);
    var appreciations := BlockCount(src.block, AppreciationPattern);
    var comments := BlockCount(src.block, CommentPattern);
    ProjectStats(
      if views == 0 then Fallback(src.views) else views,
      if appreciations == 0 then Fallback(src.appreciations) else appreciations,
      if comments == 0 then Fallback(src.comments) else comments)
  }

  /** A fallback element is consulted only for a count the stats block left
      at 0: with no fallback elements the counts are the block's. */
  lemma FallbackOnlyForZero(src: StatsSources, parseNumber: string -> nat)
    requires src.views.None? && src.appreciations.None? && src.comments.None?
    ensures ExtractStats(src, parseNumber) == ProjectStats(
      BlockViews(src.block, ViewPattern, parseNumber),
      BlockCount(src.block, AppreciationPattern),
      BlockCount(src.block, CommentPattern))
  {
  }

  /** The correction changes nothing where the source does not raise, for
      the same views pattern. */
  lemma CorrectionAgrees(src: StatsSources, parseNumber: string -> nat)
    requires ExtractStatsAsWritten(src, ViewPattern, parseNumber).Ok?
    ensures ExtractStats(src, parseNumber) == ExtractStatsAsWritten(src, ViewPattern, parseNumber).value
  {
    hide KeywordCountAsWritten, KeywordCount, ViewsCount, FallbackAsWritten, Fallback;
  }

  /** A keyword pattern matches at the start of a run of digits and
      commas followed by optional spaces and the keyword, and its group is
      the whole run. */
  lemma {:induction false} LeadingMatch(run: string, spaces: string, rest: string, p: StatPattern)
    requires !p.decimal && p.suffixes == {}
    requires p.keyword != [] && !IsNumChar(p.keyword[0]) && !IsSpace(p.keyword[0])
    requires run != [] && forall k :: 0 <= k < |run| ==> IsNumChar(run[k])
    requires forall k :: 0 <= k < |spaces| ==> IsSpace(spaces[k])
    ensures MatchesAt(run + spaces + p.keyword + rest, 0, p)
    ensures GroupEnd(run + spaces + p.keyword + rest, 0, p) == |run|
  {
    var after := spaces + p.keyword + rest;
    assert !IsNumChar(after[0]) by {
      assert after[0] == if spaces != [] then spaces[0] else p.keyword[0];
    }
    SpacesThenKeyword(spaces, p.keyword, rest);
    MatchAfterRun(run, after, p);
    ConcatAssoc(run, spaces, p.keyword, rest);
  }

  lemma MatchAfterRun(run: string, after: string, p: StatPattern)
    requires !p.decimal && p.suffixes == {}
    requires run != [] && forall k :: 0 <= k < |run| ==> IsNumChar(run[k])
    requires after != [] && !IsNumChar(after[0])
    requires StartsWith(after[|TakeWhile(after, IsSpace)|..], p.keyword)
    ensures MatchesAt(run + after, 0, p)
    ensures GroupEnd(run + after, 0, p) == |run|
  {
    GroupEndOfRun(run, after, p);
  }

  /** Without a fraction or a suffix, the group is the run of digits and
      commas. */
  lemma GroupEndOfRun(run: string, after: string, p: StatPattern)
    requires !p.decimal && p.suffixes == {}
    requires run != [] && forall k :: 0 <= k < |run| ==> IsNumChar(run[k])
    requires after != [] && !IsNumChar(after[0])
    ensures IsNumChar((run + after)[0])
    ensures GroupEnd(run + after, 0, p) == |run|
    ensures (run + after)[|run|..] == after
  {
    var s := run + after;
    assert s[0..] == s;
    TakeWhileRun(run, after, IsNumChar);
  }

  /** After optional spaces, the keyword is found. */
  lemma SpacesThenKeyword(spaces: string, keyword: string, rest: string)
    requires keyword != [] && !IsSpace(keyword[0])
    requires forall k :: 0 <= k < |spaces| ==> IsSpace(spaces[k])
    ensures var a := spaces + keyword + rest; StartsWith(a[|TakeWhile(a, IsSpace)|..], keyword)
  {
    var a := spaces + (keyword + rest);
    assert spaces + keyword + rest == a;
    TakeWhileRun(spaces, keyword + rest, IsSpace);
    assert a[|spaces|..] == keyword + rest;
  }

  /** In text that lower-casing leaves alone, a run of digits and commas
      in front of the keyword is the number that is read. */
  lemma LeadingCount(run: string, spaces: string, rest: string, p: StatPattern)
    requires !p.decimal && p.suffixes == {}
    requires p.keyword != [] && !IsNumChar(p.keyword[0]) && !IsSpace(p.keyword[0])
    requires run != [] && forall k :: 0 <= k < |run| ==> IsNumChar(run[k])
    requires forall k :: 0 <= k < |spaces| ==> IsSpace(spaces[k])
    requires Lower(run + spaces + p.keyword + rest) == run + spaces + p.keyword + rest
    ensures KeywordCountAsWritten(run + spaces + p.keyword + rest, p) == RunValue(run)
  {
    var s := run + spaces + p.keyword + rest;
    LeadingMatch(run, spaces, rest, p);
    KeywordInside(run + spaces, p.keyword, rest);
    assert MatchSearch(s, p, 0) == Some(0);
    ConcatAssoc(run, spaces, p.keyword, rest);
    PrefixOfConcat(run, spaces + p.keyword + rest);
  }

  lemma KeywordInside(before: string, keyword: string, after: string)
    ensures Contains(before + keyword + after, keyword)
  {
    var s := before + keyword + after;
    assert s[|before|..|before| + |keyword|] == keyword;
    ContainsAt(s, keyword, |before|);
  }

  lemma KeywordIsLower()
    ensures Lower(AppreciationPattern.keyword) == AppreciationPattern.keyword
  {
    LowerOfNonUpper(AppreciationPattern.keyword);
  }

  /** A block of lower-case text that starts with commas alone in front of
      the appreciations keyword (", appreciations", say). */
  predicate CommaOnlyBlock(commas: string, spaces: string, rest: string) {
    && commas != [] && (forall k :: 0 <= k < |commas| ==> commas[k] == ',')
    && (forall k :: 0 <= k < |spaces| ==> IsSpace(spaces[k]))
    && Lower(rest) == rest
  }

  /** The appreciations pattern takes the commas as the number, and
      `int('')` raises. */
  lemma CommaOnlyCount(commas: string, spaces: string, rest: string)
    requires CommaOnlyBlock(commas, spaces, rest)
    ensures KeywordCountAsWritten(commas + spaces + AppreciationPattern.keyword + rest, AppreciationPattern)
      == Err(EmptyIntLiteral)
  {
    CommaOnlyIsLower(commas, spaces, rest);
    CommasValue(commas);
    LeadingCount(commas, spaces, rest, AppreciationPattern);
  }

  lemma CommaOnlyIsLower(commas: string, spaces: string, rest: string)
    requires CommaOnlyBlock(commas, spaces, rest)
    ensures var s := commas + spaces + AppreciationPattern.keyword + rest; Lower(s) == s
  {
    LowerOfNonUpper(commas);
    LowerOfNonUpper(spaces);
    KeywordIsLower();
    LowerFixedConcat(commas, spaces, AppreciationPattern.keyword, rest);
  }

  /** A run of commas alone has no value. */
  lemma CommasValue(commas: string)
    requires forall k :: 0 <= k < |commas| ==> commas[k] == ','
    ensures forall k :: 0 <= k < |commas| ==> IsNumChar(commas[k])
    ensures RunValue(commas) == Err(EmptyIntLiteral)
  {
    CommaFreeDigits(commas);
  }

  /** A stats block that starts with commas alone in front of the
      appreciations keyword makes `extract_stats` raise. */
  lemma CommaOnlyRaises(commas: string, spaces: string, rest: string, parseNumber: string -> nat)
    requires CommaOnlyBlock(commas, spaces, rest)
    ensures var block := Element(map[], commas + spaces + AppreciationPattern.keyword + rest);
      ExtractStatsAsWritten(StatsSources(Some(block), None, None, None), ViewPatternAsWritten, parseNumber)
        == Err(EmptyIntLiteral)
  {
    CommaOnlyCount(commas, spaces, rest);
  }

  /** With the correction the same block gives no appreciations, and no
      fallback element leaves the count at 0. */
  lemma CommaOnlyCorrected(commas: string, spaces: string, rest: string, parseNumber: string -> nat)
    requires CommaOnlyBlock(commas, spaces, rest)
    ensures var block := Element(map[], commas + spaces + AppreciationPattern.keyword + rest);
      ExtractStats(StatsSources(Some(block), None, None, None), parseNumber).appreciations == 0
  {
    CommaOnlyCount(commas, spaces, rest);
  }

  // ----- the views suffix -----

  /** Lower-cased text holds no upper-case suffix letter. */
  lemma {:induction false} LowerHasNoSuffix(text: string)
    ensures 'K' !in Lower(text) && 'M' !in Lower(text) && 'B' !in Lower(text)
  {
    if text != [] {
      LowerHasNoSuffix(text[1..]);
      assert Lower(text) == [LowerChar(text[0])] + Lower(text[1..]);
    }
  }

  /** As written, the views group never holds a suffix letter: the pattern
      asks for `K`, `M` or `B` in text that has just been lower-cased. */
  lemma SuffixNeverRead(text: string)
    ensures var r := Search(Lower(text), ViewPatternAsWritten);
      r.Some? ==> forall k :: 0 <= k < |r.value| ==> IsNumChar(r.value[k]) || r.value[k] == '.'
  {
    LowerHasNoSuffix(text);
  }

  /** The group of the corrected views pattern spans a run, a point, the
      fraction digits and a suffix letter. */
  lemma {:induction false} ViewsGroupEnd(whole: string, frac: string, suffix: char, tail: string)
    requires whole != [] && forall k :: 0 <= k < |whole| ==> IsNumChar(whole[k])
    requires AllDigits(frac)
    requires suffix in ViewPattern.suffixes
    ensures GroupEnd(whole + "." + frac + [suffix] + tail, 0, ViewPattern) == |whole| + 1 + |frac| + 1
  {
    var s := whole + "." + frac + [suffix] + tail;
    var after := "." + frac + [suffix] + tail;
    SplitAfterWhole(whole, frac, suffix, tail);
    TakeWhileRun(whole, after, IsNumChar);
    var j := |whole|;
    TakeWhileRun(frac, [suffix] + tail, IsDigit);
  }

  /** The pieces of a number with a fraction and a suffix letter. */
  lemma SplitAfterWhole(whole: string, frac: string, suffix: char, tail: string)
    ensures var s := whole + "." + frac + [suffix] + tail;
      && s == whole + ("." + frac + [suffix] + tail)
      && s[0..] == s
      && s[|whole|] == '.'
      && s[|whole| + 1..] == frac + ([suffix] + tail)
      && s[|whole| + 1 + |frac|] == suffix
  {
    var s := whole + "." + frac + [suffix] + tail;
    assert s[|whole| + 1..] == frac + ([suffix] + tail);
  }

  /** A number with a fraction and a suffix letter in front of `view`
      is matched whole by the corrected pattern. */
  lemma LeadingViews(whole: string, frac: string, suffix: char, spaces: string, rest: string)
    requires whole != [] && forall k :: 0 <= k < |whole| ==> IsNumChar(whole[k])
    requires AllDigits(frac)
    requires suffix in ViewPattern.suffixes
    requires forall k :: 0 <= k < |spaces| ==> IsSpace(spaces[k])
    ensures var s := whole + "." + frac + [suffix] + spaces + "view" + rest;
      Search(s, ViewPattern) == Some(whole + "." + frac + [suffix])
  {
    var number := whole + "." + frac + [suffix];
    var tail := spaces + "view" + rest;
    var s := number + tail;
    NumberThenTail(whole, frac, suffix, spaces, rest);
    ViewsGroupEnd(whole, frac, suffix, tail);
    SpacesThenKeyword(spaces, "view", rest);
    assert MatchesAt(s, 0, ViewPattern);
    assert MatchSearch(s, ViewPattern, 0) == Some(0);
  }

  lemma NumberThenTail(whole: string, frac: string, suffix: char, spaces: string, rest: string)
    ensures var number := whole + "." + frac + [suffix];
      var tail := spaces + "view" + rest;
      && number + tail == whole + "." + frac + [suffix] + spaces + "view" + rest
      && (number + tail)[|number|..] == tail
      && (number + tail)[0..|number|] == number
  {
    var number := whole + "." + frac + [suffix];
    var tail := spaces + "view" + rest;
    assert (number + tail)[|number|..] == tail;
    assert (number + tail)[0..|number|] == number;
  }

  /** A number with a fraction and a suffix letter before "view" (as in
      "1.7K views"), in text lower-casing changes only in that letter. */
  predicate SuffixBlock(whole: string, frac: string, suffix: char, spaces: string, rest: string) {
    && whole != [] && AllDigits(whole) && AllDigits(frac)
    && suffix in {'K', 'M', 'B'}
    && (forall k :: 0 <= k < |spaces| ==> IsSpace(spaces[k]))
    && Lower(rest) == rest
  }

  /** Corrected, the views of such a block are read with the suffix letter
      ("1.7k" from "1.7K views"). */
  lemma SuffixReadCorrected(whole: string, frac: string, suffix: char, spaces: string, rest: string)
    requires SuffixBlock(whole, frac, suffix, spaces, rest)
    ensures Search(Lower(whole + "." + frac + [suffix] + spaces + "view" + rest), ViewPattern)
      == Some(whole + "." + frac + [LowerChar(suffix)])
  {
    var lowered := whole + "." + frac + [LowerChar(suffix)] + spaces + "view" + rest;
    LowerOfSuffixBlock(whole, frac, suffix, spaces, rest);
    assert forall k :: 0 <= k < |whole| ==> IsNumChar(whole[k]);
    LeadingViews(whole, frac, LowerChar(suffix), spaces, rest);
  }

  lemma LowerOfSuffixBlock(whole: string, frac: string, suffix: char, spaces: string, rest: string)
    requires SuffixBlock(whole, frac, suffix, spaces, rest)
    ensures Lower(whole + "." + frac + [suffix] + spaces + "view" + rest)
      == whole + "." + frac + [LowerChar(suffix)] + spaces + "view" + rest
  {
    var a := whole + "." + frac;
    LowerOfNonUpper(whole);
    LowerOfNonUpper(".");
    LowerOfNonUpper(frac);
    LowerFixed3(whole, ".", frac);
    LowerOfNonUpper(spaces);
    LowerOfNonUpper("view");
    LowerFixed3(spaces, "view", rest);
    LowerAround(a, suffix, spaces + "view" + rest);
    ConcatAssoc(a + [suffix], spaces, "view", rest);
    ConcatAssoc(a + [LowerChar(suffix)], spaces, "view", rest);
  }

  // ----- the project page -----

  /** What a project page shows: its URL, what each selector of the title,
      description and owner chains matched (in selector order), the
      statistics sources and the tag elements. */
  datatype ProjectPage = ProjectPage(
    url: string,
    titles: seq<Option<Element>>,
    descriptions: seq<Option<Element>>,
    owners: seq<Option<Element>>,
    stats: StatsSources,
    tags: seq<Element>)

  const IdModulus := 100000000

  /** The project `extract_from_page` builds once the statistics are read:
      `metaNow` is the clock reading `extract_metadata` takes (publication
      and creation), `now` the later one (modification), `hash` is Python's
      `hash()`. */
  function PageProject(page: ProjectPage, metaNow: int, now: int, hash: string -> int,
                       stats: ProjectStats): Result<Project, string>
  {
    var owner := OwnerName(page.owners);
    NewProject(ProjectId(page.url, hash),
               FirstText(page.titles, DefaultTitle),
               FirstText(page.descriptions, ""),
               BeforeFirst(page.url, '?'),
               metaNow, metaNow, now,
               stats,
               TagTexts(page.tags),
               map[],
               hash(owner) % IdModulus,
               owner)
  }

  /** `extract_from_page` as written: an `extract_stats` that raises ends
      it before the project is built. */
  function FromPage(page: ProjectPage, metaNow: int, now: int, hash: string -> int,
                    parseNumber: string -> nat): Result<Project, string>
  {
    var stats :- ExtractStatsAsWritten(page.stats, ViewPatternAsWritten, parseNumber);
    PageProject(page, metaNow, now, hash, stats)
  }

  /** `extract_from_page` with the corrected `extract_stats`. */
  function FromPageCorrected(page: ProjectPage, metaNow: int, now: int, hash: string -> int,
                             parseNumber: string -> nat): Result<Project, string>
  {
    PageProject(page, metaNow, now, hash, ExtractStats(page.stats, parseNumber))
  }

  /** A page yields a project exactly when its statistics do not raise and
      its URL without the query is an http(s) URL; a raise is reported as
      such; the project has a title, a one-line owner, no query in its
      URL, the statistics read, the de-duplicated tags and no covers. */
  lemma FromPageProperties(page: ProjectPage, metaNow: int, now: int, hash: string -> int,
                           parseNumber: string -> nat)
    ensures FromPage(page, metaNow, now, hash, parseNumber).Ok? <==>
      ExtractStatsAsWritten(page.stats, ViewPatternAsWritten, parseNumber).Ok? && IsHttpUrl(BeforeFirst(page.url, '?'))
    ensures ExtractStatsAsWritten(page.stats, ViewPatternAsWritten, parseNumber).Err? ==>
      FromPage(page, metaNow, now, hash, parseNumber).error
        == ExtractStatsAsWritten(page.stats, ViewPatternAsWritten, parseNumber).error
    ensures var r := FromPage(page, metaNow, now, hash, parseNumber);
      r.Ok? ==> r.value.stats == ExtractStatsAsWritten(page.stats, ViewPatternAsWritten, parseNumber).value
    ensures var r := FromPage(page, metaNow, now, hash, parseNumber);
      r.Ok? ==> r.value.title != "" && r.value.ownerUsername != "" && '\n' !in r.value.ownerUsername
    ensures var r := FromPage(page, metaNow, now, hash, parseNumber);
      r.Ok? ==> '?' !in r.value.url && page.url[..|r.value.url|] == r.value.url
    ensures var r := FromPage(page, metaNow, now, hash, parseNumber);
      r.Ok? ==> r.value.id == ProjectId(page.url, hash) && 0 <= r.value.ownerId < IdModulus
    ensures var r := FromPage(page, metaNow, now, hash, parseNumber);
      r.Ok? ==> r.value.tags == Dedup(TagTexts(page.tags)) && r.value.covers == map[]
    ensures var r := FromPage(page, metaNow, now, hash, parseNumber);
      r.Ok? ==> r.value.publishedOn == metaNow && r.value.createdOn == metaNow && r.value.modifiedOn == now
  {
    TitleNotEmpty(page.titles);
    OwnerIsOneLine(page.owners);
  }

  /** The corrected reader yields a project for every page the source
      reads, the same one but for the statistics, and the same statistics
      too wherever the views pattern does not matter. */
  lemma FromPageCorrectionAgrees(page: ProjectPage, metaNow: int, now: int, hash: string -> int,
                                 parseNumber: string -> nat)
    requires FromPage(page, metaNow, now, hash, parseNumber).Ok?
    ensures FromPageCorrected(page, metaNow, now, hash, parseNumber).Ok?
    ensures FromPageCorrected(page, metaNow, now, hash, parseNumber).value
      == FromPage(page, metaNow, now, hash, parseNumber).value.(stats := ExtractStats(page.stats, parseNumber))
    ensures ExtractStatsAsWritten(page.stats, ViewPattern, parseNumber)
            == ExtractStatsAsWritten(page.stats, ViewPatternAsWritten, parseNumber) ==>
      FromPageCorrected(page, metaNow, now, hash, parseNumber) == FromPage(page, metaNow, now, hash, parseNumber)
  {
    if ExtractStatsAsWritten(page.stats, ViewPattern, parseNumber)
       == ExtractStatsAsWritten(page.stats, ViewPatternAsWritten, parseNumber) {
      CorrectionAgrees(page.stats, parseNumber);
    }
  }

  /** On a page whose stats block starts with commas alone in front of the
      appreciations keyword, `extract_from_page` as written raises, while
      the corrected reader yields a project for any http(s) URL. */
  lemma CommaOnlyPage(page: ProjectPage, metaNow: int, now: int, hash: string -> int, parseNumber: string -> nat,
                      commas: string, spaces: string, rest: string)
    requires CommaOnlyBlock(commas, spaces, rest)
    requires page.stats == StatsSources(Some(Element(map[], commas + spaces + AppreciationPattern.keyword + rest)),
                                        None, None, None)
    ensures FromPage(page, metaNow, now, hash, parseNumber) == Err(EmptyIntLiteral)
    ensures FromPageCorrected(page, metaNow, now, hash, parseNumber).Ok? <==> IsHttpUrl(BeforeFirst(page.url, '?'))
  {
    CommaOnlyRaises(commas, spaces, rest, parseNumber);
  }

  /** `extract_from_page`, step by step. */
  method ExtractFromPage(page: ProjectPage, metaNow: int, now: int, hash: string -> int,
                         parseNumber: string -> nat) returns (r: Result<Project, string>)
    ensures r == FromPage(page, metaNow, now, hash, parseNumber)
  {
    var projectId := ProjectId(page.url, hash);
    var title := DefaultTitle;
    var found := FindNonBlank(page.titles);
    if found.Some? {
      title := found.value;
    }
    var description := "";
    found := FindNonBlank(page.descriptions);
    if found.Some? {
      description := found.value;
    }
    var owner := DefaultOwner;
    found := FindNonBlank(page.owners);
    if found.Some? {
      owner := BeforeFirst(found.value, '\n');
    }
    assert title == FirstText(page.titles, DefaultTitle);
    assert description == FirstText(page.descriptions, "");
    assert owner == OwnerName(page.owners);
    var stats := ExtractStatsAsWritten(page.stats, ViewPatternAsWritten, parseNumber);
    if stats.Err? {
      return Err(stats.error);
    }
    var tags := ExtractTags(page.tags);
    var ownerId := hash(owner) % IdModulus;
    r := NewProject(projectId, title, description, BeforeFirst(page.url, '?'), metaNow, metaNow, now,
                    stats.value, tags, map[], ownerId, owner);
  }

  // ----- the API response -----

  /** `s.replace("Z", "+00:00")` */
  function IsoInput(s: string): string {
    ReplaceChar(s, 'Z', "+00:00")
  }

  /** `datetime.fromisoformat(data[k].replace("Z", "+00:00"))`: a missing
      key, a value without `replace` and a string the parser refuses all
      raise. */
  function JsonTime(data: Document, k: string, parseTime: string -> Option<int>): (r: Result<Value, string>)
    ensures r.Ok? <==> k in data && data[k].Str? && parseTime(IsoInput(data[k].s)).Some?
    ensures r.Ok? ==> r.value == Time(parseTime(IsoInput(data[k].s)).value)
  {
    if k !in data then Err("KeyError: " + k)
    else if !data[k].Str? then Err("AttributeError: replace")
    else match parseTime(IsoInput(data[k].s))
      case None => Err("Invalid isoformat string")
      case Some(t) => Ok(Time(t))
  }

  /** `ProjectStats(...)` from `data.get("stats", {})`, each counter
      defaulting to 0. */
  function JsonStats(data: Document): (r: Result<ProjectStats, string>)
    ensures r.Ok? ==> r.value.Valid()
  {
    var statsData := Get(data, "stats", Dict(map[]));
    if !statsData.Dict? then Err("AttributeError: get")
    else ParseStats(Dict(map[
      "views" := Get(statsData.entries, "views", Int(0)),
      "appreciations" := Get(statsData.entries, "appreciations", Int(0)),
      "comments" := Get(statsData.entries, "comments", Int(0))]))
  }

  /** `extract_covers`, and the covers of `extract_from_json` */
  function Covers(data: Document): Value {
    Get(data, "covers", Dict(map[]))
  }

  /** The keyword arguments `extract_from_json` passes to `Project`. */
  function JsonArguments(data: Document, published: Value, created: Value, modified: Value,
                         stats: ProjectStats): (r: Document)
    requires "id" in data && "title" in data && "url" in data && "owner_id" in data
    ensures "id" in r && r["id"] == data["id"]
    ensures "title" in r && r["title"] == data["title"]
    ensures "owner_id" in r && r["owner_id"] == data["owner_id"]
    ensures "published_on" in r && r["published_on"] == published
  {
    map[
      "id" := data["id"],
      "title" := data["title"],
      "description" := Get(data, "description", Str("")),
      "url" := data["url"],
      "published_on" := published,
      "created_on" := created,
      "modified_on" := modified,
      "stats" := StatsDump(stats),
      "tags" := Get(data, "tags", List([])),
      "covers" := Covers(data),
      "owner_id" := data["owner_id"],
      "owner_username" := Get(data, "owner_username", Str("unknown"))]
  }

  /** `extract_from_json`: the timestamps, stats and owner id are read first,
      then `Project` validates the arguments. */
  function FromJson(data: Document, parseTime: string -> Option<int>): (r: Result<Project, string>)
  {
    var published :- JsonTime(data, "published_on", parseTime);
    var created :- JsonTime(data, "created_on", parseTime);
    var modified :- JsonTime(data, "modified_on", parseTime);
    var stats :- JsonStats(data);
    if "owner_id" !in data then Err("KeyError: owner_id")
    else if "id" !in data then Err("KeyError: id")
    else if "title" !in data then Err("KeyError: title")
    else if "url" !in data then Err("KeyError: url")
    else ParseProject(JsonArguments(data, published, created, modified, stats))
  }

  /** The optional keys default to an empty description, no tags, no covers,
      the owner "unknown" and zero counters. */
  lemma JsonDefaults(data: Document, parseTime: string -> Option<int>)
    ensures var r := FromJson(data, parseTime);
      r.Ok? && "description" !in data ==> r.value.description == ""
    ensures var r := FromJson(data, parseTime);
      r.Ok? && "owner_username" !in data ==> r.value.ownerUsername == "unknown"
    ensures var r := FromJson(data, parseTime);
      r.Ok? && "tags" !in data ==> r.value.tags == []
    ensures var r := FromJson(data, parseTime);
      r.Ok? && "covers" !in data ==> r.value.covers == map[]
    ensures var r := FromJson(data, parseTime);
      r.Ok? && "stats" !in data ==> r.value.stats == ProjectStats(0, 0, 0)
  {
    var r := FromJson(data, parseTime);
    if r.Ok? {
      var published := JsonTime(data, "published_on", parseTime).value;
      var created := JsonTime(data, "created_on", parseTime).value;
      var modified := JsonTime(data, "modified_on", parseTime).value;
      var stats := JsonStats(data).value;
      var args := JsonArguments(data, published, created, modified, stats);
      assert r == ParseProject(args);
      JsonOptionalArguments(data, published, created, modified, stats);
      EmptyDefaults();
      StatsConstraint(stats.views, stats.appreciations, stats.comments);
      JsonStatsDefault(data);
    }
  }

  lemma EmptyDefaults()
    ensures ParseStrList(List([])) == Some([]) && Dedup([]) == []
    ensures ParseStrDict(Dict(map[])) == Some(map[])
  {
    assert ParseStrDict(Dict(map[])).value == map[];
  }

  /** Without a stats object every counter is 0. */
  lemma JsonStatsDefault(data: Document)
    ensures "stats" !in data ==> JsonStats(data) == Ok(ProjectStats(0, 0, 0))
  {
    if "stats" !in data {
      assert Get(data, "stats", Dict(map[])) == Dict(map[]);
      StatsConstraint(0, 0, 0);
    }
  }

  /** Where the optional arguments come from. */
  lemma JsonOptionalArguments(data: Document, published: Value, created: Value, modified: Value,
                              stats: ProjectStats)
    requires "id" in data && "title" in data && "url" in data && "owner_id" in data
    ensures var r := JsonArguments(data, published, created, modified, stats);
      && "description" in r && r["description"] == Get(data, "description", Str(""))
      && "owner_username" in r && r["owner_username"] == Get(data, "owner_username", Str("unknown"))
      && "tags" in r && r["tags"] == Get(data, "tags", List([]))
      && "covers" in r && r["covers"] == Covers(data)
      && "stats" in r && r["stats"] == StatsDump(stats)
  {
  }

  /** A project read from JSON has the response's id, owner id and title,
      and the instant the parser gives for its publication string. */
  lemma JsonRequired(data: Document, parseTime: string -> Option<int>)
    ensures var r := FromJson(data, parseTime);
      r.Ok? ==> "id" in data && data["id"] == Int(r.value.id)
    ensures var r := FromJson(data, parseTime);
      r.Ok? ==> "owner_id" in data && data["owner_id"] == Int(r.value.ownerId)
    ensures var r := FromJson(data, parseTime);
      r.Ok? ==> "title" in data && data["title"] == Str(r.value.title)
    ensures var r := FromJson(data, parseTime);
      r.Ok? ==> "published_on" in data && data["published_on"].Str? && parseTime(IsoInput(data["published_on"].s)) == Some(r.value.publishedOn)
  {
    var r := FromJson(data, parseTime);
    if r.Ok? {
      var published := JsonTime(data, "published_on", parseTime).value;
      var created := JsonTime(data, "created_on", parseTime).value;
      var modified := JsonTime(data, "modified_on", parseTime).value;
      var stats := JsonStats(data).value;
      var args := JsonArguments(data, published, created, modified, stats);
      assert r == ParseProject(args);
    }
  }
}
