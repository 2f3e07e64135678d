/** `SearchExtractor`: project and profile links from a Behance listing
    page, absolutised and de-duplicated by their URL without the query. */
module SearchExtractor {
  import opened Wrappers
  import opened Text
  import opened Html

  const BehanceHost := "https://www.behance.net"
  const ProfilePrefix := "https://www.behance.net/"

  /** `url.split('?')[0]` */
  function Base(url: string): string {
    BeforeFirst(url, '?')
  }

  /** `f"https://www.behance.net{href}"` for a site-relative href, the href
      itself otherwise. */
  function Absolute(href: string): (r: string)
    ensures StartsWith(href, "/") ==> r == BehanceHost + href
    ensures !StartsWith(href, "/") ==> r == href
  {
    if StartsWith(href, "/") then BehanceHost + href else href
  }

  // ----- the shared loop: keep the first link of every base -----

  /** One turn of the loop: an element's candidate link is kept when its
      base is accepted and not yet seen. */
  function Step(acc: (seq<string>, set<string>), e: Element, cand: Element -> Option<string>, accept: string -> bool): (seq<string>, set<string>) {
    match cand(e)
    case None => acc
    case Some(url) =>
      if Base(url) !in acc.1 && accept(Base(url)) then (acc.0 + [url], acc.1 + {Base(url)})
      else acc
  }

  /** The links kept from `es`, and the set of their bases. */
  function Collect(es: seq<Element>, cand: Element -> Option<string>, accept: string -> bool): (seq<string>, set<string>) {
    if es == [] then ([], {})
    else Step(Collect(es[..|es| - 1], cand, accept), es[|es| - 1], cand, accept)
  }

  lemma CollectSnoc(es: seq<Element>, e: Element, cand: Element -> Option<string>, accept: string -> bool)
    ensures Collect(es + [e], cand, accept) == Step(Collect(es, cand, accept), e, cand, accept)
  {
    assert (es + [e])[..|es|] == es;
  }

  /** The seen set is exactly the bases of the kept links; every kept link
      has an accepted base, a base of its own, and comes from an element;
      and every element's accepted base ends up seen. */
  lemma {:induction false} CollectProperties(es: seq<Element>, cand: Element -> Option<string>, accept: string -> bool)
    ensures var r := Collect(es, cand, accept);
      && r.1 == (set i | 0 <= i < |r.0| :: Base(r.0[i]))
      && (forall i :: 0 <= i < |r.0| ==> accept(Base(r.0[i])))
      && (forall i, j :: 0 <= i < j < |r.0| ==> Base(r.0[i]) != Base(r.0[j]))
      && (forall i :: 0 <= i < |r.0| ==> exists k :: 0 <= k < |es| && cand(es[k]) == Some(r.0[i]))
      && (forall k :: 0 <= k < |es| && cand(es[k]).Some? && accept(Base(cand(es[k]).value)) ==> Base(cand(es[k]).value) in r.1)
  {
    if es != [] {
      var init := es[..|es| - 1];
      var e := es[|es| - 1];
      CollectProperties(init, cand, accept);
      var (links, seen) := Collect(init, cand, accept);
      assert forall k :: 0 <= k < |init| ==> init[k] == es[k];
      match cand(e)
      case None =>
      case Some(url) =>
        if Base(url) !in seen && accept(Base(url)) {
          var links' := links + [url];
          assert forall i :: 0 <= i < |links| ==> links'[i] == links[i];
          assert cand(es[|es| - 1]) == Some(links'[|links|]);
          assert (set i | 0 <= i < |links'| :: Base(links'[i])) == seen + {Base(url)} by {
            assert Base(links'[|links|]) == Base(url);
          }
        }
    }
  }

  /** The loop only ever appends. */
  lemma {:induction false} CollectPrefix(es: seq<Element>, n: nat, cand: Element -> Option<string>, accept: string -> bool)
    requires n <= |es|
    ensures Collect(es[..n], cand, accept).0 <= Collect(es, cand, accept).0
    decreases |es|
  {
    if n < |es| {
      CollectPrefix(es[..|es| - 1], n, cand, accept);
      assert es[..|es| - 1][..n] == es[..n];
    } else {
      assert es[..n] == es;
    }
  }

  /** The first element that yields an accepted base is the one whose link
      is kept for that base. */
  lemma {:induction false} FirstOccurrenceWins(es: seq<Element>, k: nat, cand: Element -> Option<string>, accept: string -> bool)
    requires k < |es| && cand(es[k]).Some? && accept(Base(cand(es[k]).value))
    requires forall j :: 0 <= j < k && cand(es[j]).Some? ==> Base(cand(es[j]).value) != Base(cand(es[k]).value)
    ensures cand(es[k]).value in Collect(es, cand, accept).0
  {
    var pre := es[..k];
    CollectProperties(pre, cand, accept);
    assert es[..k + 1] == pre + [es[k]];
    CollectSnoc(pre, es[k], cand, accept);
    assert cand(es[k]).value in Collect(es[..k + 1], cand, accept).0;
    CollectPrefix(es, k + 1, cand, accept);
  }

  // ----- extract_project_links -----

  /** The candidate link of an element found by a project selector. */
  function ProjectCandidate(e: Element): (r: Option<string>)
    ensures r.Some? <==> Truthy(e.Get("href"))
    ensures r.Some? ==> r.value == Absolute(e.Get("href").value)
  {
    var href := e.Get("href");
    if !Truthy(href) then None else Some(Absolute(href.value))
  }

  predicate IsProjectBase(base: string) {
    Contains(base, "/gallery/")
  }

  /** The hrefs of `es`, made absolute. */
  function AbsoluteHrefs(es: seq<Element>): set<string> {
    set e | e in es && Truthy(e.Get("href")) :: Absolute(e.Get("href").value)
  }

  /** The project links of a page, given what each of the three project
      selectors matched. */
  function ProjectLinks(selections: seq<seq<Element>>): seq<string> {
    Collect(Flatten(selections), ProjectCandidate, IsProjectBase).0
  }

  /** Every project link has `/gallery/` in its base, no two share a base,
      and each is an input href made absolute, query included. */
  lemma {:induction false} ProjectLinksProperties(selections: seq<seq<Element>>)
    ensures var links := ProjectLinks(selections);
      && (forall i :: 0 <= i < |links| ==> Contains(Base(links[i]), "/gallery/"))
      && (forall i, j :: 0 <= i < j < |links| ==> Base(links[i]) != Base(links[j]))
    ensures forall i :: 0 <= i < |ProjectLinks(selections)| ==> ProjectLinks(selections)[i] in AbsoluteHrefs(Flatten(selections))
  {
    var es := Flatten(selections);
    var links := ProjectLinks(selections);
    CollectProperties(es, ProjectCandidate, IsProjectBase);
    forall i | 0 <= i < |links|
      ensures links[i] in AbsoluteHrefs(es)
    {
      var k :| 0 <= k < |es| && ProjectCandidate(es[k]) == Some(links[i]);
      assert es[k] in es;
    }
  }

  method ExtractProjectLinks(selections: seq<seq<Element>>) returns (projectLinks: seq<string>)
    ensures projectLinks == ProjectLinks(selections)
  {
    projectLinks := [];
    var seenUrls: set<string> := {};
    var s := 0;
    while s < |selections|
      invariant 0 <= s <= |selections|
      invariant (projectLinks, seenUrls) == Collect(Flatten(selections[..s]), ProjectCandidate, IsProjectBase)
    {
      FlattenSnoc(selections, s);
      projectLinks, seenUrls := ScanProjectLinks(Flatten(selections[..s]), selections[s], projectLinks, seenUrls);
      s := s + 1;
    }
    assert selections[..s] == selections;
  }

  /** The inner loop of `extract_project_links`: the links one selector
      matched, after the elements `before` of earlier selectors. */
  method ScanProjectLinks(ghost before: seq<Element>, linkElements: seq<Element>,
                          links0: seq<string>, seen0: set<string>)
    returns (projectLinks: seq<string>, seenUrls: set<string>)
    requires (links0, seen0) == Collect(before, ProjectCandidate, IsProjectBase)
    ensures (projectLinks, seenUrls) == Collect(before + linkElements, ProjectCandidate, IsProjectBase)
  {
    projectLinks, seenUrls := links0, seen0;
    assert before + linkElements[..0] == before;
    var j := 0;
    while j < |linkElements|
      invariant 0 <= j <= |linkElements|
      invariant (projectLinks, seenUrls) == Collect(before + linkElements[..j], ProjectCandidate, IsProjectBase)
    {
      assert before + linkElements[..j + 1] == (before + linkElements[..j]) + [linkElements[j]];
      CollectSnoc(before + linkElements[..j], linkElements[j], ProjectCandidate, IsProjectBase);
      var href := linkElements[j].Get("href");
      if Truthy(href) {
        var fullUrl := Absolute(href.value);
        var baseUrl := Base(fullUrl);
        if baseUrl !in seenUrls && Contains(baseUrl, "/gallery/") {
          seenUrls := seenUrls + {baseUrl};
          projectLinks := projectLinks + [fullUrl];
        }
      }
      j := j + 1;
    }
    assert linkElements[..j] == linkElements;
  }

  // ----- extract_user_links -----

  predicate IsHandleChar(c: char) {
    'a' <= c <= 'z' || 'A' <= c <= 'Z' || '0' <= c <= '9' || c == '_' || c == '-'
  }

  predicate IsHandle(s: string) {
    |s| > 0 && forall i :: 0 <= i < |s| ==> IsHandleChar(s[i])
  }

  /** `re.match(r'^https://www\.behance\.net/[a-zA-Z0-9_-]+$', base)`: one
      path segment after the host, where `$` also matches before a final
      newline. */
  predicate IsProfileBase(base: string) {
    StartsWith(base, ProfilePrefix)
    && var rest := base[|ProfilePrefix|..];
       (IsHandle(rest) || (|rest| > 0 && rest[|rest| - 1] == '\n' && IsHandle(rest[..|rest| - 1])))
  }

  const NavPaths: seq<string> := ["/", "/search", "/discover"]
  const FooterMarks: seq<string> := ["/about", "/contact", "/terms", "/privacy", "/help"]

  predicate IsFooterLink(href: string) {
    exists m :: m in FooterMarks && Contains(href, m)
  }

  /** The candidate link of an element found by the profile selector:
      navigation and footer links have none. */
  function UserCandidate(e: Element): (r: Option<string>)
    ensures r.Some? <==> Truthy(e.Get("href")) && e.Get("href").value !in NavPaths && !IsFooterLink(e.Get("href").value)
    ensures r.Some? ==> r.value == Absolute(e.Get("href").value)
  {
    var href := e.Get("href");
    if !Truthy(href) || href.value in NavPaths then None
    else if IsFooterLink(href.value) then None
    else Some(Absolute(href.value))
  }

  /** The absolute hrefs of the elements that are neither navigation nor
      footer links. */
  function UserHrefs(es: seq<Element>): set<string> {
    set e | e in es && UserCandidate(e).Some? :: UserCandidate(e).value
  }

  function UserLinks(elements: seq<Element>): seq<string> {
    Collect(elements, UserCandidate, IsProfileBase).0
  }

  /** A profile link is never a navigation or footer link, has a
      single-segment profile base, and no two share a base. */
  lemma {:induction false} UserLinksProperties(elements: seq<Element>)
    ensures var links := UserLinks(elements);
      && (forall i :: 0 <= i < |links| ==> IsProfileBase(Base(links[i])))
      && (forall i, j :: 0 <= i < j < |links| ==> Base(links[i]) != Base(links[j]))
    ensures forall i :: 0 <= i < |UserLinks(elements)| ==> UserLinks(elements)[i] in UserHrefs(elements)
  {
    var links := UserLinks(elements);
    CollectProperties(elements, UserCandidate, IsProfileBase);
    forall i | 0 <= i < |links|
      ensures links[i] in UserHrefs(elements)
    {
      var k :| 0 <= k < |elements| && UserCandidate(elements[k]) == Some(links[i]);
      assert elements[k] in elements;
    }
  }

  method ExtractUserLinks(linkElements: seq<Element>) returns (userLinks: seq<string>)
    ensures userLinks == UserLinks(linkElements)
  {
    userLinks := [];
    var seenUrls: set<string> := {};
    var j := 0;
    while j < |linkElements|
      invariant 0 <= j <= |linkElements|
      invariant (userLinks, seenUrls) == Collect(linkElements[..j], UserCandidate, IsProfileBase)
    {
      assert linkElements[..j + 1] == linkElements[..j] + [linkElements[j]];
      CollectSnoc(linkElements[..j], linkElements[j], UserCandidate, IsProfileBase);
      var href := linkElements[j].Get("href");
      if Truthy(href) && href.value !in NavPaths && !IsFooterLink(href.value) {
        var fullUrl := Absolute(href.value);
        var baseUrl := Base(fullUrl);
        if IsProfileBase(baseUrl) && baseUrl !in seenUrls {
          seenUrls := seenUrls + {baseUrl};
          userLinks := userLinks + [fullUrl];
        }
      }
      j := j + 1;
    }
    assert linkElements[..j] == linkElements;
  }

  // ----- search and trending -----

  /** The search page `search_projects` opens for a query. */
  function SearchUrl(query: string): string {
    "https://www.behance.net/search/projects?search=" + query
  }

  const TrendingUrls: seq<string> := ["https://www.behance.net/featured", "https://www.behance.net/discover"]

  /** The first non-empty list among the attempts, an attempt that raised
      being `None`; `[]` when there is none. */
  function FirstNonEmpty(attempts: seq<Option<seq<string>>>): (r: seq<string>)
    ensures r != [] <==> exists i :: 0 <= i < |attempts| && attempts[i].Some? && attempts[i].value != []
    ensures r != [] ==> exists i :: (0 <= i < |attempts| && attempts[i] == Some(r)
      && forall j :: 0 <= j < i ==> attempts[j].None? || attempts[j].value == [])
  {
    if attempts == [] then []
    else if attempts[0].Some? && attempts[0].value != [] then attempts[0].value
    else
      var r := FirstNonEmpty(attempts[1..]);
      assert forall i :: 1 <= i < |attempts| ==> attempts[i] == attempts[1..][i - 1];
      if r != [] then
        var i :| 0 <= i < |attempts[1..]| && attempts[1..][i] == Some(r)
          && forall j :: 0 <= j < i ==> attempts[1..][j].None? || attempts[1..][j].value == [];
        assert attempts[i + 1] == Some(r);
        r
      else r
  }

  /** `get_trending_projects`: featured first, then discover; a page that
      fails to load or yields no link is passed over. `extract` gives the
      links a page yields, or `None` when loading it raises. */
  method GetTrendingProjects(extract: string -> Option<seq<string>>) returns (links: seq<string>)
    ensures links == FirstNonEmpty([extract(TrendingUrls[0]), extract(TrendingUrls[1])])
  {
    var attempts := [extract(TrendingUrls[0]), extract(TrendingUrls[1])];
    var i := 0;
    while i < |TrendingUrls|
      invariant 0 <= i <= 2
      invariant forall j :: 0 <= j < i ==> attempts[j].None? || attempts[j].value == []
    {
      var outcome := extract(TrendingUrls[i]);
      if outcome.Some? && outcome.value != [] {
        return outcome.value;
      }
      i := i + 1;
    }
    links := [];
  }

  /** Featured links win whenever there are any; discover is used only when
      featured fails or is empty. */
  lemma TrendingPrefersFeatured(featured: Option<seq<string>>, discover: Option<seq<string>>)
    ensures featured.Some? && featured.value != [] ==> FirstNonEmpty([featured, discover]) == featured.value
    ensures (featured.None? || featured.value == []) ==>
      FirstNonEmpty([featured, discover]) == (if discover.Some? then discover.value else [])
  {
    var a := [featured, discover];
    assert a[1..] == [discover];
    assert a[1..][1..] == [];
  }
}
