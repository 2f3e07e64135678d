/** `PinterestExtractor`: boards read off a profile page and pins read off
    a board page. Each card is given as what its nested selectors matched;
    `raises` records that a browser call on the card raised, which drops
    the card. `_parse_pin_count` is a parameter. */
module PinterestExtractor {
  import opened Wrappers
  import opened Text
  import opened Html
  import opened PinterestModel

  const WwwPrefix := "https://www."
  const SiteName := "pinterest.com"
  const PinterestHost := WwwPrefix + SiteName
  const ProfileMarker := SiteName + "/"
  const PinMarker := "/pin/"
  const Unknown := "unknown"

  /** `f"https://www.pinterest.com{url}"` when `url` is non-empty and does
      not start with `http`, `url` itself otherwise. */
  function Absolute(href: string): (r: string)
    ensures href != [] && !StartsWith(href, "http") ==> r == PinterestHost + href
    ensures href == [] || StartsWith(href, "http") ==> r == href
    ensures href != [] ==> StartsWith(r, "http")
  {
    if href != [] && !StartsWith(href, "http") then PinterestHost + href else href
  }

  /** Absolutising keeps every substring of the href. */
  lemma AbsoluteKeeps(href: string, sub: string)
    requires Contains(href, sub)
    ensures Contains(Absolute(href), sub)
  {
    if Absolute(href) != href {
      ContainsInConcat(PinterestHost, href, "", sub);
      assert PinterestHost + href + "" == Absolute(href);
    }
  }

  /** Absolutising adds no substring starting with `_`, a character the
      host does not hold. */
  lemma AbsoluteAddsNo(href: string, sub: string)
    requires sub != [] && sub[0] == '_'
    requires !Contains(href, sub)
    ensures !Contains(Absolute(href), sub)
  {
    if Absolute(href) != href && Contains(Absolute(href), sub) {
      HostsHaveNoMarkers();
      ContainsConcatSplit(PinterestHost, href, sub);
    }
  }

  // ----- the three URL patterns -----

  /** `pinterest\.com/([^/]+)/`, `/([^/]+)/?$` and `/pin/(\d+)`. */
  datatype Pattern = BoardUser | LastSegment | PinNumber

  predicate NotSlash(c: char) {
    c != '/'
  }

  /** The literal text before the group. */
  function Lead(p: Pattern): string {
    match p
    case BoardUser => ProfileMarker
    case LastSegment => "/"
    case PinNumber => PinMarker
  }

  /** The character class the group repeats. */
  function Class(p: Pattern): char -> bool {
    if p.PinNumber? then IsDigit else NotSlash
  }

  /** The greedy group that starts after the lead at `i`. */
  function GroupAt(p: Pattern, s: string, i: nat): string
    requires i + |Lead(p)| <= |s|
  {
    TakeWhile(s[i + |Lead(p)|..], Class(p))
  }

  /** The pattern matches at `i`: the lead, a non-empty greedy group, and
      then a `/` for `BoardUser`, or the end of the string for
      `LastSegment`, where an optional `/` may come first and `$` also
      matches before a final newline. A shorter group leaves a group
      character where `/` or the end must be, so the group is maximal. */
  predicate MatchAt(p: Pattern, s: string, i: nat) {
    && i + |Lead(p)| <= |s|
    && s[i..i + |Lead(p)|] == Lead(p)
    && var j := i + |Lead(p)| + |GroupAt(p, s, i)|;
       && GroupAt(p, s, i) != []
       && (p.BoardUser? ==> j < |s|)
       && (p.LastSegment? ==> j == |s| || j + 1 == |s| || (j + 2 == |s| && s[j + 1] == '\n'))
  }

  /** The leftmost match at or after `i`, as `re.search` scans. */
  function SearchFrom(p: Pattern, s: string, i: nat): (r: Option<nat>)
    decreases |s| - i
    ensures r.Some? ==> i <= r.value < |s| && MatchAt(p, s, r.value)
    ensures r.Some? ==> forall j :: i <= j < r.value ==> !MatchAt(p, s, j)
    ensures r.None? ==> forall j :: i <= j < |s| ==> !MatchAt(p, s, j)
  {
    if i >= |s| then None
    else if MatchAt(p, s, i) then Some(i)
    else SearchFrom(p, s, i + 1)
  }

  /** `m.group(1)` of the leftmost match, if any. */
  function Group(p: Pattern, s: string): (r: Option<string>)
    ensures r.None? <==> forall i :: 0 <= i < |s| ==> !MatchAt(p, s, i)
    ensures r.Some? ==> r.value != [] && forall k :: 0 <= k < |r.value| ==> Class(p)(r.value[k])
  {
    match SearchFrom(p, s, 0)
    case None => None
    case Some(i) => Some(GroupAt(p, s, i))
  }

  /** The board id (and the board name of a board page): the last path
      segment. */
  function LastSegmentOf(url: string): (r: string)
    ensures r != [] && '/' !in r
  {
    var r := Group(LastSegment, url).GetOr(Unknown);
    assert forall k :: 0 <= k < |r| ==> NotSlash(r[k]);
    r
  }

  /** The owner of a board page: the segment after `pinterest.com/`. */
  function BoardOwner(url: string): string {
    Group(BoardUser, url).GetOr(Unknown)
  }

  /** The pin id: the digits after `/pin/`. */
  function PinId(url: string): Option<string> {
    Group(PinNumber, url)
  }

  // ----- the patterns on the URLs the site produces -----

  /** `<base>/<seg>` and `<base>/<seg>/` end in the segment `seg`. */
  lemma LastSegmentOfPath(base: string, seg: string, tail: string)
    requires seg != [] && '/' !in seg && '\n' !in seg
    requires tail == "" || tail == "/"
    ensures Group(LastSegment, base + "/" + seg + tail) == Some(seg)
  {
    var s := base + "/" + seg + tail;
    SegmentMatch(base, seg, tail);
    NoEarlierSegment(base, seg, tail);
    GroupIsAt(LastSegment, s, |base|);
  }

  /** The leftmost match decides the group. */
  lemma GroupIsAt(p: Pattern, s: string, m: nat)
    requires MatchAt(p, s, m)
    requires forall i :: 0 <= i < m ==> !MatchAt(p, s, i)
    ensures Group(p, s) == Some(GroupAt(p, s, m))
  {
    var r := SearchFrom(p, s, 0);
    assert r.Some? && r.value == m;
  }

  lemma SegmentMatch(base: string, seg: string, tail: string)
    requires seg != [] && '/' !in seg && '\n' !in seg
    requires tail == "" || tail == "/"
    ensures MatchAt(LastSegment, base + "/" + seg + tail, |base|)
    ensures GroupAt(LastSegment, base + "/" + seg + tail, |base|) == seg
  {
    assert Class(LastSegment) == NotSlash;
    AfterSlash(base, seg, tail);
    if tail == "" {
      assert seg + tail == seg;
    } else {
      TakeWhileRun(seg, tail, NotSlash);
    }
  }

  lemma AfterSlash(base: string, seg: string, tail: string)
    ensures (base + "/" + seg + tail)[|base|..|base| + 1] == "/"
    ensures (base + "/" + seg + tail)[|base| + 1..] == seg + tail
  {
  }

  lemma NoEarlierSegment(base: string, seg: string, tail: string)
    requires seg != [] && '/' !in seg && '\n' !in seg
    ensures forall i :: 0 <= i < |base| ==> !MatchAt(LastSegment, base + "/" + seg + tail, i)
  {
    var s := base + "/" + seg + tail;
    var m := |base|;
    forall i | 0 <= i < m
      ensures !MatchAt(LastSegment, s, i)
    {
      EarlierSegmentEnds(s, i, m);
      assert s[m + 1] == seg[0];
    }
  }

  /** A run of non-slashes that starts before a `/` at `m` ends by `m`. */
  lemma EarlierSegmentEnds(s: string, i: nat, m: nat)
    requires i < m < |s| && s[m] == '/'
    ensures i + 1 <= |s| && i + 1 + |GroupAt(LastSegment, s, i)| <= m
  {
    assert Class(LastSegment) == NotSlash;
    assert s[i + 1..][m - i - 1] == s[m];
    TakeWhileStops(s[i + 1..], NotSlash, m - i - 1);
  }

  /** A host in which no `p` is followed by `i` holds no start of the
      `pinterest.com/` marker. */
  predicate NoSiteStart(host: string) {
    && (host != [] ==> host[|host| - 1] != 'p')
    && forall i :: 0 <= i < |host| - 1 ==> host[i] == 'p' ==> host[i + 1] != 'i'
  }

  /** A host in which no `/` is followed by `p` holds no start of the
      `/pin/` marker. */
  predicate NoPinStart(host: string) {
    forall i :: 0 <= i < |host| - 1 ==> host[i] == '/' ==> host[i + 1] != 'p'
  }

  lemma HostsHaveNoMarkers()
    ensures NoSiteStart(WwwPrefix)
    ensures NoPinStart(PinterestHost)
    ensures '_' !in PinterestHost
  {
  }

  /** After such a host, `pinterest.com/<user>/` names `user`. */
  lemma BoardOwnerAfter(host: string, user: string, rest: string)
    requires NoSiteStart(host)
    requires user != [] && '/' !in user
    ensures Group(BoardUser, host + ProfileMarker + user + "/" + rest) == Some(user)
  {
    BoardOwnerMatch(host, user, rest);
    NoSiteInHost(host, user + "/" + rest);
    assert host + ProfileMarker + user + "/" + rest == host + ProfileMarker + (user + "/" + rest);
  }

  lemma BoardOwnerMatch(host: string, user: string, rest: string)
    requires user != [] && '/' !in user
    ensures MatchAt(BoardUser, host + ProfileMarker + user + "/" + rest, |host|)
    ensures GroupAt(BoardUser, host + ProfileMarker + user + "/" + rest, |host|) == user
  {
    var s := host + ProfileMarker + user + "/" + rest;
    var m := |host|;
    assert Class(BoardUser) == NotSlash;
    assert s[m..m + |ProfileMarker|] == ProfileMarker;
    assert s[m + |ProfileMarker|..] == user + ("/" + rest);
    TakeWhileRun(user, "/" + rest, NotSlash);
  }

  /** The marker cannot start inside such a host. */
  lemma NoSiteInHost(host: string, rest: string)
    requires NoSiteStart(host)
    ensures forall i :: 0 <= i < |host| ==> !MatchAt(BoardUser, host + ProfileMarker + rest, i)
  {
    var s := host + ProfileMarker + rest;
    assert ProfileMarker[0] == 'p' && ProfileMarker[1] == 'i';
    forall i | 0 <= i < |host|
      ensures !MatchAt(BoardUser, s, i)
    {
      assert s[i] == host[i];
      if i + 1 < |host| {
        assert s[i + 1] == host[i + 1];
      }
    }
  }

  /** `https://www.pinterest.com/<user>/...` names `user` as the owner. */
  lemma BoardOwnerOf(user: string, rest: string)
    requires user != [] && '/' !in user
    ensures Group(BoardUser, WwwPrefix + ProfileMarker + user + "/" + rest) == Some(user)
  {
    HostsHaveNoMarkers();
    BoardOwnerAfter(WwwPrefix, user, rest);
  }

  /** After such a host, `/pin/<digits>` names the digits. */
  lemma PinIdAfter(host: string, digits: string, rest: string)
    requires NoPinStart(host)
    requires digits != [] && AllDigits(digits)
    requires rest == [] || !IsDigit(rest[0])
    ensures PinId(host + PinMarker + digits + rest) == Some(digits)
  {
    PinIdMatch(host, digits, rest);
    NoPinInHost(host, digits + rest);
    assert host + PinMarker + digits + rest == host + PinMarker + (digits + rest);
  }

  lemma PinIdMatch(host: string, digits: string, rest: string)
    requires digits != [] && AllDigits(digits)
    requires rest == [] || !IsDigit(rest[0])
    ensures MatchAt(PinNumber, host + PinMarker + digits + rest, |host|)
    ensures GroupAt(PinNumber, host + PinMarker + digits + rest, |host|) == digits
  {
    var s := host + PinMarker + digits + rest;
    var m := |host|;
    assert Class(PinNumber) == IsDigit;
    assert s[m..m + |PinMarker|] == PinMarker;
    assert s[m + |PinMarker|..] == digits + rest;
    if rest == [] {
      assert digits + rest == digits;
    } else {
      TakeWhileRun(digits, rest, IsDigit);
    }
  }

  /** The marker cannot start inside such a host. */
  lemma NoPinInHost(host: string, rest: string)
    requires NoPinStart(host)
    ensures forall i :: 0 <= i < |host| ==> !MatchAt(PinNumber, host + PinMarker + rest, i)
  {
    var s := host + PinMarker + rest;
    forall i | 0 <= i < |host|
      ensures !MatchAt(PinNumber, s, i)
    {
      assert s[i] == host[i];
      if i + 1 < |host| {
        assert s[i + 1] == host[i + 1];
      } else {
        assert s[i + 1] == PinMarker[0];
      }
    }
  }

  /** `https://www.pinterest.com/pin/<digits>...` names the digits as the
      pin id. */
  lemma PinIdOf(digits: string, rest: string)
    requires digits != [] && AllDigits(digits)
    requires rest == [] || !IsDigit(rest[0])
    ensures PinId(PinterestHost + PinMarker + digits + rest) == Some(digits)
  {
    HostsHaveNoMarkers();
    PinIdAfter(PinterestHost, digits, rest);
  }

  /** A board link `/<user>/<slug>/` becomes the board URL whose owner is
      `user` and whose last segment, the board id, is `slug`: the pins of
      that board are filed under the same owner and board name. */
  lemma BoardUrlRoundTrip(user: string, slug: string)
    requires user != [] && '/' !in user
    requires slug != [] && '/' !in slug && '\n' !in slug
    ensures var url := Absolute("/" + user + "/" + slug + "/");
      url == WwwPrefix + ProfileMarker + user + "/" + slug + "/"
      && BoardOwner(url) == user && LastSegmentOf(url) == slug
  {
    var href := "/" + user + "/" + slug + "/";
    NotStartsWith(href, "http");
    BoardLinkRegroup(WwwPrefix, SiteName, user, slug);
    BoardOwnerOf(user, slug + "/");
    LastSegmentOfPath(WwwPrefix + ProfileMarker + user, slug, "/");
  }

  /** The host followed by a board link, regrouped around the owner and
      around the last segment. */
  lemma BoardLinkRegroup(www: string, site: string, user: string, slug: string)
    ensures (www + site) + ("/" + user + "/" + slug + "/") == www + (site + "/") + user + "/" + slug + "/"
    ensures www + (site + "/") + user + "/" + slug + "/" == www + (site + "/") + user + "/" + (slug + "/")
  {
  }

  // ----- items kept by the extraction loops -----

  /** The items of the outcomes that produced one, in order: `None` and
      exceptions are dropped. */
  function Kept<T>(outcomes: seq<Result<Option<T>, string>>): (r: seq<T>)
    ensures |r| <= |outcomes|
    ensures forall x :: x in r ==> Ok(Some(x)) in outcomes
  {
    if outcomes == [] then []
    else
      var init := Kept(outcomes[..|outcomes| - 1]);
      assert forall o :: o in outcomes[..|outcomes| - 1] ==> o in outcomes;
      match outcomes[|outcomes| - 1]
      case Ok(Some(x)) => init + [x]
      case _ => init
  }

  /** The loops keep the order of the cards. */
  lemma {:induction false} KeptConcat<T>(a: seq<Result<Option<T>, string>>, b: seq<Result<Option<T>, string>>)
    ensures Kept(a + b) == Kept(a) + Kept(b)
    decreases |b|
  {
    if b != [] {
      var b' := b[..|b| - 1];
      assert (a + b)[..|a + b| - 1] == a + b';
      assert (a + b)[|a + b| - 1] == b[|b| - 1];
      KeptConcat(a, b');
    } else {
      assert a + b == a;
    }
  }

  /** One more outcome adds its item, if it has one, at the end. */
  lemma KeptSnoc<T>(outcomes: seq<Result<Option<T>, string>>, o: Result<Option<T>, string>)
    ensures Kept(outcomes + [o]) == Kept(outcomes) + (if o.Ok? && o.value.Some? then [o.value.value] else [])
  {
    assert (outcomes + [o])[..|outcomes|] == outcomes;
  }

  // ----- boards -----

  /** What the selectors of one board card matched: the link chain, the
      name chain, the pin-count element and the cover image. */
  datatype BoardCard = BoardCard(
    links: seq<Option<Element>>,
    names: seq<Option<Element>>,
    pinCount: Option<Element>,
    img: Option<Element>,
    raises: bool)

  /** A board link: a non-empty href naming the user that is neither the
      saved-pins nor the created-pins tab. */
  predicate IsBoardHref(href: Option<string>, username: string) {
    && Truthy(href)
    && Contains(href.value, username)
    && !Contains(href.value, "_saved")
    && !Contains(href.value, "_created")
  }

  /** `name.strip() if name else board_id`, where `name` is the text of the
      name element or, without one, the board id. */
  function BoardName(nameElem: Option<Element>, boardId: string): string {
    var name := if nameElem.Some? then nameElem.value.text else boardId;
    if name != "" then Strip(name) else boardId
  }

  /** The pin count, 0 without an element; `_parse_pin_count` may raise. */
  function PinCount(elem: Option<Element>, parsePinCount: string -> Option<int>): Result<int, string> {
    match elem
    case None => Ok(0)
    case Some(e) =>
      match parsePinCount(e.text)
      case Some(n) => Ok(n)
      case None => Err("ValueError")
  }

  /** `img.get_attribute('src') if img else None` */
  function ImageSrc(img: Option<Element>): Option<string> {
    match img
    case None => None
    case Some(e) => e.Get("src")
  }

  /** `_extract_board_from_element` */
  function BoardOf(card: BoardCard, username: string, parsePinCount: string -> Option<int>): Result<Option<PinterestBoard>, string> {
    if card.raises then Err("browser")
    else match FirstPresent(card.links)
      case None => Ok(None)
      case Some(link) =>
        var href := link.Get("href");
        if !IsBoardHref(href, username) then Ok(None)
        else
          var url := Absolute(href.value);
          var boardId := LastSegmentOf(url);
          var name := BoardName(FirstPresent(card.names), boardId);
          var pinCount :- PinCount(card.pinCount, parsePinCount);
          Ok(Some(PinterestBoard(boardId, name, None, url, pinCount, 0, ImageSrc(card.img), username)))
  }

  /** A card that raises nothing is dropped exactly when it has no link or
      its href is not a board link. */
  lemma BoardDropped(card: BoardCard, username: string, parsePinCount: string -> Option<int>)
    requires !card.raises
    ensures BoardOf(card, username, parsePinCount) == Ok(None) <==>
      FirstPresent(card.links).None? || !IsBoardHref(FirstPresent(card.links).value.Get("href"), username)
  {
  }

  /** A kept board is the user's, its URL is absolute and still names the
      user and neither tab, its id is the URL's last segment, its name
      falls back to the id, and its pin count to 0. A name of blanks
      strips to "". */
  lemma BoardProperties(card: BoardCard, username: string, parsePinCount: string -> Option<int>)
    ensures var r := BoardOf(card, username, parsePinCount);
      r.Ok? && r.value.Some? ==> r.value.value.ownerUsername == username && r.value.value.followerCount == 0
    ensures var r := BoardOf(card, username, parsePinCount);
      r.Ok? && r.value.Some? ==> StartsWith(r.value.value.url, "http") && Contains(r.value.value.url, username)
    ensures var r := BoardOf(card, username, parsePinCount);
      r.Ok? && r.value.Some? ==> !Contains(r.value.value.url, "_saved") && !Contains(r.value.value.url, "_created")
    ensures var r := BoardOf(card, username, parsePinCount);
      r.Ok? && r.value.Some? ==> r.value.value.id == LastSegmentOf(r.value.value.url)
    ensures var r := BoardOf(card, username, parsePinCount);
      r.Ok? && r.value.Some? && FirstPresent(card.names).None? ==> r.value.value.name == Strip(r.value.value.id)
    ensures var r := BoardOf(card, username, parsePinCount); var n := FirstPresent(card.names);
      r.Ok? && r.value.Some? && n.Some? ==> r.value.value.name == if n.value.text == "" then r.value.value.id else Strip(n.value.text)
    ensures var r := BoardOf(card, username, parsePinCount);
      r.Ok? && r.value.Some? && card.pinCount.None? ==> r.value.value.pinCount == 0
  {
    var r := BoardOf(card, username, parsePinCount);
    if r.Ok? && r.value.Some? {
      var href := FirstPresent(card.links).value.Get("href").value;
      AbsoluteKeeps(href, username);
      AbsoluteAddsNo(href, "_saved");
      AbsoluteAddsNo(href, "_created");
    }
  }

  /** The outcome of every card, in order. */
  function BoardOutcomes(cards: seq<BoardCard>, username: string, parsePinCount: string -> Option<int>): (r: seq<Result<Option<PinterestBoard>, string>>)
    ensures |r| == |cards|
    ensures forall i :: 0 <= i < |cards| ==> r[i] == BoardOf(cards[i], username, parsePinCount)
  {
    seq(|cards|, i requires 0 <= i < |cards| => BoardOf(cards[i], username, parsePinCount))
  }

  lemma BoardOutcomesSnoc(cards: seq<BoardCard>, i: nat, username: string, parsePinCount: string -> Option<int>)
    requires i < |cards|
    ensures BoardOutcomes(cards[..i + 1], username, parsePinCount)
         == BoardOutcomes(cards[..i], username, parsePinCount) + [BoardOf(cards[i], username, parsePinCount)]
  {
  }

  /** `extract_boards`: the cards found first, or those found after
      scrolling when fewer than 5 were found, and the boards kept from
      them. */
  function Boards(first: seq<BoardCard>, rescanned: seq<BoardCard>, username: string,
                  parsePinCount: string -> Option<int>): seq<PinterestBoard> {
    var cards := if |first| < 5 then rescanned else first;
    Kept(BoardOutcomes(cards, username, parsePinCount))
  }

  /** Every board returned is a kept board of one of the cards scanned. */
  lemma BoardsProperties(first: seq<BoardCard>, rescanned: seq<BoardCard>, username: string,
                         parsePinCount: string -> Option<int>)
    ensures |first| >= 5 ==> |Boards(first, rescanned, username, parsePinCount)| <= |first|
    ensures |first| < 5 ==> |Boards(first, rescanned, username, parsePinCount)| <= |rescanned|
    ensures forall b :: b in Boards(first, rescanned, username, parsePinCount) ==>
      b.ownerUsername == username && Contains(b.url, username)
      && !Contains(b.url, "_saved") && !Contains(b.url, "_created")
  {
    var cards := if |first| < 5 then rescanned else first;
    var outcomes := BoardOutcomes(cards, username, parsePinCount);
    forall b: PinterestBoard | b in Kept(outcomes)
      ensures b.ownerUsername == username && Contains(b.url, username)
      ensures !Contains(b.url, "_saved") && !Contains(b.url, "_created")
    {
      var i :| 0 <= i < |outcomes| && outcomes[i] == Ok(Some(b));
      BoardProperties(cards[i], username, parsePinCount);
    }
  }

  /** `extract_boards`, card by card. */
  method ExtractBoards(first: seq<BoardCard>, rescanned: seq<BoardCard>, username: string,
                       parsePinCount: string -> Option<int>) returns (boards: seq<PinterestBoard>)
    ensures boards == Boards(first, rescanned, username, parsePinCount)
  {
    var boardElements := first;
    if |boardElements| < 5 {
      boardElements := rescanned;
    }
    boards := [];
    var i := 0;
    while i < |boardElements|
      invariant 0 <= i <= |boardElements|
      invariant boards == Kept(BoardOutcomes(boardElements[..i], username, parsePinCount))
    {
      var outcome := BoardOf(boardElements[i], username, parsePinCount);
      BoardOutcomesSnoc(boardElements, i, username, parsePinCount);
      KeptSnoc(BoardOutcomes(boardElements[..i], username, parsePinCount), outcome);
      if outcome.Ok? && outcome.value.Some? {
        boards := boards + [outcome.value.value];
      }
      i := i + 1;
    }
    assert boardElements[..i] == boardElements;
  }

  // ----- pins -----

  /** What the selectors of one pin card matched. */
  datatype PinCard = PinCard(link: Option<Element>, img: Option<Element>, title: Option<Element>, raises: bool)

  /** `title.strip() if title else None` */
  function PinTitle(elem: Option<Element>): Option<string> {
    if elem.Some? && elem.value.text != "" then Some(Strip(elem.value.text)) else None
  }

  /** `_extract_pin_from_element`: a card without a link is dropped; a link
      without an href makes `re.search` raise. */
  function PinOf(card: PinCard, username: string, boardName: string): Result<Option<PinterestPin>, string> {
    if card.raises then Err("browser")
    else match card.link
      case None => Ok(None)
      case Some(link) =>
        match link.Get("href")
        case None => Err("TypeError")
        case Some(href) =>
          var url := Absolute(href);
          var src := ImageSrc(card.img);
          var imageUrl := if Truthy(src) then src.value else "";
          Ok(Some(PinterestPin(PinId(url).GetOr(Unknown), PinTitle(card.title), None, url, imageUrl,
                               None, None, None, Some(boardName), 0, 0, 0, None, username)))
  }

  /** A kept pin belongs to the board's owner and board, its id is the
      digit run after `/pin/` in its URL or "unknown", and its image URL is
      "" exactly when the card has no image source. */
  lemma PinProperties(card: PinCard, username: string, boardName: string)
    ensures !card.raises && card.link.None? ==> PinOf(card, username, boardName) == Ok(None)
    ensures var r := PinOf(card, username, boardName);
      r.Ok? && r.value.Some? ==> r.value.value.ownerUsername == username && r.value.value.boardName == Some(boardName)
    ensures var r := PinOf(card, username, boardName);
      r.Ok? && r.value.Some? ==> r.value.value.id == PinId(r.value.value.url).GetOr(Unknown)
    ensures var r := PinOf(card, username, boardName);
      r.Ok? && r.value.Some? ==> (r.value.value.imageUrl == "" <==> !Truthy(ImageSrc(card.img)))
  {
  }

  function PinOutcomes(cards: seq<PinCard>, username: string, boardName: string): (r: seq<Result<Option<PinterestPin>, string>>)
    ensures |r| == |cards|
    ensures forall i :: 0 <= i < |cards| ==> r[i] == PinOf(cards[i], username, boardName)
  {
    seq(|cards|, i requires 0 <= i < |cards| => PinOf(cards[i], username, boardName))
  }

  lemma PinOutcomesSnoc(cards: seq<PinCard>, i: nat, username: string, boardName: string)
    requires i < |cards|
    ensures PinOutcomes(cards[..i + 1], username, boardName)
         == PinOutcomes(cards[..i], username, boardName) + [PinOf(cards[i], username, boardName)]
  {
  }

  /** One more card adds its pin, if it yields one, to the pins kept. */
  lemma KeptPinsSnoc(cards: seq<PinCard>, i: nat, username: string, boardName: string)
    requires i < |cards|
    ensures var o := PinOf(cards[i], username, boardName);
      Kept(PinOutcomes(cards[..i + 1], username, boardName))
        == Kept(PinOutcomes(cards[..i], username, boardName)) + (if o.Ok? && o.value.Some? then [o.value.value] else [])
  {
    PinOutcomesSnoc(cards, i, username, boardName);
    KeptSnoc(PinOutcomes(cards[..i], username, boardName), PinOf(cards[i], username, boardName));
  }

  /** `extract_pins_from_board`: the pins kept from the first `maxPins`
      cards, filed under the owner and name read from the board URL. */
  function BoardPins(boardUrl: string, cards: seq<PinCard>, maxPins: int): seq<PinterestPin> {
    Kept(PinOutcomes(PyTake(cards, maxPins), BoardOwner(boardUrl), LastSegmentOf(boardUrl)))
  }

  /** At most `maxPins` pins, all filed under the board URL's owner and
      board name. */
  lemma BoardPinsProperties(boardUrl: string, cards: seq<PinCard>, maxPins: int)
    ensures |BoardPins(boardUrl, cards, maxPins)| <= |cards|
    ensures 0 <= maxPins ==> |BoardPins(boardUrl, cards, maxPins)| <= maxPins
    ensures forall p :: p in BoardPins(boardUrl, cards, maxPins) ==>
      p.ownerUsername == BoardOwner(boardUrl) && p.boardName == Some(LastSegmentOf(boardUrl))
  {
    var taken := PyTake(cards, maxPins);
    var outcomes := PinOutcomes(taken, BoardOwner(boardUrl), LastSegmentOf(boardUrl));
    forall p: PinterestPin | p in Kept(outcomes)
      ensures p.ownerUsername == BoardOwner(boardUrl) && p.boardName == Some(LastSegmentOf(boardUrl))
    {
      var i :| 0 <= i < |outcomes| && outcomes[i] == Ok(Some(p));
      PinProperties(taken[i], BoardOwner(boardUrl), LastSegmentOf(boardUrl));
    }
  }

  /** `extract_pins_from_board`, card by card. */
  method ExtractPinsFromBoard(boardUrl: string, cards: seq<PinCard>, maxPins: int) returns (pins: seq<PinterestPin>)
    ensures pins == BoardPins(boardUrl, cards, maxPins)
  {
    var username := BoardOwner(boardUrl);
    var boardName := LastSegmentOf(boardUrl);
    var taken := PyTake(cards, maxPins);
    pins := [];
    var i := 0;
    while i < |taken|
      invariant 0 <= i <= |taken|
      invariant pins == Kept(PinOutcomes(taken[..i], username, boardName))
    {
      var outcome := PinOf(taken[i], username, boardName);
      KeptPinsSnoc(taken, i, username, boardName);
      if outcome.Ok? && outcome.value.Some? {
        pins := pins + [outcome.value.value];
      }
      i := i + 1;
    }
    assert taken[..i] == taken;
  }
}
