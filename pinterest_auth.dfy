/** `PinterestAuth`: the decisions of the Pinterest authenticator. What the
    browser shows at each step (whether a selector yields an element, the
    URL, the number of pages, whether a call raises) is given as input; the
    outcome records which path the login took. */
module PinterestAuth {
  import opened Wrappers
  import opened Text
  import opened PinterestExtractor

  // ----- selector loops -----

  /** The first selector that yielded an element, if any. */
  function FirstFound(found: seq<bool>): (r: Option<nat>)
    ensures r.Some? ==> r.value < |found| && found[r.value]
    ensures r.Some? ==> forall j :: 0 <= j < r.value ==> !found[j]
    ensures r.None? <==> forall j :: 0 <= j < |found| ==> !found[j]
  {
    if found == [] then None
    else if found[0] then Some(0)
    else match FirstFound(found[1..])
      case None => None
      case Some(i) =>
        assert forall j :: 1 <= j < i + 1 ==> found[j] == found[1..][j - 1];
        Some(i + 1)
  }

  /** The `for selector in selectors: try: ...; break except: continue`
      loops: the first selector that yields (and, for the Next and Sign-in
      buttons, clicks) an element. */
  method TrySelectors(found: seq<bool>) returns (r: Option<nat>)
    ensures r == FirstFound(found)
  {
    r := None;
    var i := 0;
    while i < |found|
      invariant 0 <= i <= |found|
      invariant forall j :: 0 <= j < i ==> !found[j]
    {
      if found[i] {
        r := Some(i);
        break;
      }
      i := i + 1;
    }
  }

  /** What one logged-in indicator probe saw. */
  datatype Probe = Present | Absent | ProbeRaised

  /** The indicator loop: an indicator is found when one is present before
      any probe raises; a raise ends the loop. */
  function IndicatorFound(probes: seq<Probe>): bool {
    if probes == [] then false
    else if probes[0] == Present then true
    else if probes[0] == ProbeRaised then false
    else IndicatorFound(probes[1..])
  }

  /** Some indicator is present, and every probe before it saw nothing. */
  lemma {:induction false} IndicatorFoundIff(probes: seq<Probe>)
    ensures IndicatorFound(probes) <==> exists i :: 0 <= i < |probes| && probes[i] == Present
                                              && forall j :: 0 <= j < i ==> probes[j] == Absent
  {
    if probes != [] && probes[0] == Absent {
      var rest := probes[1..];
      IndicatorFoundIff(rest);
      if IndicatorFound(rest) {
        var i :| 0 <= i < |rest| && rest[i] == Present && forall j :: 0 <= j < i ==> rest[j] == Absent;
        assert probes[i + 1] == Present;
        assert forall j :: 1 <= j < i + 1 ==> probes[j] == rest[j - 1];
      } else {
        forall i | 0 <= i < |probes| && probes[i] == Present
          ensures !forall j :: 0 <= j < i ==> probes[j] == Absent
        {
          assert rest[i - 1] == Present;
          var k :| 0 <= k < i - 1 && rest[k] != Absent;
          assert probes[k + 1] != Absent;
        }
      }
    }
  }

  method ProbeIndicators(probes: seq<Probe>) returns (found: bool)
    ensures found == IndicatorFound(probes)
  {
    var i := 0;
    while i < |probes|
      invariant 0 <= i <= |probes|
      invariant forall j :: 0 <= j < i ==> probes[j] == Absent
      invariant IndicatorFound(probes) == IndicatorFound(probes[i..])
    {
      if probes[i] == Present {
        return true;
      }
      if probes[i] == ProbeRaised {
        return false;
      }
      assert probes[i..][1..] == probes[i + 1..];
      i := i + 1;
    }
    return false;
  }

  // ----- Google login -----

  const GoogleAccounts := "accounts.google.com"

  /** What the browser shows along the Google login. `raises` stands for
      any unguarded call (navigation, a click, Enter, closing the popup)
      raising. */
  datatype GooglePage = GooglePage(
    buttons: seq<bool>,
    urlAfterClick: string,
    pageCount: nat,
    emailField: bool,
    nextButtons: seq<bool>,
    passwordField: bool,
    signInButtons: seq<bool>,
    finalUrl: string,
    indicators: seq<Probe>,
    raises: bool)

  /** How a credential step was submitted. */
  datatype Submit = Clicked(selector: nat) | PressedEnter

  /** Which path `login_with_google` took. */
  datatype GoogleOutcome =
    | Raised
    | NoGoogleButton
    | NoGoogleSurface(button: nat)
    | NoEmailField(button: nat, popup: bool)
    | NoPasswordField(button: nat, popup: bool, next: Submit)
    | Finished(button: nat, popup: bool, next: Submit, signIn: Submit, loggedIn: bool)

  predicate LoggedIn(o: GoogleOutcome) {
    o.Finished? && o.loggedIn
  }

  function SubmitBy(found: seq<bool>): Submit {
    match FirstFound(found)
    case Some(i) => Clicked(i)
    case None => PressedEnter
  }

  /** The verdict on the Pinterest page after the login, checked in the
      source's order. */
  function GoogleVerdict(url: string, indicators: seq<Probe>): bool {
    if Contains(url, SiteName) && !Contains(Lower(url), "login") then true
    else if IndicatorFound(indicators) then true
    else Contains(url, SiteName)
  }

  /** The first check is subsumed by the last: the verdict is the URL
      naming Pinterest or a logged-in indicator. */
  lemma GoogleVerdictIff(url: string, indicators: seq<Probe>)
    ensures GoogleVerdict(url, indicators) <==> Contains(url, SiteName) || IndicatorFound(indicators)
  {
  }

  /** `login_with_google` */
  function GoogleLogin(page: GooglePage): GoogleOutcome {
    if page.raises then Raised
    else match FirstFound(page.buttons)
      case None => NoGoogleButton
      case Some(button) =>
        if !Contains(page.urlAfterClick, GoogleAccounts) && page.pageCount <= 1 then NoGoogleSurface(button)
        else
          var popup := !Contains(page.urlAfterClick, GoogleAccounts);
          if !page.emailField then NoEmailField(button, popup)
          else if !page.passwordField then NoPasswordField(button, popup, SubmitBy(page.nextButtons))
          else Finished(button, popup, SubmitBy(page.nextButtons), SubmitBy(page.signInButtons),
                        GoogleVerdict(page.finalUrl, page.indicators))
  }

  /** The Google login succeeds exactly when a Google button was found, the
      click led to the Google page or a popup, both credential fields were
      there, and the final page is on Pinterest or shows a logged-in
      indicator. Without a button nothing is clicked; without a Next or
      Sign-in button Enter is pressed. */
  lemma GoogleLoginProperties(page: GooglePage)
    ensures LoggedIn(GoogleLogin(page)) <==>
      && !page.raises
      && FirstFound(page.buttons).Some?
      && (Contains(page.urlAfterClick, GoogleAccounts) || page.pageCount > 1)
      && page.emailField && page.passwordField
      && (Contains(page.finalUrl, SiteName) || IndicatorFound(page.indicators))
    ensures !page.raises ==> (GoogleLogin(page) == NoGoogleButton <==> forall j :: 0 <= j < |page.buttons| ==> !page.buttons[j])
    ensures GoogleLogin(page).Finished? ==>
      (GoogleLogin(page).next == PressedEnter <==> forall j :: 0 <= j < |page.nextButtons| ==> !page.nextButtons[j])
    ensures GoogleLogin(page).Finished? ==>
      (GoogleLogin(page).signIn == PressedEnter <==> forall j :: 0 <= j < |page.signInButtons| ==> !page.signInButtons[j])
    ensures GoogleLogin(page).Finished? ==> (GoogleLogin(page).popup <==> !Contains(page.urlAfterClick, GoogleAccounts))
  {
    GoogleVerdictIff(page.finalUrl, page.indicators);
  }

  /** `login_with_google`, step by step. */
  method LoginWithGoogle(page: GooglePage) returns (r: GoogleOutcome)
    ensures r == GoogleLogin(page)
  {
    if page.raises {
      return Raised;
    }
    var button := TrySelectors(page.buttons);
    if button.None? {
      return NoGoogleButton;
    }
    var popup := false;
    if !Contains(page.urlAfterClick, GoogleAccounts) {
      if page.pageCount > 1 {
        popup := true;
      } else {
        return NoGoogleSurface(button.value);
      }
    }
    if !page.emailField {
      return NoEmailField(button.value, popup);
    }
    var next := TrySelectors(page.nextButtons);
    var nextBy := if next.Some? then Clicked(next.value) else PressedEnter;
    if !page.passwordField {
      return NoPasswordField(button.value, popup, nextBy);
    }
    var signIn := TrySelectors(page.signInButtons);
    var signInBy := if signIn.Some? then Clicked(signIn.value) else PressedEnter;
    var loggedIn := false;
    if Contains(page.finalUrl, SiteName) && !Contains(Lower(page.finalUrl), "login") {
      loggedIn := true;
    } else {
      var found := ProbeIndicators(page.indicators);
      if found {
        loggedIn := true;
      } else if Contains(page.finalUrl, SiteName) {
        loggedIn := true;
      }
    }
    r := Finished(button.value, popup, nextBy, signInBy, loggedIn);
  }

  // ----- direct login -----

  /** What the browser shows along the direct login; a missing field or
      button makes `wait_for_selector` raise. */
  datatype LoginPage = LoginPage(emailField: bool, passwordField: bool, submitButton: bool, finalUrl: string, raises: bool)

  /** `login`: the login succeeds when the form was submitted and the page
      left the login URL. */
  function DirectLogin(page: LoginPage): bool {
    if page.raises || !page.emailField || !page.passwordField || !page.submitButton then false
    else !Contains(Lower(page.finalUrl), "login")
  }

  const LoginUrl := PinterestHost + "/login/"

  /** Every URL on the Pinterest host names the site. */
  lemma HostNamesSite(path: string, indicators: seq<Probe>)
    ensures GoogleVerdict(PinterestHost + path, indicators)
  {
    ContainsAt(SiteName, SiteName, 0);
    ContainsInConcat(WwwPrefix, SiteName, path, SiteName);
    GoogleVerdictIff(PinterestHost + path, indicators);
  }

  lemma HostIsLower()
    ensures Lower(PinterestHost) == PinterestHost
  {
    PrefixIsLower();
    SiteIsLower();
    LowerConcat(WwwPrefix, SiteName);
  }

  lemma PrefixIsLower()
    ensures Lower(WwwPrefix) == WwwPrefix
  {
    LowerOfNonUpper(WwwPrefix);
  }

  lemma SiteIsLower()
    ensures Lower(SiteName) == SiteName
  {
    LowerOfNonUpper(SiteName);
  }

  /** A lower-case host followed by the login path still reads "login"
      once lower-cased. */
  lemma LoginPathNamesLogin(host: string)
    requires Lower(host) == host
    ensures Contains(Lower(host + "/login/"), "login")
  {
    LoginPathFacts();
    LowerPathWord(host, "/login/", "login");
  }

  lemma LoginPathFacts()
    ensures Lower("/login/") == "/login/"
    ensures "/login/" == "/" + "login" + "/"
  {
    LowerOfNonUpper("/login/");
  }

  lemma LowerPathWord(host: string, path: string, word: string)
    requires Lower(host) == host && Lower(path) == path
    requires path == "/" + word + "/"
    ensures Contains(Lower(host + path), word)
  {
    LowerConcat(host, path);
    WordBetweenSlashes(host, path, word);
  }

  /** A word between two slashes after any prefix is found in the result. */
  lemma WordBetweenSlashes(prefix: string, path: string, word: string)
    requires path == "/" + word + "/"
    ensures Contains(prefix + path, word)
  {
    ContainsAt(word, word, 0);
    ContainsInConcat(prefix + "/", word, "/", word);
    assert prefix + "/" + word + "/" == prefix + path;
  }

  /** Still on the login page, the Google verdict reports success (the URL
      names Pinterest) where the direct verdict reports failure. */
  lemma VerdictsOnLoginPage(indicators: seq<Probe>, page: LoginPage)
    requires page.finalUrl == LoginUrl
    ensures GoogleVerdict(LoginUrl, indicators)
    ensures !DirectLogin(page)
  {
    HostNamesSite("/login/", indicators);
    HostIsLower();
    LoginPathNamesLogin(PinterestHost);
  }

  // ----- cookies -----

  datatype Cookie = Cookie(name: string, value: string, domain: string, path: string)

  /** The cookie file as `json.load` reads it. */
  datatype CookieFile = Missing | Malformed | Saved(cookies: seq<Cookie>)

  /** `login_with_cookies`: the cookies of an existing, readable file are
      added to the context's jar; nothing checks that they log in. The jar
      is a list the cookies are appended to: a loaded cookie with the name,
      domain and path of one already in the jar does not replace it here,
      so the round trip below is stated for a fresh context only. */
  function LoginWithCookies(file: CookieFile, jar: seq<Cookie>, addRaises: bool): (r: (bool, seq<Cookie>))
    ensures !r.0 ==> r.1 == jar
    ensures r.0 <==> file.Saved? && !addRaises
  {
    if file.Saved? && !addRaises then (true, jar + file.cookies) else (false, jar)
  }

  /** `save_cookies`: the jar written as the file, or `False` when writing
      raises. */
  function SaveCookies(jar: seq<Cookie>, writeRaises: bool): (r: (bool, Option<CookieFile>))
    ensures r.0 <==> !writeRaises
  {
    if writeRaises then (false, None) else (true, Some(Saved(jar)))
  }

  /** Cookies saved from a session restore that session in a fresh context. */
  lemma CookiesRoundTrip(jar: seq<Cookie>)
    ensures SaveCookies(jar, false).1.Some?
    ensures LoginWithCookies(SaveCookies(jar, false).1.value, [], false) == (true, jar)
  {
    assert [] + jar == jar;
  }
}
