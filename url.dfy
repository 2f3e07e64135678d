/** The parts of Python's `urllib.parse.urlparse` and `pathlib` that the
    image pipeline relies on to find a file extension: the path component
    of a URL and the suffix of its last path segment. */
module UrlParse {
  import opened Wrappers
  import opened Text

  predicate IsAsciiAlpha(c: char) {
    'a' <= c <= 'z' || 'A' <= c <= 'Z'
  }

  /** `urllib.parse.scheme_chars` */
  predicate IsSchemeChar(c: char) {
    IsAsciiAlpha(c) || '0' <= c <= '9' || c == '+' || c == '-' || c == '.'
  }

  /** `urllib.parse.uses_params`: the schemes whose last path segment may
      carry `;params`. */
  const ParamSchemes: seq<string> := ["", "ftp", "hdl", "prospero", "http", "imap", "https", "shttp",
               "rtsp", "rtsps", "rtspu", "sip", "sips", "mms", "sftp", "tel"]
  predicate UsesParams(scheme: string) {
    scheme in ParamSchemes
  }

  predicate IsQueryOrFragmentMark(c: char) {
    c == '?' || c == '#'
  }

  predicate IsNetlocEnd(c: char) {
    c == '/' || c == '?' || c == '#'
  }

  predicate IsC0OrSpace(c: char) {
    c <= ' '
  }

  predicate IsUnsafe(c: char) {
    c == '\t' || c == '\r' || c == '\n'
  }

  predicate IsSafe(c: char) {
    !IsUnsafe(c)
  }

  /** Leading C0 controls and spaces are stripped, then tabs and line
      breaks removed everywhere. */
  function Sanitize(url: string): string {
    Filter(DropWhile(url, IsC0OrSpace), IsSafe)
  }

  function DropWhile(s: string, p: char -> bool): (r: string)
    ensures |r| <= |s| && r == s[|s| - |r|..]
    ensures r != [] ==> !p(r[0])
  {
    if s != [] && p(s[0]) then DropWhile(s[1..], p) else s
  }

  /** The scheme, lower-cased, and what follows its colon; no scheme when
      the text before the first colon is not a valid one. */
  function SplitScheme(s: string): (string, string) {
    match FindChar(s, ':')
    case None => ("", s)
    case Some(i) =>
      if i > 0 && IsAsciiAlpha(s[0]) && forall k :: 0 <= k < i ==> IsSchemeChar(s[k])
      then (Lower(s[..i]), s[i + 1..])
      else ("", s)
  }

  /** `_splitnetloc(s, 2)`: the authority after `//` runs to the first `/`,
      `?` or `#`. */
  function SplitNetloc(s: string): (r: (string, string))
    requires |s| >= 2
    ensures r.0 + r.1 == s[2..]
  {
    match FindFirst(s[2..], IsNetlocEnd)
    case None => (s[2..], "")
    case Some(j) => (s[2..][..j], s[2..][j..])
  }

  /** A netloc with a `[` but no `]`, or the reverse, is refused. */
  predicate BracketsBalanced(netloc: string) {
    ('[' in netloc) == (']' in netloc)
  }

  /** `_splitparams`: the path cut at the first `;` of its last segment;
      without a `/`, at its first `;`. */
  function DropParams(path: string): (r: string)
    ensures |r| <= |path| && r == path[..|r|]
  {
    if '/' in path then
      var last := AfterLast(path, '/');
      match FindChar(last, ';')
      case None => path
      case Some(j) => path[..|path| - |last| + j]
    else
      match FindChar(path, ';')
      case Some(i) => path[..i]
      case None => path
  }

  /** The authority, when the text starts with `//`, and what follows it. */
  function SplitAuthority(rest: string): (r: (string, string))
    ensures |r.1| <= |rest| && r.1 == rest[|rest| - |r.1|..]
  {
    if |rest| >= 2 && rest[..2] == "//" then SplitNetloc(rest) else ("", rest)
  }

  /** The path: up to the fragment and the query, without `;params` for
      the schemes that use them. */
  function PathPart(scheme: string, rest: string): string {
    var path := BeforeFirst(BeforeFirst(rest, '#'), '?');
    if UsesParams(scheme) && ';' in path then DropParams(path) else path
  }

  /** `urlparse(url).path`, or an error for an unbalanced bracket in the
      authority, which `urlparse` raises as `ValueError`. */
  function UrlPath(url: string): Result<string, string> {
    var (scheme, rest) := SplitScheme(Sanitize(url));
    var (netloc, rest') := SplitAuthority(rest);
    if !BracketsBalanced(netloc) then Err("Invalid IPv6 URL")
    else Ok(PathPart(scheme, rest'))
  }

  /** `PurePosixPath(p).name`: the last segment that is neither empty nor
      `.`, or the empty string. */
  function PathName(p: string): (r: string)
    ensures '/' !in r
    decreases |p|
  {
    var c := AfterLast(p, '/');
    if c != "" && c != "." then c
    else if |c| == |p| then ""
    else PathName(p[..|p| - |c| - 1])
  }

  /** `PurePath.suffix`: from the last dot of the name, unless that dot
      starts or ends the name. */
  function Suffix(name: string): (r: string)
    ensures r == [] || (r[0] == '.' && |r| >= 2 && '.' !in r[1..])
    ensures r != [] ==> |r| < |name| && name[|name| - |r|..] == r
  {
    var after := AfterLast(name, '.');
    if |after| == |name| then ""
    else
      var i := |name| - |after| - 1;
      if 0 < i < |name| - 1 then
        assert name[i..] == ['.'] + after;
        name[i..]
      else ""
  }

  // ----- the query and fragment never reach the path -----

  predicate NoMarks(s: string) {
    forall k :: 0 <= k < |s| ==> !IsQueryOrFragmentMark(s[k])
  }

  lemma {:induction false} DropWhileConcat(a: string, b: string, p: char -> bool)
    requires b != [] && !p(b[0])
    ensures DropWhile(a + b, p) == DropWhile(a, p) + b
  {
    if a != [] {
      assert (a + b)[0] == a[0] && (a + b)[1..] == a[1..] + b;
      if p(a[0]) {
        DropWhileConcat(a[1..], b, p);
      }
    } else {
      assert a + b == b;
    }
  }

  lemma {:induction false} FilterConcat(a: string, b: string, keep: char -> bool)
    ensures Filter(a + b, keep) == Filter(a, keep) + Filter(b, keep)
  {
    if a != [] {
      assert (a + b)[0] == a[0] && (a + b)[1..] == a[1..] + b;
      FilterConcat(a[1..], b, keep);
    } else {
      assert a + b == b;
    }
  }

  lemma {:induction false} FindFirstConcat(a: string, b: string, p: char -> bool)
    ensures FindFirst(a, p).Some? ==> FindFirst(a + b, p) == FindFirst(a, p)
    ensures FindFirst(a, p).None? && b != [] && p(b[0]) ==> FindFirst(a + b, p) == Some(|a|)
  {
    var r, ra := FindFirst(a + b, p), FindFirst(a, p);
    if ra.Some? {
      assert (a + b)[ra.value] == a[ra.value];
      assert r.Some? && r.value <= ra.value;
      assert r.value < |a| ==> (a + b)[r.value] == a[r.value];
    } else if b != [] && p(b[0]) {
      assert (a + b)[|a|] == b[0];
      assert forall k :: 0 <= k < |a| ==> (a + b)[k] == a[k];
      assert r.Some? && r.value <= |a|;
    }
  }

  lemma {:induction false} BeforeFirstConcat(a: string, b: string, c: char)
    requires c !in a
    ensures BeforeFirst(a + b, c) == a + BeforeFirst(b, c)
  {
    if a != [] {
      assert (a + b)[0] == a[0] && (a + b)[1..] == a[1..] + b;
      BeforeFirstConcat(a[1..], b, c);
    } else {
      assert a + b == b;
    }
  }

  lemma SanitizeQuery(base: string, q: string)
    ensures Sanitize(base + "?" + q) == Sanitize(base) + "?" + Filter(q, IsSafe)
  {
    var mq := "?" + q;
    assert base + "?" + q == base + mq;
    DropWhileConcat(base, mq, IsC0OrSpace);
    var d := DropWhile(base, IsC0OrSpace);
    FilterConcat(d, mq, IsSafe);
    FilterMark(q);
    calc {
      Sanitize(base + "?" + q);
      Filter(d + mq, IsSafe);
      Filter(d, IsSafe) + ("?" + Filter(q, IsSafe));
      { Regroup(Sanitize(base), "?", Filter(q, IsSafe)); }
      Sanitize(base) + "?" + Filter(q, IsSafe);
    }
  }

  /** The question mark survives sanitising. */
  lemma FilterMark(q: string)
    ensures Filter("?" + q, IsSafe) == "?" + Filter(q, IsSafe)
  {
    assert ("?" + q)[0] == '?' && ("?" + q)[1..] == q;
  }

  lemma SanitizeNoMarks(base: string)
    requires NoMarks(base)
    ensures NoMarks(Sanitize(base))
  {
    var d := DropWhile(base, IsC0OrSpace);
    assert NoMarks(d) by {
      forall k | 0 <= k < |d| ensures !IsQueryOrFragmentMark(d[k]) {
        assert d[k] == base[|base| - |d| + k];
      }
    }
    var f := Filter(d, IsSafe);
    forall k | 0 <= k < |f| ensures !IsQueryOrFragmentMark(f[k]) {
      assert f[k] in f;
    }
  }

  lemma SplitSchemeQuery(b: string, q: string)
    requires NoMarks(b)
    ensures var (s1, r1) := SplitScheme(b);
      SplitScheme(b + "?" + q) == (s1, r1 + "?" + q) && NoMarks(r1)
  {
    var s := b + "?" + q;
    assert s[|b|] == '?';
    assert forall k :: 0 <= k < |b| ==> s[k] == b[k];
    if ':' in b {
      var i := FindChar(b, ':').value;
      assert s[..|b|] == b;
      assert ':' !in s[..i];
      assert FindChar(s, ':') == Some(i);
      assert s[i + 1..] == b[i + 1..] + "?" + q;
      assert s[..i] == b[..i];
    } else {
      match FindChar(s, ':')
      case None =>
      case Some(i) =>
        assert i > |b|;
        assert !IsSchemeChar(s[|b|]);
    }
  }

  lemma SplitNetlocQuery(r: string, q: string)
    requires NoMarks(r) && |r| >= 2
    ensures SplitNetloc(r + "?" + q) == (SplitNetloc(r).0, SplitNetloc(r).1 + "?" + q)
  {
    var s := r + "?" + q;
    assert s[2..] == r[2..] + ("?" + q);
    FindFirstConcat(r[2..], "?" + q, IsNetlocEnd);
    match FindFirst(r[2..], IsNetlocEnd)
    case None => WholeNetlocQuery(r, q);
    case Some(j) => NetlocEndQuery(r, q, j);
  }

  /** Without an end character in `r`, the mark ends the netloc. */
  lemma WholeNetlocQuery(r: string, q: string)
    requires |r| >= 2 && FindFirst(r[2..], IsNetlocEnd).None?
    requires FindFirst((r + "?" + q)[2..], IsNetlocEnd) == Some(|r| - 2)
    ensures SplitNetloc(r + "?" + q) == (SplitNetloc(r).0, SplitNetloc(r).1 + "?" + q)
  {
    var s := r + "?" + q;
    assert s[2..][..|r| - 2] == r[2..];
    assert s[2..][|r| - 2..] == "?" + q;
    assert SplitNetloc(r) == (r[2..], "");
    assert "" + "?" + q == "?" + q;
  }

  /** An end character in `r` ends the netloc before the mark. */
  lemma NetlocEndQuery(r: string, q: string, j: nat)
    requires |r| >= 2 && FindFirst(r[2..], IsNetlocEnd) == Some(j)
    requires FindFirst((r + "?" + q)[2..], IsNetlocEnd) == Some(j)
    ensures SplitNetloc(r + "?" + q) == (SplitNetloc(r).0, SplitNetloc(r).1 + "?" + q)
  {
    var s := r + "?" + q;
    assert s[2..][..j] == r[2..][..j];
    assert s[2..][j..] == r[2..][j..] + "?" + q;
  }

  lemma SplitAuthorityQuery(rest: string, q: string)
    requires NoMarks(rest)
    ensures SplitAuthority(rest + "?" + q) == (SplitAuthority(rest).0, SplitAuthority(rest).1 + "?" + q)
    ensures NoMarks(SplitAuthority(rest).1)
  {
    var r1 := SplitAuthority(rest).1;
    assert forall k :: 0 <= k < |r1| ==> r1[k] == rest[|rest| - |r1| + k];
    if |rest| >= 2 && rest[..2] == "//" {
      NetlocQuery(rest, q);
    } else {
      NoNetlocQuery(rest, q);
    }
  }

  lemma NetlocQuery(rest: string, q: string)
    requires NoMarks(rest) && |rest| >= 2 && rest[..2] == "//"
    ensures SplitAuthority(rest + "?" + q) == (SplitAuthority(rest).0, SplitAuthority(rest).1 + "?" + q)
  {
    assert (rest + "?" + q)[..2] == rest[..2];
    SplitNetlocQuery(rest, q);
  }

  lemma NoNetlocQuery(rest: string, q: string)
    requires !(|rest| >= 2 && rest[..2] == "//")
    ensures SplitAuthority(rest + "?" + q) == ("", rest + "?" + q)
  {
    var s := rest + "?" + q;
    if |rest| == 1 {
      assert s[1] == '?';
    } else if |rest| == 0 {
      assert s[0] == '?';
    } else {
      assert s[..2] == rest[..2];
    }
  }

  lemma PathPartQuery(scheme: string, r: string, q: string)
    requires NoMarks(r)
    ensures PathPart(scheme, r + "?" + q) == PathPart(scheme, r)
  {
    assert '#' !in r && '?' !in r;
    BeforeFirstConcat(r, "?" + q, '#');
    BeforeFirstConcat(r, "", '#');
    BeforeFirstConcat(r, "?" + BeforeFirst(q, '#'), '?');
    BeforeFirstConcat(r, "", '?');
    assert r + "" == r;
    assert r + "?" + q == r + ("?" + q);
  }

  /** The path `urlparse` finds, and so the file extension, does not
      depend on the query string. */
  lemma UrlPathIgnoresQuery(base: string, q: string)
    requires NoMarks(base)
    ensures UrlPath(base + "?" + q) == UrlPath(base)
  {
    SanitizeQuery(base, q);
    SanitizeNoMarks(base);
    var b := Sanitize(base);
    var q' := Filter(q, IsSafe);
    SplitSchemeQuery(b, q');
    var (scheme, rest) := SplitScheme(b);
    SplitAuthorityQuery(rest, q');
    PathPartQuery(scheme, SplitAuthority(rest).1, q');
  }
}
