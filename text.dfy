/** The Python `str` operations the scraper relies on, over `seq<char>`.
    Character classes are those of Python for characters below U+0100;
    wider Unicode classes are not modelled. */
module Text {
  import opened Wrappers

  predicate StartsWith(s: string, prefix: string) {
    |prefix| <= |s| && s[..|prefix|] == prefix
  }

  predicate EndsWith(s: string, suffix: string) {
    |suffix| <= |s| && s[|s| - |suffix|..] == suffix
  }

  /** `sub in s` */
  predicate Contains(s: string, sub: string)
    decreases |s|
  {
    StartsWith(s, sub) || (|s| > 0 && Contains(s[1..], sub))
  }

  /** `s.find(sub)`, as an option: the first index at which `sub` occurs. */
  function IndexOf(s: string, sub: string): (r: Option<nat>)
    ensures r.Some? ==> r.value + |sub| <= |s| && s[r.value..r.value + |sub|] == sub
    ensures r.Some? <==> Contains(s, sub)
    decreases |s|
  {
    if StartsWith(s, sub) then Some(0)
    else if |s| == 0 then None
    else match IndexOf(s[1..], sub)
      case None => None
      case Some(i) => Some(i + 1)
  }

  lemma {:induction false} ContainsAt(s: string, sub: string, i: nat)
    requires i + |sub| <= |s| && s[i..i + |sub|] == sub
    ensures Contains(s, sub)
    decreases i
  {
    if i == 0 {
      assert s[..|sub|] == sub;
    } else {
      assert s[1..][i - 1..i - 1 + |sub|] == s[i..i + |sub|];
      ContainsAt(s[1..], sub, i - 1);
    }
  }

  lemma {:induction false} ContainsWitness(s: string, sub: string) returns (i: nat)
    requires Contains(s, sub)
    ensures i + |sub| <= |s| && s[i..i + |sub|] == sub
    decreases |s|
  {
    if StartsWith(s, sub) {
      i := 0;
    } else {
      var j := ContainsWitness(s[1..], sub);
      i := j + 1;
      assert s[i..i + |sub|] == s[1..][j..j + |sub|];
    }
  }

  /** Contains is preserved by extending the string on either side. */
  lemma ContainsInConcat(a: string, s: string, b: string, sub: string)
    requires Contains(s, sub)
    ensures Contains(a + s + b, sub)
  {
    var i := ContainsWitness(s, sub);
    assert (a + s + b)[|a| + i..|a| + i + |sub|] == s[i..i + |sub|];
    ContainsAt(a + s + b, sub, |a| + i);
  }

  function LowerChar(c: char): char {
    if 'A' <= c <= 'Z' then (c as int + 32) as char
    else if 'À' <= c <= 'Þ' && c != '×' then (c as int + 32) as char
    else c
  }

  /** `s.lower()` */
  function Lower(s: string): (r: string)
    ensures |r| == |s|
    ensures forall i :: 0 <= i < |s| ==> r[i] == LowerChar(s[i])
  {
    if s == [] then [] else [LowerChar(s[0])] + Lower(s[1..])
  }

  lemma LowerConcat(a: string, b: string)
    ensures Lower(a + b) == Lower(a) + Lower(b)
  {
  }

  /** Strings that lower-casing leaves alone stay so when joined. */
  lemma LowerFixedConcat(a: string, b: string, c: string, d: string)
    requires Lower(a) == a && Lower(b) == b && Lower(c) == c && Lower(d) == d
    ensures Lower(a + b + c + d) == a + b + c + d
  {
    LowerConcat(a + b + c, d);
    LowerConcat(a + b, c);
    LowerConcat(a, b);
  }

  lemma LowerFixed3(a: string, b: string, c: string)
    requires Lower(a) == a && Lower(b) == b && Lower(c) == c
    ensures Lower(a + b + c) == a + b + c
  {
    LowerConcat(a + b, c);
    LowerConcat(a, b);
  }

  /** Lower-casing text that it leaves alone but for one character. */
  lemma LowerAround(a: string, c: char, b: string)
    requires Lower(a) == a && Lower(b) == b
    ensures Lower(a + [c] + b) == a + [LowerChar(c)] + b
  {
    LowerConcat(a + [c], b);
    LowerConcat(a, [c]);
  }

  /** A string that lower-casing leaves character by character. */
  predicate IsLowerCase(s: string) {
    forall i :: 0 <= i < |s| ==> LowerChar(s[i]) == s[i]
  }

  /** Lower-casing changes no character outside the upper-case ranges. */
  lemma LowerOfNonUpper(s: string)
    requires forall i :: 0 <= i < |s| ==> s[i] < 'A' || ('Z' < s[i] < 'À')
    ensures Lower(s) == s
  {
  }

  /** `lower()` leaves a lower-case string as it is. */
  lemma LowerOfLowerCase(s: string)
    requires IsLowerCase(s)
    ensures Lower(s) == s
  {
  }

  predicate IsSpace(c: char) {
    c == ' ' || '\t' <= c <= '\r' || '\U{1c}' <= c <= '\U{1f}' || c == '\U{85}' || c == '\U{a0}'
  }

  predicate IsDigit(c: char) {
    '0' <= c <= '9'
  }

  predicate IsAlpha(c: char) {
    'a' <= c <= 'z' || 'A' <= c <= 'Z' || c == 'ª' || c == 'µ' || c == 'º'
    || ('À' <= c <= 'ÿ' && c != '×' && c != '÷')
  }

  /** `c.isalnum()` */
  predicate IsAlnum(c: char) {
    IsAlpha(c) || IsDigit(c) || c == '²' || c == '³' || c == '¹'
    || c == '¼' || c == '½' || c == '¾'
  }

  /** `s.lstrip()` */
  function LStrip(s: string): (r: string)
    ensures |r| <= |s| && r == s[|s| - |r|..]
    ensures r != [] ==> !IsSpace(r[0])
    ensures forall i :: 0 <= i < |s| - |r| ==> IsSpace(s[i])
  {
    if s != [] && IsSpace(s[0]) then LStrip(s[1..]) else s
  }

  /** `s.rstrip()` */
  function RStrip(s: string): (r: string)
    ensures |r| <= |s| && r == s[..|r|]
    ensures r != [] ==> !IsSpace(r[|r| - 1])
    ensures forall i :: |r| <= i < |s| ==> IsSpace(s[i])
  {
    if s != [] && IsSpace(s[|s| - 1]) then RStrip(s[..|s| - 1]) else s
  }

  /** `s.strip()`: the part of `s` left once the white space around it is
      removed. */
  function Strip(s: string): (r: string)
    ensures r != [] ==> !IsSpace(r[0]) && !IsSpace(r[|r| - 1])
    ensures |r| <= |s|
    ensures exists i, j | 0 <= i <= j <= |s| ::
              && r == s[i..j]
              && (forall k | 0 <= k < i :: IsSpace(s[k]))
              && (forall k | j <= k < |s| :: IsSpace(s[k]))
  {
    var l := LStrip(s);
    var r := RStrip(l);
    var i := |s| - |l|;
    assert r == s[i..i + |r|];
    r
  }

  /** Every character `strip()` keeps comes from its argument, so a
      property of all of the argument's characters holds of the result. */
  lemma StripKeeps(s: string, keep: char -> bool)
    requires forall i :: 0 <= i < |s| ==> keep(s[i])
    ensures forall i :: 0 <= i < |RStrip(LStrip(s))| ==> keep(RStrip(LStrip(s))[i])
  {
    var left := LStrip(s);
    var r := RStrip(left);
    forall i | 0 <= i < |r|
      ensures keep(r[i])
    {
      var j := |s| - |left| + i;
      assert r[i] == left[i];
      assert left[i] == s[j];
    }
  }

  /** `strip()` leaves a string with no surrounding whitespace as it is. */
  lemma StripOfTrimmed(s: string)
    requires s != [] && !IsSpace(s[0]) && !IsSpace(s[|s| - 1])
    ensures Strip(s) == s
  {
  }

  /** The first index at which `p` holds, if any. */
  function FindFirst(s: string, p: char -> bool): (r: Option<nat>)
    ensures r.Some? ==> r.value < |s| && p(s[r.value])
    ensures r.Some? ==> forall k :: 0 <= k < r.value ==> !p(s[k])
    ensures r.None? ==> forall k :: 0 <= k < |s| ==> !p(s[k])
  {
    if s == [] then None
    else if p(s[0]) then Some(0)
    else match FindFirst(s[1..], p)
      case None => None
      case Some(i) => Some(i + 1)
  }

  /** `s.find(c)`, as an option. */
  function FindChar(s: string, c: char): (r: Option<nat>)
    ensures r.Some? <==> c in s
    ensures r.Some? ==> r.value < |s| && s[r.value] == c && c !in s[..r.value]
  {
    FindFirst(s, x => x == c)
  }

  /** `s.rstrip(c)` for a single character `c` */
  function RStripChar(s: string, c: char): (r: string)
    ensures |r| <= |s| && r == s[..|r|]
    ensures r != [] ==> r[|r| - 1] != c
  {
    if s != [] && s[|s| - 1] == c then RStripChar(s[..|s| - 1], c) else s
  }

  /** `s.split(c)[0]`: everything before the first `c` */
  function BeforeFirst(s: string, c: char): (r: string)
    ensures |r| <= |s| && r == s[..|r|]
    ensures c !in r
    ensures |r| < |s| ==> s[|r|] == c
  {
    if s == [] then []
    else if s[0] == c then []
    else [s[0]] + BeforeFirst(s[1..], c)
  }

  /** `s.split(c)[-1]`: everything after the last `c` */
  function AfterLast(s: string, c: char): (r: string)
    ensures |r| <= |s| && r == s[|s| - |r|..]
    ensures c !in r
    ensures |r| < |s| ==> s[|s| - |r| - 1] == c
  {
    if s == [] then []
    else if s[|s| - 1] == c then []
    else AfterLast(s[..|s| - 1], c) + [s[|s| - 1]]
  }

  /** `s.replace(c, '')` for a single character `c` */
  function RemoveChar(s: string, c: char): (r: string)
    ensures c !in r
    ensures |r| <= |s|
  {
    if s == [] then []
    else if s[0] == c then RemoveChar(s[1..], c)
    else [s[0]] + RemoveChar(s[1..], c)
  }

  predicate AllDigits(s: string) {
    forall i :: 0 <= i < |s| ==> IsDigit(s[i])
  }

  /** The value of a string of decimal digits (`int(s)` for such a string). */
  function DigitsValue(s: string): nat
    requires AllDigits(s)
  {
    if s == [] then 0 else DigitsValue(s[..|s| - 1]) * 10 + (s[|s| - 1] as int - '0' as int)
  }

  /** `int(s)` on a string that can only hold digits: `int('')` raises. */
  function ParseInt(s: string): (r: Option<nat>)
    requires AllDigits(s)
    ensures r.Some? <==> s != []
  {
    if s == [] then None else Some(DigitsValue(s))
  }

  /** The longest prefix of `s` made of characters satisfying `p`. */
  function TakeWhile(s: string, p: char -> bool): (r: string)
    ensures |r| <= |s| && r == s[..|r|]
    ensures forall i :: 0 <= i < |r| ==> p(r[i])
    ensures |r| < |s| ==> !p(s[|r|])
  {
    if s != [] && p(s[0]) then [s[0]] + TakeWhile(s[1..], p) else []
  }

  /** A run of `p` characters followed by one that is not is what a
      greedy `p+` takes. */
  lemma {:induction false} TakeWhileRun(run: string, rest: string, p: char -> bool)
    requires forall k :: 0 <= k < |run| ==> p(run[k])
    requires rest != [] && !p(rest[0])
    ensures TakeWhile(run + rest, p) == run
  {
    if run != [] {
      assert (run + rest)[1..] == run[1..] + rest;
      TakeWhileRun(run[1..], rest, p);
    } else {
      assert run + rest == rest;
    }
  }

  /** The run taken at index `i` of `s` satisfies `p` at each of its
      positions in `s`. */
  lemma TakeWhileAt(s: string, i: nat, p: char -> bool)
    requires i <= |s|
    ensures i + |TakeWhile(s[i..], p)| <= |s|
    ensures forall k :: i <= k < i + |TakeWhile(s[i..], p)| ==> p(s[k])
  {
    var run := TakeWhile(s[i..], p);
    forall k | i <= k < i + |run|
      ensures p(s[k])
    {
      assert s[k] == run[k - i];
    }
  }

  /** The greedy run stops at the first character outside the class. */
  lemma {:induction false} TakeWhileStops(s: string, p: char -> bool, k: nat)
    requires k < |s| && !p(s[k])
    ensures |TakeWhile(s, p)| <= k
  {
    if k > 0 && p(s[0]) {
      assert s[1..][k - 1] == s[k];
      TakeWhileStops(s[1..], p, k - 1);
    }
  }

  /** A string whose first character differs from the prefix's does not
      start with it. */
  lemma NotStartsWith(s: string, prefix: string)
    requires s != [] && prefix != [] && s[0] != prefix[0]
    ensures !StartsWith(s, prefix)
  {
    if |prefix| <= |s| {
      assert s[..|prefix|][0] == s[0];
    }
  }

  /** `re.findall(r'\d+', s)[0]` when there is one: the first maximal run of digits. */
  function FirstDigitRun(s: string): (r: Option<string>)
    ensures r.Some? ==> r.value != [] && AllDigits(r.value)
    ensures r.None? <==> forall i :: 0 <= i < |s| ==> !IsDigit(s[i])
  {
    if s == [] then None
    else if IsDigit(s[0]) then Some(TakeWhile(s, IsDigit))
    else FirstDigitRun(s[1..])
  }

  /** `"".join(c for c in s if keep(c))` */
  function Filter(s: string, keep: char -> bool): (r: string)
    ensures |r| <= |s|
    ensures forall i :: 0 <= i < |r| ==> keep(r[i])
    ensures forall c :: c in r ==> c in s
  {
    if s == [] then []
    else if keep(s[0]) then [s[0]] + Filter(s[1..], keep)
    else Filter(s[1..], keep)
  }

  lemma {:induction false} FilterOfKept(s: string, keep: char -> bool)
    requires forall i :: 0 <= i < |s| ==> keep(s[i])
    ensures Filter(s, keep) == s
  {
    if s != [] {
      FilterOfKept(s[1..], keep);
    }
  }

  /** `str(n)` for a natural number */
  function NatToString(n: nat): (r: string)
    ensures r != [] && AllDigits(r)
  {
    var d := [((n % 10) + 48) as char];
    if n < 10 then d else NatToString(n / 10) + d
  }

  /** `int(str(n)) == n` */
  lemma {:induction false} DigitsValueOfNatToString(n: nat)
    ensures DigitsValue(NatToString(n)) == n
  {
    var s := NatToString(n);
    if n >= 10 {
      DigitsValueOfNatToString(n / 10);
      assert s[..|s| - 1] == NatToString(n / 10);
    }
  }

  /** `str(i)` for any integer */
  function IntToString(i: int): (r: string)
    ensures r != [] && IsDigit(r[|r| - 1])
  {
    if i < 0 then "-" + NatToString(-i) else NatToString(i)
  }

  /** `int(s)` on a string: surrounding whitespace, then an optional sign and
      at least one decimal digit; anything else raises. Underscores between
      digits ("1_920"), which Python accepts, and non-ASCII digits are
      refused here. */
  function PyInt(s: string): (r: Option<int>)
    ensures s != [] && AllDigits(s) ==> r == Some(DigitsValue(s))
  {
    var t := Strip(s);
    if t != [] && (t[0] == '+' || t[0] == '-') then
      var d := t[1..];
      if d != [] && AllDigits(d) then
        var n: int := DigitsValue(d);
        Some(if t[0] == '-' then -n else n)
      else None
    else if t != [] && AllDigits(t) then Some(DigitsValue(t))
    else None
  }
  /** `s.replace(c, rep)` for a single character `c` */
  function ReplaceChar(s: string, c: char, rep: string): (r: string)
    ensures c !in rep ==> c !in r
  {
    if s == [] then []
    else (if s[0] == c then rep else [s[0]]) + ReplaceChar(s[1..], c, rep)
  }

  /** `s[:n]` for a slice end that may be negative. */
  function PyTake<T>(s: seq<T>, n: int): (r: seq<T>)
    ensures 0 <= n ==> |r| == if n < |s| then n else |s|
    ensures n < 0 ==> |r| == if -n < |s| then |s| + n else 0
    ensures r == s[..|r|]
  {
    if n >= 0 then (if n < |s| then s[..n] else s)
    else if -n < |s| then s[..|s| + n] else []
  }

  /** `sub in a + b` only through `b` when `a` holds no character that can
      start `sub`. */
  lemma ContainsConcatSplit(a: string, b: string, sub: string)
    requires sub != [] && sub[0] !in a
    requires Contains(a + b, sub)
    ensures Contains(b, sub)
  {
    var i := ContainsWitness(a + b, sub);
    assert (a + b)[i] == sub[0];
    assert forall k :: 0 <= k < |a| ==> (a + b)[k] == a[k];
    assert i >= |a|;
    assert b[i - |a|..i - |a| + |sub|] == (a + b)[i..i + |sub|];
    ContainsAt(b, sub, i - |a|);
  }

  /** `int(str(i)) == i` */
  lemma IntToStringRoundTrip(i: int)
    ensures PyInt(IntToString(i)) == Some(i)
  {
    if i < 0 {
      var d := NatToString(-i);
      assert IntToString(i) == "-" + d;
      DigitsValueOfNatToString(-i);
      PyIntNegative(d, i);
    } else {
      var d := NatToString(i);
      assert IntToString(i) == d;
      DigitsValueOfNatToString(i);
      assert PyInt(d) == Some(DigitsValue(d));
    }
  }

  /** `int('-' + d)` for a run of digits `d`. */
  lemma PyIntNegative(d: string, i: int)
    requires d != [] && AllDigits(d) && DigitsValue(d) == -i
    ensures PyInt("-" + d) == Some(i)
  {
    var t := "-" + d;
    assert IsDigit(t[|t| - 1]);
    StripOfTrimmed(t);
    assert t[1..] == d;
  }

  /** Regrouping three pieces, proved apart from any larger context. */
  lemma Regroup(a: string, b: string, c: string)
    ensures a + (b + c) == a + b + c
  {
  }

  /** Regrouping a concatenation, proved apart from any larger context. */
  lemma ConcatAssoc(a: string, b: string, c: string, d: string)
    ensures a + b + c + d == a + (b + c + d)
  {
  }

  lemma PrefixOfConcat(a: string, b: string)
    ensures (a + b)[0..|a|] == a
  {
  }
}
