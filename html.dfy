/** What the extractors see of a parsed page: the elements a CSS selector
    matched, in document order, each with its attributes and its text.
    Selector matching itself happens outside the model. */
module Html {
  import opened Wrappers
  import opened Text

  datatype Element = Element(attrs: map<string, string>, text: string)
  {
    /** `elem.get(name)` */
    function Get(name: string): Option<string> {
      if name in attrs then Some(attrs[name]) else None
    }
  }

  /** Python truthiness of an optional string: present and non-empty. */
  predicate Truthy(o: Option<string>) {
    o.Some? && o.value != ""
  }

  /** Python's `a or b` on optional strings. */
  function Or(a: Option<string>, b: Option<string>): (r: Option<string>)
    ensures Truthy(r) <==> Truthy(a) || Truthy(b)
    ensures Truthy(a) ==> r == a
  {
    if Truthy(a) then a else b
  }

  /** The elements of several selectors, selector by selector, each in
      document order. */
  function Flatten(selections: seq<seq<Element>>): seq<Element> {
    if selections == [] then []
    else Flatten(selections[..|selections| - 1]) + selections[|selections| - 1]
  }

  lemma FlattenSnoc(selections: seq<seq<Element>>, s: nat)
    requires s < |selections|
    ensures Flatten(selections[..s + 1]) == Flatten(selections[..s]) + selections[s]
  {
    assert selections[..s + 1][..s] == selections[..s];
  }

  // ----- selector fallback chains -----

  /** `elem and elem.text.strip()` */
  predicate NonBlank(found: Option<Element>) {
    found.Some? && Strip(found.value.text) != ""
  }

  /** The stripped text of the first selector whose element has non-blank
      text, given what each selector matched in selector order. */
  function FirstNonBlankText(found: seq<Option<Element>>): (r: Option<string>)
    ensures r.None? <==> forall i :: 0 <= i < |found| ==> !NonBlank(found[i])
    ensures r.Some? ==> r.value != "" && !IsSpace(r.value[0])
  {
    if found == [] then None
    else if NonBlank(found[0]) then Some(Strip(found[0].value.text))
    else
      var r := FirstNonBlankText(found[1..]);
      assert forall i :: 1 <= i < |found| ==> found[i] == found[1..][i - 1];
      r
  }

  /** Selectors whose elements are blank are passed over. */
  lemma {:induction false} FirstNonBlankSkips(found: seq<Option<Element>>, i: nat)
    requires i <= |found|
    requires forall j :: 0 <= j < i ==> !NonBlank(found[j])
    ensures FirstNonBlankText(found) == FirstNonBlankText(found[i..])
  {
    if i > 0 {
      assert forall j :: 0 <= j < i - 1 ==> found[1..][j] == found[j + 1];
      FirstNonBlankSkips(found[1..], i - 1);
      assert found[1..][i - 1..] == found[i..];
    }
  }

  /** The chain yields the stripped text of the first selector that has
      text, whatever the later selectors match. */
  lemma FirstNonBlankIsFirst(found: seq<Option<Element>>, i: nat)
    requires i < |found| && NonBlank(found[i])
    requires forall j :: 0 <= j < i ==> !NonBlank(found[j])
    ensures FirstNonBlankText(found) == Some(Strip(found[i].value.text))
  {
    FirstNonBlankSkips(found, i);
  }

  /** The `for selector ...: elem = ...; if elem and elem.text.strip(): ...;
      break` loop. */
  method FindNonBlank(found: seq<Option<Element>>) returns (r: Option<string>)
    ensures r == FirstNonBlankText(found)
  {
    var i := 0;
    while i < |found|
      invariant 0 <= i <= |found|
      invariant FirstNonBlankText(found) == FirstNonBlankText(found[i..])
    {
      var elem := found[i];
      if elem.Some? && Strip(elem.value.text) != "" {
        return Some(Strip(elem.value.text));
      }
      assert found[i..][1..] == found[i + 1..];
      i := i + 1;
    }
    return None;
  }

  /** The element of the first selector that matched anything, as the
      `if not elem: elem = query(...)` chains pick it. */
  function FirstPresent(found: seq<Option<Element>>): (r: Option<Element>)
    ensures r.None? <==> forall i :: 0 <= i < |found| ==> found[i].None?
    ensures r.Some? ==> r in found
  {
    if found == [] then None
    else if found[0].Some? then found[0]
    else
      var r := FirstPresent(found[1..]);
      assert forall i :: 1 <= i < |found| ==> found[i] == found[1..][i - 1];
      r
  }

  /** The chain yields the element of the first selector that matched,
      whatever the later selectors match. */
  lemma {:induction false} FirstPresentIsFirst(found: seq<Option<Element>>, i: nat)
    requires i < |found| && found[i].Some?
    requires forall j :: 0 <= j < i ==> found[j].None?
    ensures FirstPresent(found) == found[i]
  {
    if i > 0 {
      assert forall j :: 0 <= j < i - 1 ==> found[1..][j] == found[j + 1];
      FirstPresentIsFirst(found[1..], i - 1);
    }
  }
}
