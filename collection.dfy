/** One MongoDB collection held in memory as the sequence of its documents,
    in insertion order, with the semantics of the driver calls the
    repositories make: `insert_one`, `insert_many`, `find_one`, `find`,
    `update_one` with `$set` (with and without `upsert=True`),
    `delete_one` and `count_documents({})`. */
module Collection {
  import opened Wrappers
  import opened Documents

  type Docs = seq<Document>

  /** A document satisfies an equality filter when it holds every key of
      the filter with the same value. */
  predicate Matches(d: Document, filter: Document) {
    forall k :: k in filter ==> k in d && d[k] == filter[k]
  }

  /** The `$set` body agrees with the filter on the keys they share, as in
      `update_one({"id": p.id}, {"$set": p_dict})` where `p_dict["id"] == p.id`. */
  predicate Agrees(filter: Document, fields: Document) {
    forall k :: k in filter && k in fields ==> fields[k] == filter[k]
  }

  /** A document holding a key with a value matches, and agrees with, the
      filter on that key alone. */
  lemma SingleKeyMatch(d: Document, k: string, v: Value)
    requires k in d && d[k] == v
    ensures Matches(d, map[k := v]) && Agrees(map[k := v], d)
  {
  }

  /** Index of the first document matching the filter (the one `find_one`,
      `update_one` and `delete_one` act on). */
  function FirstMatch(docs: Docs, filter: Document): (r: Option<nat>)
    ensures r.Some? ==> r.value < |docs| && Matches(docs[r.value], filter)
    ensures r.Some? ==> forall j :: 0 <= j < r.value ==> !Matches(docs[j], filter)
    ensures r.None? ==> forall j :: 0 <= j < |docs| ==> !Matches(docs[j], filter)
  {
    if docs == [] then None
    else if Matches(docs[0], filter) then Some(0)
    else match FirstMatch(docs[1..], filter)
      case None => None
      case Some(i) => Some(i + 1)
  }

  /** Validating every document in turn: the first that does not
      validate makes the whole list fail. */
  function ParseEach<T>(ds: Docs, parse: Document -> Result<T, string>): (r: Result<seq<T>, string>)
    ensures r.Ok? <==> forall i :: 0 <= i < |ds| ==> parse(ds[i]).Ok?
    ensures r.Ok? ==> |r.value| == |ds| && forall i :: 0 <= i < |ds| ==> parse(ds[i]) == Ok(r.value[i])
  {
    if ds == [] then Ok([])
    else
      var x :- parse(ds[0]);
      var rest :- ParseEach(ds[1..], parse);
      assert forall i :: 1 <= i < |ds| ==> ds[i] == ds[1..][i - 1];
      Ok([x] + rest)
  }

  function CountMatches(docs: Docs, filter: Document): nat {
    if docs == [] then 0
    else CountMatches(docs[..|docs| - 1], filter) + (if Matches(docs[|docs| - 1], filter) then 1 else 0)
  }

  /** `insert_one` */
  function InsertOne(docs: Docs, d: Document): Docs {
    docs + [d]
  }

  /** `insert_many` */
  function InsertMany(docs: Docs, ds: Docs): Docs {
    docs + ds
  }

  /** `find_one(filter)` */
  function FindOne(docs: Docs, filter: Document): (r: Option<Document>)
    ensures r.Some? ==> r.value in docs && Matches(r.value, filter)
    ensures r.None? <==> forall j :: 0 <= j < |docs| ==> !Matches(docs[j], filter)
  {
    match FirstMatch(docs, filter)
    case None => None
    case Some(i) => Some(docs[i])
  }

  /** `find(filter).to_list(None)`: the matching documents in stored order. */
  function Find(docs: Docs, filter: Document): Docs {
    if docs == [] then []
    else Find(docs[..|docs| - 1], filter) + (if Matches(docs[|docs| - 1], filter) then [docs[|docs| - 1]] else [])
  }

  /** `update_one(filter, {"$set": fields})`: the first matching document gets
      the `fields`; nothing happens when none matches. */
  function UpdateOne(docs: Docs, filter: Document, fields: Document): Docs {
    match FirstMatch(docs, filter)
    case None => docs
    case Some(i) => docs[i := docs[i] + fields]
  }

  /** `update_one(filter, {"$set": fields}, upsert=True)`: as UpdateOne, except
      that when nothing matches a new document made of the filter's
      equality fields and the `$set` fields is inserted. */
  function UpsertOne(docs: Docs, filter: Document, fields: Document): Docs {
    match FirstMatch(docs, filter)
    case None => docs + [filter + fields]
    case Some(i) => docs[i := docs[i] + fields]
  }

  /** `delete_one(filter)` */
  function DeleteOne(docs: Docs, filter: Document): Docs {
    match FirstMatch(docs, filter)
    case None => docs
    case Some(i) => docs[..i] + docs[i + 1..]
  }

  // ----- properties -----

  lemma {:induction false} CountMatchesAppend(docs: Docs, more: Docs, filter: Document)
    ensures CountMatches(docs + more, filter) == CountMatches(docs, filter) + CountMatches(more, filter)
    decreases |more|
  {
    if more == [] {
      assert docs + more == docs;
    } else {
      var last := more[|more| - 1];
      assert (docs + more)[..|docs + more| - 1] == docs + more[..|more| - 1];
      CountMatchesAppend(docs, more[..|more| - 1], filter);
    }
  }

  lemma {:induction false} CountMatchesZero(docs: Docs, filter: Document)
    requires forall j :: 0 <= j < |docs| ==> !Matches(docs[j], filter)
    ensures CountMatches(docs, filter) == 0
  {
    if docs != [] {
      CountMatchesZero(docs[..|docs| - 1], filter);
    }
  }

  lemma CountMatchesSplit(docs: Docs, i: nat, filter: Document)
    requires i < |docs|
    ensures CountMatches(docs, filter)
         == CountMatches(docs[..i], filter) + CountMatches([docs[i]], filter) + CountMatches(docs[i + 1..], filter)
  {
    assert docs == docs[..i] + [docs[i]] + docs[i + 1..];
    CountMatchesAppend(docs[..i] + [docs[i]], docs[i + 1..], filter);
    CountMatchesAppend(docs[..i], [docs[i]], filter);
  }

  lemma CountOne(d: Document, filter: Document)
    ensures CountMatches([d], filter) == if Matches(d, filter) then 1 else 0
  {
    assert [d][..0] == [];
  }

  /** A `$set` that agrees with the filter keeps a matching document matching. */
  lemma SetKeepsMatch(d: Document, filter: Document, fields: Document)
    requires Matches(d, filter) && Agrees(filter, fields)
    ensures Matches(d + fields, filter)
  {
  }

  /** Upsert never duplicates: afterwards there is at least one matching
      document, and exactly as many as before when there was one already. */
  lemma UpsertCount(docs: Docs, filter: Document, fields: Document)
    requires Agrees(filter, fields)
    ensures CountMatches(UpsertOne(docs, filter, fields), filter)
         == if CountMatches(docs, filter) == 0 then 1 else CountMatches(docs, filter)
  {
    match FirstMatch(docs, filter)
    case None =>
      CountMatchesZero(docs, filter);
      CountMatchesAppend(docs, [filter + fields], filter);
      CountOne(filter + fields, filter);
    case Some(i) =>
      var r := UpsertOne(docs, filter, fields);
      CountMatchesSplit(docs, i, filter);
      CountMatchesSplit(r, i, filter);
      assert r[..i] == docs[..i] && r[i + 1..] == docs[i + 1..];
      CountOne(docs[i], filter);
      CountOne(docs[i] + fields, filter);
  }

  /** Upsert with a key not yet present appends exactly one document, which
      matches the key; with a present key it changes that document in place
      and adds none. */
  lemma UpsertShape(docs: Docs, filter: Document, fields: Document)
    requires Agrees(filter, fields)
    ensures var r := UpsertOne(docs, filter, fields);
      (forall j :: 0 <= j < |docs| ==> !Matches(docs[j], filter))
      ==> |r| == |docs| + 1 && r[..|docs|] == docs && Matches(r[|docs|], filter)
    ensures var r := UpsertOne(docs, filter, fields);
      (exists j :: 0 <= j < |docs| && Matches(docs[j], filter))
      ==> |r| == |docs| && (forall j :: 0 <= j < |docs| && r[j] != docs[j] ==> Matches(docs[j], filter))
  {
  }

  /** Repeating an upsert changes nothing: the stored state converges. */
  lemma UpsertIdempotent(docs: Docs, filter: Document, fields: Document)
    requires Agrees(filter, fields)
    ensures UpsertOne(UpsertOne(docs, filter, fields), filter, fields) == UpsertOne(docs, filter, fields)
  {
    var r := UpsertOne(docs, filter, fields);
    match FirstMatch(docs, filter)
    case None =>
      assert Matches(filter + fields, filter);
      assert forall j :: 0 <= j < |docs| ==> r[j] == docs[j];
      assert FirstMatch(r, filter) == Some(|docs|) by {
        FirstMatchIs(r, filter, |docs|);
      }
      assert (filter + fields) + fields == filter + fields;
    case Some(i) =>
      SetKeepsMatch(docs[i], filter, fields);
      FirstMatchIs(r, filter, i);
      assert (docs[i] + fields) + fields == docs[i] + fields;
  }

  lemma FirstMatchIs(docs: Docs, filter: Document, i: nat)
    requires i < |docs| && Matches(docs[i], filter)
    requires forall j :: 0 <= j < i ==> !Matches(docs[j], filter)
    ensures FirstMatch(docs, filter) == Some(i)
  {
  }

  /** Plain inserts do not converge: inserting the same document twice leaves
      two more documents matching it. */
  lemma InsertTwiceDuplicates(docs: Docs, d: Document, filter: Document)
    requires Matches(d, filter)
    ensures CountMatches(InsertOne(InsertOne(docs, d), d), filter) == CountMatches(docs, filter) + 2
  {
    CountMatchesAppend(docs, [d], filter);
    CountMatchesAppend(docs + [d], [d], filter);
    CountOne(d, filter);
  }

  /** `update_one` without upsert: a no-op when nothing matches; otherwise
      only the first matching document changes, by taking the `$set` fields. */
  lemma UpdateOneEffect(docs: Docs, filter: Document, fields: Document)
    ensures var r := UpdateOne(docs, filter, fields);
      |r| == |docs|
      && ((forall j :: 0 <= j < |docs| ==> !Matches(docs[j], filter)) ==> r == docs)
      && (forall i :: 0 <= i < |docs| && Matches(docs[i], filter)
            && (forall j :: 0 <= j < i ==> !Matches(docs[j], filter))
            ==> r[i] == docs[i] + fields && forall j :: 0 <= j < |docs| && j != i ==> r[j] == docs[j])
  {
    forall i | 0 <= i < |docs| && Matches(docs[i], filter) && (forall j :: 0 <= j < i ==> !Matches(docs[j], filter))
      ensures FirstMatch(docs, filter) == Some(i)
    {
      FirstMatchIs(docs, filter, i);
    }
  }

  /** `delete_one` removes exactly the first matching document and keeps
      all other documents in their order. */
  lemma DeleteOneEffect(docs: Docs, filter: Document)
    ensures var r := DeleteOne(docs, filter);
      (CountMatches(docs, filter) == 0 ==> r == docs)
      && (CountMatches(docs, filter) > 0 ==>
            |r| == |docs| - 1 && CountMatches(r, filter) == CountMatches(docs, filter) - 1)
      && multiset(r) <= multiset(docs)
    ensures forall i :: 0 <= i < |docs| && Matches(docs[i], filter)
              && (forall j :: 0 <= j < i ==> !Matches(docs[j], filter))
              ==> DeleteOne(docs, filter) == docs[..i] + docs[i + 1..]
  {
    DeleteOneCounts(docs, filter);
    forall i | 0 <= i < |docs| && Matches(docs[i], filter) && (forall j :: 0 <= j < i ==> !Matches(docs[j], filter))
      ensures DeleteOne(docs, filter) == docs[..i] + docs[i + 1..]
    {
      FirstMatchIs(docs, filter, i);
    }
  }

  lemma DeleteOneCounts(docs: Docs, filter: Document)
    ensures var r := DeleteOne(docs, filter);
      (CountMatches(docs, filter) == 0 ==> r == docs)
      && (CountMatches(docs, filter) > 0 ==>
            |r| == |docs| - 1 && CountMatches(r, filter) == CountMatches(docs, filter) - 1)
      && multiset(r) <= multiset(docs)
  {
    match FirstMatch(docs, filter)
    case None =>
      CountMatchesZero(docs, filter);
    case Some(i) =>
      CountMatchesSplit(docs, i, filter);
      CountMatchesAppend(docs[..i], docs[i + 1..], filter);
      CountOne(docs[i], filter);
      RemoveAtMultiset(docs, i);
  }

  lemma RemoveAtMultiset<T>(s: seq<T>, i: nat)
    requires i < |s|
    ensures multiset(s[..i] + s[i + 1..]) + multiset{s[i]} == multiset(s)
  {
    assert s == s[..i] + [s[i]] + s[i + 1..];
  }

  /** `find` returns exactly the matching documents, in stored order. */
  lemma {:induction false} FindExactly(docs: Docs, filter: Document)
    ensures forall d :: d in Find(docs, filter) <==> d in docs && Matches(d, filter)
    ensures |Find(docs, filter)| == CountMatches(docs, filter)
  {
    if docs != [] {
      var init := docs[..|docs| - 1];
      FindExactly(init, filter);
      assert docs == init + [docs[|docs| - 1]];
    }
  }

  /** `find` keeps the stored order: its result is the subsequence of
      matching documents, so appending a document extends it at the end. */
  lemma FindAppend(docs: Docs, d: Document, filter: Document)
    ensures Find(docs + [d], filter) == Find(docs, filter) + (if Matches(d, filter) then [d] else [])
  {
    assert (docs + [d])[..|docs + [d]| - 1] == docs;
  }

  /** Inserting documents that all match a filter extends `find` by
      exactly those documents, in order. */
  lemma {:induction false} FindInsertMany(docs: Docs, ds: Docs, filter: Document)
    requires forall i :: 0 <= i < |ds| ==> Matches(ds[i], filter)
    ensures Find(InsertMany(docs, ds), filter) == Find(docs, filter) + ds
    decreases |ds|
  {
    if ds == [] {
      assert docs + ds == docs;
    } else {
      var init, last := ds[..|ds| - 1], ds[|ds| - 1];
      assert init + [last] == ds;
      FindInsertMany(docs, init, filter);
      SnocRegroup(docs, init, last);
      FindAppend(docs + init, last, filter);
      SnocRegroup(Find(docs, filter), init, last);
    }
  }

  lemma SnocRegroup<T>(a: seq<T>, b: seq<T>, x: T)
    ensures a + (b + [x]) == a + b + [x]
  {
  }

  /** Inserting the same batch again adds every one of its documents
      once more. */
  lemma InsertManyAgain(once: Docs, ds: Docs, k: nat)
    requires k < |ds|
    ensures CountMatches(InsertMany(once, ds), ds[k]) >= CountMatches(once, ds[k]) + 1
  {
    CountMatchesAppend(once, ds, ds[k]);
    CountMatchesSplit(ds, k, ds[k]);
    CountOne(ds[k], ds[k]);
  }
}
