/** `ProjectRepository`: Behance projects in the `projects` collection,
    keyed by their Behance `id`. */
module ProjectRepository {
  import opened Wrappers
  import opened Documents
  import opened Collection
  import opened MongoStore
  import opened ProjectModel

  function IdFilter(id: int): Document {
    map["id" := Int(id)]
  }

  function OwnerFilter(ownerId: int): Document {
    map["owner_id" := Int(ownerId)]
  }

  /** `[Project(**doc) for doc in docs]`: the first document that does not
      validate makes the whole call fail. */
  function ParseAll(ds: Docs): (r: Result<seq<Project>, string>)
    ensures r.Ok? <==> forall i :: 0 <= i < |ds| ==> ParseProject(ds[i]).Ok?
    ensures r.Ok? ==> |r.value| == |ds| && forall i :: 0 <= i < |ds| ==> ParseProject(ds[i]) == Ok(r.value[i])
  {
    ParseEach(ds, ParseProject)
  }

  /** `find_by_id`: the first stored document with the id, validated. */
  function FindByIdIn(docs: Docs, id: int): (r: Result<Option<Project>, string>)
    ensures r.Ok? && r.value.Some? ==> r.value.value.id == id
    ensures (forall j :: 0 <= j < |docs| ==> !Matches(docs[j], IdFilter(id))) ==> r == Ok(None)
  {
    match FindOne(docs, IdFilter(id))
    case None => Ok(None)
    case Some(doc) =>
      if |doc| > 0 then
        var p :- ParseProject(doc);
        Ok(Some(p))
      else Ok(None)
  }

  /** `find_by_owner`: the stored documents with the owner id, in stored
      order, validated. */
  function FindByOwnerIn(docs: Docs, ownerId: int): (r: Result<seq<Project>, string>)
    ensures r.Ok? ==> |r.value| == CountMatches(docs, OwnerFilter(ownerId))
    ensures r.Ok? ==> forall i :: 0 <= i < |r.value| ==> r.value[i].ownerId == ownerId
  {
    var found := Find(docs, OwnerFilter(ownerId));
    FindExactly(docs, OwnerFilter(ownerId));
    var r := ParseAll(found);
    if r.Ok? then
      ParsedOwners(found, ownerId, r.value);
      r
    else r
  }

  /** Documents found by owner id parse to projects of that owner. */
  lemma ParsedOwners(found: Docs, ownerId: int, ps: seq<Project>)
    requires forall d :: d in found ==> Matches(d, OwnerFilter(ownerId))
    requires |ps| == |found| && forall i :: 0 <= i < |found| ==> ParseProject(found[i]) == Ok(ps[i])
    ensures forall i :: 0 <= i < |ps| ==> ps[i].ownerId == ownerId
  {
    forall i | 0 <= i < |ps|
      ensures ps[i].ownerId == ownerId
    {
      assert found[i] in found;
      ParsedOwner(found[i], ownerId, ps[i]);
    }
  }

  lemma ParsedOwner(d: Document, ownerId: int, p: Project)
    requires Matches(d, OwnerFilter(ownerId)) && ParseProject(d) == Ok(p)
    ensures p.ownerId == ownerId
  {
    assert d["owner_id"] == Int(ownerId);
  }

  /** The document `to_mongo_dict` writes matches the project's own id. */
  lemma DictMatchesId(p: Project)
    ensures Matches(ToMongoDict(p), IdFilter(p.id))
    ensures Agrees(IdFilter(p.id), ToMongoDict(p))
  {
    MongoDictRepresents(p);
    SingleKeyMatch(ToMongoDict(p), "id", Int(p.id));
  }

  /** `save` always inserts: saving the same project twice leaves two more
      documents with its id. */
  lemma SaveTwiceDuplicates(docs: Docs, p: Project)
    ensures CountMatches(InsertOne(InsertOne(docs, ToMongoDict(p)), ToMongoDict(p)), IdFilter(p.id))
         == CountMatches(docs, IdFilter(p.id)) + 2
  {
    DictMatchesId(p);
    InsertTwiceDuplicates(docs, ToMongoDict(p), IdFilter(p.id));
  }

  /** `upsert` leaves exactly one document with the id when there was
      none, and as many as before otherwise; repeating it changes nothing. */
  lemma UpsertConverges(docs: Docs, p: Project)
    ensures var r := UpsertOne(docs, IdFilter(p.id), ToMongoDict(p));
      CountMatches(r, IdFilter(p.id))
        == (if CountMatches(docs, IdFilter(p.id)) == 0 then 1 else CountMatches(docs, IdFilter(p.id)))
      && UpsertOne(r, IdFilter(p.id), ToMongoDict(p)) == r
  {
    DictMatchesId(p);
    UpsertCount(docs, IdFilter(p.id), ToMongoDict(p));
    UpsertIdempotent(docs, IdFilter(p.id), ToMongoDict(p));
  }

  /** Once upserted, a project is what `find_by_id` returns for its id. */
  lemma UpsertThenFind(docs: Docs, p: Project)
    requires p.Valid()
    ensures FindByIdIn(UpsertOne(docs, IdFilter(p.id), ToMongoDict(p)), p.id) == Ok(Some(p))
  {
    var f, d := IdFilter(p.id), ToMongoDict(p);
    DictMatchesId(p);
    var r := UpsertOne(docs, f, d);
    match FirstMatch(docs, f)
    case None =>
      assert r[|docs|] == f + d;
      FirstMatchIs(r, f, |docs|);
      ParseOverlay(f, p);
      FoundAt(r, p.id, |docs|, p);
    case Some(i) =>
      assert r[i] == docs[i] + d;
      SetKeepsMatch(docs[i], f, d);
      FirstMatchIs(r, f, i);
      ParseOverlay(docs[i], p);
      FoundAt(r, p.id, i, p);
  }

  /** The first document with the id, when it validates, is what
      `find_by_id` returns. */
  lemma FoundAt(docs: Docs, id: int, i: nat, p: Project)
    requires FirstMatch(docs, IdFilter(id)) == Some(i) && ParseProject(docs[i]) == Ok(p)
    ensures FindByIdIn(docs, id) == Ok(Some(p))
  {
    assert "id" in docs[i];
  }

  /** `update` with an id no document has is a no-op. */
  lemma UpdateMissingIsNoop(docs: Docs, p: Project)
    requires CountMatches(docs, IdFilter(p.id)) == 0
    ensures UpdateOne(docs, IdFilter(p.id), ToMongoDict(p)) == docs
  {
    var f := IdFilter(p.id);
    if i :| 0 <= i < |docs| && Matches(docs[i], f) {
      CountMatchesSplit(docs, i, f);
      CountOne(docs[i], f);
    }
  }

  /** After `update` of a project whose id is stored, the first document
      with the id reads back as the given project. */
  lemma UpdateThenFind(docs: Docs, p: Project)
    requires p.Valid()
    requires exists j :: 0 <= j < |docs| && Matches(docs[j], IdFilter(p.id))
    ensures FindByIdIn(UpdateOne(docs, IdFilter(p.id), ToMongoDict(p)), p.id) == Ok(Some(p))
  {
    var f, d := IdFilter(p.id), ToMongoDict(p);
    DictMatchesId(p);
    var i := FirstMatch(docs, f).value;
    var r := UpdateOne(docs, f, d);
    assert r[i] == docs[i] + d;
    SetKeepsMatch(docs[i], f, d);
    FirstMatchIs(r, f, i);
    ParseOverlay(docs[i], p);
    FoundAt(r, p.id, i, p);
  }

  class ProjectRepository {
    const client: Client
    const store: Store
    var collection: Option<CollectionRef>

    /** The collection, once chosen, is the one the client selects. */
    ghost predicate Valid()
      reads this
    {
      collection.None? || collection.value == SelectCollection(client, "projects")
    }

    ghost function Target(): CollectionRef {
      SelectCollection(client, "projects")
    }

    constructor (client: Client, store: Store)
      ensures this.client == client && this.store == store
      ensures collection.None? && Valid()
    {
      this.client := client;
      this.store := store;
      collection := None;
    }

    /** `_get_collection`: chosen on first use, then reused. */
    method GetCollection() returns (c: CollectionRef)
      requires Valid()
      modifies this
      ensures Valid()
      ensures collection == Some(c) && c == Target()
      ensures old(collection).Some? ==> c == old(collection).value
    {
      if collection.None? {
        if client.Motor? {
          collection := Some(CollectionRef(TestDatabase, "projects"));
        } else {
          collection := Some(client.GetCollection("projects"));
        }
      }
      c := collection.value;
    }

    /** `save`: inserts the project's document, whatever is stored. */
    method Save(p: Project) returns (saved: Project)
      requires Valid()
      modifies this, store
      ensures Valid() && collection == Some(Target())
      ensures saved == p
      ensures store.data == old(store.data)[Target() := InsertOne(old(store.Get(Target())), ToMongoDict(p))]
    {
      var c := GetCollection();
      var projectDict := ToMongoDict(p);
      store.Put(c, InsertOne(store.Get(c), projectDict));
      saved := p;
    }

    method FindById(id: int) returns (r: Result<Option<Project>, string>)
      requires Valid()
      modifies this
      ensures Valid() && collection == Some(Target())
      ensures r == FindByIdIn(store.Get(Target()), id)
    {
      var c := GetCollection();
      r := FindByIdIn(store.Get(c), id);
    }

    /** `update`: `$set` of the project's document on the first document
      with its id; no insert. */
    method Update(p: Project)
      requires Valid()
      modifies this, store
      ensures Valid() && collection == Some(Target())
      ensures store.data == old(store.data)[Target() := UpdateOne(old(store.Get(Target())), IdFilter(p.id), ToMongoDict(p))]
    {
      var c := GetCollection();
      store.Put(c, UpdateOne(store.Get(c), IdFilter(p.id), ToMongoDict(p)));
    }

    method Delete(id: int)
      requires Valid()
      modifies this, store
      ensures Valid() && collection == Some(Target())
      ensures store.data == old(store.data)[Target() := DeleteOne(old(store.Get(Target())), IdFilter(id))]
    {
      var c := GetCollection();
      store.Put(c, DeleteOne(store.Get(c), IdFilter(id)));
    }

    method FindByOwner(ownerId: int) returns (r: Result<seq<Project>, string>)
      requires Valid()
      modifies this
      ensures Valid() && collection == Some(Target())
      ensures r == FindByOwnerIn(store.Get(Target()), ownerId)
    {
      var c := GetCollection();
      r := FindByOwnerIn(store.Get(c), ownerId);
    }

    /** `count`: `count_documents({})`, every stored project. */
    method Count() returns (n: nat)
      requires Valid()
      modifies this
      ensures Valid() && collection == Some(Target())
      ensures n == |store.Get(Target())|
    {
      var c := GetCollection();
      n := |store.Get(c)|;
    }

    /** `upsert`: `$set` on the first document with the id, or a new
      document when there is none. */
    method Upsert(p: Project)
      requires Valid()
      modifies this, store
      ensures Valid() && collection == Some(Target())
      ensures store.data == old(store.data)[Target() := UpsertOne(old(store.Get(Target())), IdFilter(p.id), ToMongoDict(p))]
    {
      var c := GetCollection();
      store.Put(c, UpsertOne(store.Get(c), IdFilter(p.id), ToMongoDict(p)));
    }
  }
}
