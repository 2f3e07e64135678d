/** `UserRepository`: Behance users in the `users` collection. */
module UserRepository {
  import opened Wrappers
  import opened Documents
  import opened Collection
  import opened MongoStore
  import opened UserModel

  function IdFilter(id: int): Document {
    map["id" := Int(id)]
  }

  function UsernameFilter(username: string): Document {
    map["username" := Str(username)]
  }

  /** `find_by_username`: the first stored user with that username,
      validated, or `None` when there is none. */
  function FindByUsernameIn(docs: Docs, username: string): (r: Result<Option<User>, string>)
    ensures r.Ok? && r.value.Some? ==> r.value.value.username == username
    ensures r == Ok(None) <==> forall j :: 0 <= j < |docs| ==> !Matches(docs[j], UsernameFilter(username))
  {
    match FindOne(docs, UsernameFilter(username))
    case None => Ok(None)
    case Some(doc) =>
      assert "username" in doc;
      if |doc| > 0 then
        var u :- ParseUser(doc);
        Ok(Some(u))
      else Ok(None)
  }

  /** `update_stats`: `$set` of the `stats` field alone, on the first
      document with the id; no insert. */
  function UpdateStatsIn(docs: Docs, userId: int, stats: map<string, Value>): Docs {
    UpdateOne(docs, IdFilter(userId), map["stats" := Dict(stats)])
  }

  /** `update_stats` on an id no document has changes nothing; otherwise it
      replaces only the `stats` field of the first document with the id. */
  lemma UpdateStatsEffect(docs: Docs, userId: int, stats: map<string, Value>)
    ensures var r := UpdateStatsIn(docs, userId, stats);
      |r| == |docs|
      && ((forall j :: 0 <= j < |docs| ==> !Matches(docs[j], IdFilter(userId))) ==> r == docs)
      && (forall i :: 0 <= i < |docs| && Matches(docs[i], IdFilter(userId))
            && (forall j :: 0 <= j < i ==> !Matches(docs[j], IdFilter(userId)))
            ==> r[i] == docs[i]["stats" := Dict(stats)]
                && forall j :: 0 <= j < |docs| && j != i ==> r[j] == docs[j])
  {
    var f, s := IdFilter(userId), map["stats" := Dict(stats)];
    UpdateOneEffect(docs, f, s);
    forall i | 0 <= i < |docs| ensures docs[i] + s == docs[i]["stats" := Dict(stats)] {
      MergeOne(docs[i], "stats", Dict(stats));
    }
  }

  /** Once saved, a user is found by its username unless an earlier
      document already carries that username. */
  lemma SaveThenFind(docs: Docs, u: User)
    requires u.Valid()
    requires forall j :: 0 <= j < |docs| ==> !Matches(docs[j], UsernameFilter(u.username))
    ensures FindByUsernameIn(InsertOne(docs, ToMongoDict(u)), u.username) == Ok(Some(u))
  {
    MongoDictRepresents(u);
    SavedFound(docs, ToMongoDict(u), u);
  }

  lemma SavedFound(docs: Docs, d: Document, u: User)
    requires u.Valid() && Represents(d, u)
    requires forall j :: 0 <= j < |docs| ==> !Matches(docs[j], UsernameFilter(u.username))
    ensures FindByUsernameIn(InsertOne(docs, d), u.username) == Ok(Some(u))
  {
    var r := InsertOne(docs, d);
    assert r[|docs|] == d;
    SingleKeyMatch(d, "username", Str(u.username));
    FirstMatchIs(r, UsernameFilter(u.username), |docs|);
    ParseRepresented(d, u);
    FoundAt(r, u.username, |docs|, u);
  }

  /** The first document with the username, when it validates, is what
      `find_by_username` returns. */
  lemma FoundAt(docs: Docs, username: string, i: nat, u: User)
    requires FirstMatch(docs, UsernameFilter(username)) == Some(i) && ParseUser(docs[i]) == Ok(u)
    ensures FindByUsernameIn(docs, username) == Ok(Some(u))
  {
    assert "username" in docs[i];
  }

  class UserRepository {
    const client: Client
    const store: Store
    var collection: Option<CollectionRef>

    ghost predicate Valid()
      reads this
    {
      collection.None? || collection.value == SelectCollection(client, "users")
    }

    ghost function Target(): CollectionRef {
      SelectCollection(client, "users")
    }

    constructor (client: Client, store: Store)
      ensures this.client == client && this.store == store
      ensures collection.None? && Valid()
    {
      this.client := client;
      this.store := store;
      collection := None;
    }

    /** `_get_collection`: chosen on first use, by whether the client has a
        `database_name`, then reused. */
    method GetCollection() returns (c: CollectionRef)
      requires Valid()
      modifies this
      ensures Valid()
      ensures collection == Some(c) && c == Target()
      ensures old(collection).Some? ==> c == old(collection).value
    {
      if collection.None? {
        if client.Wrapper? {
          collection := Some(client.GetCollection("users"));
        } else {
          collection := Some(CollectionRef(TestDatabase, "users"));
        }
      }
      c := collection.value;
    }

    /** `save`: appends exactly one document. */
    method Save(user: User) returns (saved: User)
      requires Valid()
      modifies this, store
      ensures Valid() && collection == Some(Target())
      ensures saved == user
      ensures store.data == old(store.data)[Target() := InsertOne(old(store.Get(Target())), ToMongoDict(user))]
    {
      var c := GetCollection();
      store.Put(c, InsertOne(store.Get(c), ToMongoDict(user)));
      saved := user;
    }

    method FindByUsername(username: string) returns (r: Result<Option<User>, string>)
      requires Valid()
      modifies this
      ensures Valid() && collection == Some(Target())
      ensures r == FindByUsernameIn(store.Get(Target()), username)
    {
      var c := GetCollection();
      r := FindByUsernameIn(store.Get(c), username);
    }

    method UpdateStats(userId: int, stats: map<string, Value>)
      requires Valid()
      modifies this, store
      ensures Valid() && collection == Some(Target())
      ensures store.data == old(store.data)[Target() := UpdateStatsIn(old(store.Get(Target())), userId, stats)]
    {
      var c := GetCollection();
      store.Put(c, UpdateStatsIn(store.Get(c), userId, stats));
    }
  }
}
