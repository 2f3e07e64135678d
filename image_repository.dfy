/** `ImageRepository`: project images in the `images` collection. Images
    are only ever inserted, never keyed. */
module ImageRepository {
  import opened Wrappers
  import opened Documents
  import opened Collection
  import opened MongoStore
  import opened ImageModel

  function ProjectFilter(projectId: int): Document {
    map["project_id" := Int(projectId)]
  }

  /** The documents `save_many` hands to `insert_many`, one per image, in
      input order. */
  function MongoDicts(images: seq<Image>): (r: Docs)
    ensures |r| == |images|
    ensures forall i :: 0 <= i < |images| ==> r[i] == MongoDict(images[i])
  {
    seq(|images|, i requires 0 <= i < |images| => MongoDict(images[i]))
  }

  /** `[Image(**doc) for doc in docs]` */
  function ParseAll(ds: Docs): (r: Result<seq<Image>, string>)
    ensures r.Ok? <==> forall i :: 0 <= i < |ds| ==> ParseImage(ds[i]).Ok?
    ensures r.Ok? ==> |r.value| == |ds| && forall i :: 0 <= i < |ds| ==> ParseImage(ds[i]) == Ok(r.value[i])
  {
    ParseEach(ds, ParseImage)
  }

  /** `find_by_project`: the stored images of one project, in stored order. */
  function FindByProjectIn(docs: Docs, projectId: int): (r: Result<seq<Image>, string>)
    ensures r.Ok? ==> |r.value| == CountMatches(docs, ProjectFilter(projectId))
    ensures r.Ok? ==> forall i :: 0 <= i < |r.value| ==> r.value[i].projectId == projectId
  {
    var found := Find(docs, ProjectFilter(projectId));
    FindExactly(docs, ProjectFilter(projectId));
    var r := ParseAll(found);
    if r.Ok? then
      assert forall i :: 0 <= i < |found| ==> found[i] in found && Matches(found[i], ProjectFilter(projectId));
      r
    else r
  }

  /** Saved images are found again under their project, after what was
      there before. */
  lemma SaveManyThenFind(docs: Docs, images: seq<Image>, projectId: int)
    requires forall i :: 0 <= i < |images| ==> images[i].projectId == projectId
    ensures Find(InsertMany(docs, MongoDicts(images)), ProjectFilter(projectId))
         == Find(docs, ProjectFilter(projectId)) + MongoDicts(images)
  {
    var ds := MongoDicts(images);
    forall i | 0 <= i < |ds| ensures Matches(ds[i], ProjectFilter(projectId)) {
      assert ds[i]["project_id"] == ModelDump(images[i])["project_id"];
    }
    FindInsertMany(docs, ds, ProjectFilter(projectId));
  }

  /** `save_many` is not idempotent: a second call with the same images
      adds every document again. */
  lemma SaveManyTwiceDuplicates(docs: Docs, images: seq<Image>, k: nat)
    requires k < |images|
    ensures var once := InsertMany(docs, MongoDicts(images));
      CountMatches(InsertMany(once, MongoDicts(images)), MongoDict(images[k]))
        >= CountMatches(once, MongoDict(images[k])) + 1
  {
    InsertManyAgain(InsertMany(docs, MongoDicts(images)), MongoDicts(images), k);
  }

  class ImageRepository {
    const client: Client
    const store: Store
    var collection: Option<CollectionRef>

    ghost predicate Valid()
      reads this
    {
      collection.None? || collection.value == SelectCollection(client, "images")
    }

    ghost function Target(): CollectionRef {
      SelectCollection(client, "images")
    }

    constructor (client: Client, store: Store)
      ensures this.client == client && this.store == store
      ensures collection.None? && Valid()
    {
      this.client := client;
      this.store := store;
      collection := None;
    }

    /** `_get_collection`: chosen on first use, then reused. */
    method GetCollection() returns (c: CollectionRef)
      requires Valid()
      modifies this
      ensures Valid()
      ensures collection == Some(c) && c == Target()
      ensures old(collection).Some? ==> c == old(collection).value
    {
      if collection.None? {
        if client.Motor? {
          collection := Some(CollectionRef(TestDatabase, "images"));
        } else {
          collection := Some(client.GetCollection("images"));
        }
      }
      c := collection.value;
    }

    /** `save`: appends exactly one document. */
    method Save(image: Image) returns (saved: Image)
      requires Valid()
      modifies this, store
      ensures Valid() && collection == Some(Target())
      ensures saved == image
      ensures store.data == old(store.data)[Target() := InsertOne(old(store.Get(Target())), MongoDict(image))]
    {
      var c := GetCollection();
      store.Put(c, InsertOne(store.Get(c), MongoDict(image)));
      saved := image;
    }

    method FindByProject(projectId: int) returns (r: Result<seq<Image>, string>)
      requires Valid()
      modifies this
      ensures Valid() && collection == Some(Target())
      ensures r == FindByProjectIn(store.Get(Target()), projectId)
    {
      var c := GetCollection();
      r := FindByProjectIn(store.Get(c), projectId);
    }

    /** `save_many`: builds one document per image in a loop, then appends
        them all in input order. `insert_many` refuses an empty list, and
        the caller is the one to rule that out. */
    method SaveMany(images: seq<Image>)
      requires |images| > 0
      requires Valid()
      modifies this, store
      ensures Valid() && collection == Some(Target())
      ensures store.data == old(store.data)[Target() := InsertMany(old(store.Get(Target())), MongoDicts(images))]
    {
      var c := GetCollection();
      var imageDicts: Docs := [];
      var i := 0;
      while i < |images|
        invariant 0 <= i <= |images|
        invariant imageDicts == MongoDicts(images[..i])
      {
        imageDicts := imageDicts + [MongoDict(images[i])];
        i := i + 1;
      }
      assert images[..i] == images;
      store.Put(c, InsertMany(store.Get(c), imageDicts));
    }
  }
}
