/** The MongoDB server the repositories talk to, and the two kinds of
    client they may be handed: the project's own wrapper, which names its
    database, or a raw Motor client. */
module MongoStore {
  import opened Collection

  /** The database a raw Motor client is assumed to use. */
  const TestDatabase: string := "test_behance_crawler"

  datatype Client =
    /** the `MongoClient` wrapper; it has a `database_name` attribute */
    | Wrapper(databaseName: string)
    /** an `AsyncIOMotorClient` */
    | Motor
  {
    /** The wrapper's `get_collection(name)`. */
    function GetCollection(name: string): CollectionRef
      requires Wrapper?
    {
      CollectionRef(databaseName, name)
    }
  }

  datatype CollectionRef = CollectionRef(database: string, name: string)

  /** The collection a repository settles on for a client. */
  function SelectCollection(client: Client, name: string): (c: CollectionRef)
    ensures c.name == name
    ensures c.database == (if client.Motor? then TestDatabase else client.databaseName)
  {
    match client
    case Motor => CollectionRef(TestDatabase, name)
    case Wrapper(db) => CollectionRef(db, name)
  }

  /** The documents of one collection; a collection never written to is
      empty. */
  function DocsAt(data: map<CollectionRef, Docs>, c: CollectionRef): Docs {
    if c in data then data[c] else []
  }

  /** Every collection of every database, each in insertion order. */
  class Store {
    var data: map<CollectionRef, Docs>

    constructor ()
      ensures data == map[]
    {
      data := map[];
    }

    function Get(c: CollectionRef): Docs
      reads this
    {
      DocsAt(data, c)
    }

    method Put(c: CollectionRef, docs: Docs)
      modifies this
      ensures data == old(data)[c := docs]
      ensures Get(c) == docs
    {
      data := data[c := docs];
    }
  }
}
