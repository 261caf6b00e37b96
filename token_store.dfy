/**
 * The two token stores: a volatile single slot and a store backed by the
 * `APIToken` collection of the document database, keyed by provider.
 */
module TokenStore {
  import opened Wrappers

  /** A cached bearer token; `expiresAt` and `fetchedAt` are milliseconds since the epoch. */
  datatype TokenRecord = TokenRecord(token: string, expiresAt: int, fetchedAt: int)

  /**
   * The state of the database connection at the moment of one store call:
   * mongoose's `readyState` (1 means connected) and whether the query itself throws.
   */
  datatype DbEnv = DbEnv(readyState: int, operationFails: bool)

  /** Why a store call failed: the lazy collection set-up, or the query. */
  datatype StoreError = InitializationFailed | OperationFailed

  /** The only provider key the database store uses. */
  const Provider: string := "icd"

  /** The default store: one record or none, in process memory. */
  class InMemoryTokenStore {
    var tokenRecord: Option<TokenRecord>

    constructor ()
      ensures tokenRecord == None
    {
      tokenRecord := None;
    }

    /** Never fails; returns the slot. */
    method Get() returns (r: Option<TokenRecord>)
      ensures r == tokenRecord
    {
      r := tokenRecord;
    }

    /** Overwrites the slot; never fails. */
    method Set(record: TokenRecord)
      modifies this
      ensures tokenRecord == Some(record)
    {
      tokenRecord := Some(record);
    }

    method Clear()
      modifies this
      ensures tokenRecord == None
    {
      tokenRecord := None;
    }
  }

  /**
   * The database store.  `collection` says whether the lazily created model has
   * been set up; `documents` is the collection, one document per provider.
   */
  class MongoTokenStore {
    var collection: bool
    var documents: map<string, TokenRecord>

    /** The store starts without a model, over whatever the collection already holds. */
    constructor (stored: map<string, TokenRecord>)
      ensures !collection && documents == stored
    {
      collection := false;
      documents := stored;
    }

    /** The record a successful `get` returns. */
    function Stored(): Option<TokenRecord>
      reads this
    {
      if Provider in documents then Some(documents[Provider]) else None
    }

    /**
     * Sets the model up on first use; set-up fails unless the connection is ready,
     * and once set up the model is reused whatever the connection state.
     */
    method GetCollection(db: DbEnv) returns (ok: bool)
      modifies this`collection
      ensures collection == (old(collection) || db.readyState == 1)
      ensures ok == collection
    {
      if !collection {
        if db.readyState != 1 {
          return false;
        }
        collection := true;
      }
      return true;
    }

    /** Never fails: a failed set-up or query reads as no record. */
    method Get(db: DbEnv) returns (r: Option<TokenRecord>)
      modifies this`collection
      ensures collection == (old(collection) || db.readyState == 1)
      ensures r == if collection && !db.operationFails then Stored() else None
    {
      var ok := GetCollection(db);
      if !ok || db.operationFails {
        return None;
      }
      r := Stored();
    }

    /** Upserts the provider's document; both kinds of failure reach the caller. */
    method Set(record: TokenRecord, db: DbEnv) returns (r: Result<(), StoreError>)
      modifies this
      ensures collection == (old(collection) || db.readyState == 1)
      ensures !collection ==> r == Failure(InitializationFailed) && documents == old(documents)
      ensures collection && db.operationFails ==> r == Failure(OperationFailed) && documents == old(documents)
      ensures collection && !db.operationFails ==> r == Success(()) && documents == old(documents)[Provider := record]
    {
      var ok := GetCollection(db);
      if !ok {
        return Failure(InitializationFailed);
      }
      if db.operationFails {
        return Failure(OperationFailed);
      }
      documents := documents[Provider := record];
      r := Success(());
    }

    /** Deletes the provider's document; failures are swallowed. */
    method Clear(db: DbEnv)
      modifies this
      ensures collection == (old(collection) || db.readyState == 1)
      ensures documents == if collection && !db.operationFails then old(documents) - {Provider} else old(documents)
    {
      var ok := GetCollection(db);
      if ok && !db.operationFails {
        documents := documents - {Provider};
      }
    }
  }

  /** The volatile store returns what was last set, a later set overwrites it, and clear empties it. */
  method InMemoryRoundTrip(first: TokenRecord, second: TokenRecord)
    returns (afterFirst: Option<TokenRecord>, afterSecond: Option<TokenRecord>, afterClear: Option<TokenRecord>)
    ensures afterFirst == Some(first) && afterSecond == Some(second) && afterClear == None
  {
    var store := new InMemoryTokenStore();
    store.Set(first);
    afterFirst := store.Get();
    store.Set(second);
    afterSecond := store.Get();
    store.Clear();
    afterClear := store.Get();
  }

  /**
   * On a ready connection the database store upserts one document per provider:
   * a get after a set returns exactly that record, a second set replaces it, and
   * a clear removes it.
   */
  method MongoRoundTrip(stored: map<string, TokenRecord>, first: TokenRecord, second: TokenRecord, db: DbEnv)
    returns (written: Result<(), StoreError>, afterFirst: Option<TokenRecord>, afterSecond: Option<TokenRecord>,
             afterClear: Option<TokenRecord>, keys: set<string>)
    requires db.readyState == 1 && !db.operationFails
    ensures written == Success(())
    ensures afterFirst == Some(first) && afterSecond == Some(second) && afterClear == None
    ensures keys == stored.Keys + {Provider}
  {
    var store := new MongoTokenStore(stored);
    written := store.Set(first, db);
    afterFirst := store.Get(db);
    var _ := store.Set(second, db);
    keys := store.documents.Keys;
    afterSecond := store.Get(db);
    store.Clear(db);
    afterClear := store.Get(db);
  }

  /**
   * Without a ready connection, get yields no record, set fails with the set-up
   * error and clear returns quietly, even over a collection that holds a record.
   */
  method MongoUnavailable(stored: map<string, TokenRecord>, record: TokenRecord, db: DbEnv)
    returns (got: Option<TokenRecord>, written: Result<(), StoreError>, left: map<string, TokenRecord>)
    requires db.readyState != 1
    ensures got == None
    ensures written == Failure(InitializationFailed)
    ensures left == stored
  {
    var store := new MongoTokenStore(stored);
    got := store.Get(db);
    written := store.Set(record, db);
    store.Clear(db);
    left := store.documents;
  }

  /**
   * Once the model is set up it is reused: a later call on a connection that is
   * no longer ready still reaches the collection.
   */
  method MongoSetUpOnce(record: TokenRecord, ready: DbEnv, later: DbEnv)
    returns (got: Option<TokenRecord>)
    requires ready.readyState == 1 && !ready.operationFails
    requires later.readyState != 1 && !later.operationFails
    ensures got == Some(record)
  {
    var store := new MongoTokenStore(map[]);
    var _ := store.Set(record, ready);
    got := store.Get(later);
  }
}
