/**
 * The `MongoDB` façade object: its configuration, its defaults, the single
 * client handle it owns, and the operations that connect, resolve the target
 * and build the request they hand to the collection.
 */
module EasyMongo {
  import opened Wrappers
  import opened Python
  import opened Configuration
  import opened Resolver
  import opened Connection
  import opened Plans

  /** The default recorded for a constructor argument: only a value other than None is recorded. */
  function InitialDefault(v: Py): (d: Option<Py>)
    ensures d.None? <==> v == PNone
    ensures d.Some? ==> d.value == v
  {
    if v != PNone then Some(v) else None
  }

  class MongoDB {
    var config: Config
    /** `_default_database`; None while the attribute does not exist. */
    var defaultDatabase: Option<Py>
    /** `_default_collection`; None while the attribute does not exist. */
    var defaultCollection: Option<Py>
    /** `_client`, also exposed read-only as the `client` property. */
    var client: Option<Handle>
    /** The handles whose `close()` has been called, in order. */
    var closed: seq<Handle>

    function CurrentDefaults(): Defaults
      reads this
    {
      Defaults(defaultDatabase, defaultCollection)
    }

    /**
     * The target an operation resolves after `open_connection()`, or the error raised
     * on the way: the ConnectionError of that call, or the TypeError `getattr` raises
     * for a resolved name that is not a string.
     */
    function TargetAfterOpen(client0: Option<Handle>, store: Store, database: Py, collection: Py): Result<Target, Error>
      reads this
    {
      var o := Open(client0, DefaultAttempts, store, 0);
      var t := Resolve(CurrentDefaults(), database, collection);
      if o.outcome.Fail? then Failure(o.outcome.error)
      else if !t.database.PStr? || !t.collection.PStr? then Failure(TypeError)
      else Success(t)
    }

    /** `__init__` once the configuration has been built, before `connect` is looked at. */
    constructor (config: Config, defaultDatabase: Py, defaultCollection: Py)
      ensures this.config == config
      ensures this.defaultDatabase == InitialDefault(defaultDatabase)
      ensures this.defaultCollection == InitialDefault(defaultCollection)
      ensures client == None && closed == []
    {
      this.config := config;
      this.defaultDatabase := InitialDefault(defaultDatabase);
      this.defaultCollection := InitialDefault(defaultCollection);
      client := None;
      closed := [];
    }

    /**
     * `MongoDB(host, port, default_database, default_collection, connect, endpoint)`:
     * the configuration is built first, and a truthy `connect` then opens the
     * connection, whose ConnectionError propagates out of the constructor.
     */
    static method Create(host: Py, port: Py, defaultDatabase: Py, defaultCollection: Py, connect: Py,
                         endpoint: Py, store: Store)
      returns (r: Result<MongoDB, Error>)
      ensures ParseConfig(host, port, endpoint).Failure? ==> r == Failure(ParseConfig(host, port, endpoint).error)
      ensures (ParseConfig(host, port, endpoint).Success? && Truthy(connect) &&
               Open(None, DefaultAttempts, store, 0).outcome.Fail?) ==> r == Failure(ConnectionError)
      ensures r.Success? ==>
        fresh(r.value) &&
        r.value.config == ParseConfig(host, port, endpoint).value &&
        r.value.defaultDatabase == InitialDefault(defaultDatabase) &&
        r.value.defaultCollection == InitialDefault(defaultCollection) &&
        r.value.client == (if Truthy(connect) then Open(None, DefaultAttempts, store, 0).client else None) &&
        r.value.closed == []
      ensures r.Failure? ==>
        ParseConfig(host, port, endpoint).Failure? ||
        (Truthy(connect) && Open(None, DefaultAttempts, store, 0).outcome.Fail?)
    {
      var c := ParseConfig(host, port, endpoint);
      if c.Failure? {
        return Failure(c.error);
      }
      var m := new MongoDB(c.value, defaultDatabase, defaultCollection);
      if Truthy(connect) {
        var o, _, _ := m.OpenConnection(DefaultAttempts, store);
        if o.Fail? {
          return Failure(o.error);
        }
      }
      r := Success(m);
    }

    /**
     * `set_defaults(database_name, database_collection)`: the database default is
     * always overwritten, even with None; the collection default only by a value
     * other than None.
     */
    method SetDefaults(database: Py, collection: Py)
      modifies this`defaultDatabase, this`defaultCollection
      ensures defaultDatabase == Some(database)
      ensures defaultCollection == (if collection != PNone then Some(collection) else old(defaultCollection))
    {
      defaultDatabase := Some(database);
      if collection != PNone {
        defaultCollection := Some(collection);
      }
    }

    /**
     * `open_connection(attempts)` as the loop the recursion unrolls to. Returns how
     * the call ended, how many constructions it made and how many times it slept.
     */
    method OpenConnection(attempts: nat, store: Store) returns (outcome: Outcome<Error>, constructions: nat, backoffs: nat)
      modifies this`client
      ensures var o := Open(old(client), attempts, store, 0);
        client == o.client && outcome == o.outcome && constructions == o.next && backoffs == o.backoffs
    {
      ghost var goal := Open(client, attempts, store, 0);
      var left: nat := attempts;
      constructions, backoffs := 0, 0;
      while true
        invariant left <= attempts
        invariant var o := Open(client, left, store, constructions);
          goal == o.(backoffs := o.backoffs + backoffs)
        decreases left
      {
        if client.Some? {
          return Pass, constructions, backoffs;
        }
        var a := store(constructions);
        constructions := constructions + 1;
        if a.Constructed? {
          client := Some(a.handle);
        }
        if a.Constructed? && a.probeOk {
          return Pass, constructions, backoffs;
        }
        if left == 0 {
          return Fail(ConnectionError), constructions, backoffs;
        }
        backoffs := backoffs + 1;
        left := left - 1;
      }
    }

    /** `close_connection()`: closes the handle when there is one, and leaves `_client` as it is. */
    method CloseConnection()
      modifies this`closed
      ensures closed == if client.Some? then old(closed) + [client.value] else old(closed)
    {
      if client.Some? {
        closed := closed + [client.value];
      }
    }

    /** `_get_collection`: connect first, then resolve the names and look them up on the client. */
    method GetCollection(database: Py, collection: Py, store: Store) returns (r: Result<Target, Error>)
      modifies this`client
      ensures client == Open(old(client), DefaultAttempts, store, 0).client
      ensures r == TargetAfterOpen(old(client), store, database, collection)
    {
      var o, _, _ := OpenConnection(DefaultAttempts, store);
      if o.Fail? {
        return Failure(o.error);
      }
      var t := Resolve(CurrentDefaults(), database, collection);
      if !t.database.PStr? || !t.collection.PStr? {
        return Failure(TypeError);
      }
      r := Success(t);
    }

    /** `exists`: the `find_one` whose result decides the answer. */
    method ExistsQuery(query: Py, database: Py, collection: Py, store: Store) returns (r: Result<Request, Error>)
      modifies this`client
      ensures client == Open(old(client), DefaultAttempts, store, 0).client
      ensures match TargetAfterOpen(old(client), store, database, collection)
        case Failure(e) => r == Failure(e)
        case Success(t) => r == Success(FindOneRequest(t, query, PNone))
    {
      var t := GetCollection(database, collection, store);
      if t.Failure? {
        return Failure(t.error);
      }
      r := Success(FindOneRequest(t.value, query, PNone));
    }

    /** `create_index`: the argument check comes before any connection attempt. */
    method CreateIndex(attribute: Py, keys: Py, database: Py, collection: Py, unique: Py, type_: Py,
                       background: Py, store: Store)
      returns (r: Result<Request, Error>)
      modifies this`client
      ensures IndexKeys(attribute, keys, type_).Failure? ==> r == Failure(TypeError) && client == old(client)
      ensures IndexKeys(attribute, keys, type_).Success? ==>
        client == Open(old(client), DefaultAttempts, store, 0).client &&
        match TargetAfterOpen(old(client), store, database, collection)
        case Failure(e) => r == Failure(e)
        case Success(t) => r == Success(CreateIndexRequest(t, IndexKeys(attribute, keys, type_).value, unique, background))
    {
      var k := IndexKeys(attribute, keys, type_);
      if k.Failure? {
        return Failure(k.error);
      }
      var t := GetCollection(database, collection, store);
      if t.Failure? {
        return Failure(t.error);
      }
      r := Success(CreateIndexRequest(t.value, k.value, unique, background));
    }

    /** `get`: connect, resolve, then the read `GetPlan` describes. */
    method Get(query: Py, database: Py, collection: Py, sort: Py, sortAttribute: Py, sortType: Py, limit: Py,
               index: Py, indexAttribute: Py, indexType: Py, store: Store)
      returns (r: Result<Request, Error>)
      modifies this`client
      ensures client == Open(old(client), DefaultAttempts, store, 0).client
      ensures match TargetAfterOpen(old(client), store, database, collection)
        case Failure(e) => r == Failure(e)
        case Success(t) =>
          r == Success(GetPlan(t, query, sort, sortAttribute, sortType, limit, index, indexAttribute, indexType))
    {
      var t := GetCollection(database, collection, store);
      if t.Failure? {
        return Failure(t.error);
      }
      r := Success(GetPlan(t.value, query, sort, sortAttribute, sortType, limit, index, indexAttribute, indexType));
    }

    /** `get_and_close`: `get` with its defaults, then `close_connection` unless `get` raised. */
    method GetAndClose(query: Py, database: Py, collection: Py, store: Store) returns (r: Result<Request, Error>)
      modifies this`client, this`closed
      ensures client == Open(old(client), DefaultAttempts, store, 0).client
      ensures match TargetAfterOpen(old(client), store, database, collection)
        case Failure(e) => r == Failure(e) && closed == old(closed)
        case Success(t) =>
          r == Success(GetPlan(t, query, PNone, PNone, PNone, PNone, PNone, PNone, PNone)) &&
          closed == old(closed) + [client.value]
    {
      r := Get(query, database, collection, PNone, PNone, PNone, PNone, PNone, PNone, PNone, store);
      if r.Failure? {
        return;
      }
      CloseConnection();
    }

    /** `get_random`: connect, resolve, then the aggregation `RandomPipeline` describes. */
    method GetRandom(query: Py, database: Py, collection: Py, sort: Py, sortAttribute: Py, sortType: Py,
                     limit: Py, store: Store)
      returns (r: Result<Request, Error>)
      modifies this`client
      ensures client == Open(old(client), DefaultAttempts, store, 0).client
      ensures match TargetAfterOpen(old(client), store, database, collection)
        case Failure(e) => r == Failure(e)
        case Success(t) => r == Success(AggregateRequest(t, RandomPipeline(query, sort, sortAttribute, sortType, limit)))
    {
      var t := GetCollection(database, collection, store);
      if t.Failure? {
        return Failure(t.error);
      }
      r := Success(AggregateRequest(t.value, RandomPipeline(query, sort, sortAttribute, sortType, limit)));
    }

    /** `update`: a `$set` upsert on the resolved collection. */
    method Update(query: Py, value: Py, database: Py, collection: Py, store: Store) returns (r: Result<Request, Error>)
      modifies this`client
      ensures client == Open(old(client), DefaultAttempts, store, 0).client
      ensures match TargetAfterOpen(old(client), store, database, collection)
        case Failure(e) => r == Failure(e)
        case Success(t) => r == Success(UpdatePlan(t, query, value))
    {
      var t := GetCollection(database, collection, store);
      if t.Failure? {
        return Failure(t.error);
      }
      r := Success(UpdatePlan(t.value, query, value));
    }

    /** `push`: a `$push`/`$each` update on the resolved collection. */
    method Push(query: Py, key: string, values: Py, database: Py, collection: Py, store: Store)
      returns (r: Result<Request, Error>)
      modifies this`client
      ensures client == Open(old(client), DefaultAttempts, store, 0).client
      ensures match TargetAfterOpen(old(client), store, database, collection)
        case Failure(e) => r == Failure(e)
        case Success(t) => r == Success(PushPlan(t, query, key, values))
    {
      var t := GetCollection(database, collection, store);
      if t.Failure? {
        return Failure(t.error);
      }
      r := Success(PushPlan(t.value, query, key, values));
    }

    /** `insert`: connect and resolve first, then `dict(value)`. */
    method Insert(value: Py, database: Py, collection: Py, store: Store) returns (r: Result<Request, Error>)
      modifies this`client
      ensures client == Open(old(client), DefaultAttempts, store, 0).client
      ensures match TargetAfterOpen(old(client), store, database, collection)
        case Failure(e) => r == Failure(e)
        case Success(t) => r == InsertPlan(t, value)
    {
      var t := GetCollection(database, collection, store);
      if t.Failure? {
        return Failure(t.error);
      }
      r := InsertPlan(t.value, value);
    }

    /** `put`: `update` when the query is truthy, `insert` otherwise. */
    method Put(value: Py, query: Py, database: Py, collection: Py, store: Store) returns (r: Result<Request, Error>)
      modifies this`client
      ensures client == Open(old(client), DefaultAttempts, store, 0).client
      ensures match TargetAfterOpen(old(client), store, database, collection)
        case Failure(e) => r == Failure(e)
        case Success(t) => r == PutPlan(t, value, query)
    {
      if Truthy(query) {
        r := Update(query, value, database, collection, store);
      } else {
        r := Insert(value, database, collection, store);
      }
    }

    /** `remove`: on the resolved collection. */
    method Remove(query: Py, database: Py, collection: Py, store: Store) returns (r: Result<Request, Error>)
      modifies this`client
      ensures client == Open(old(client), DefaultAttempts, store, 0).client
      ensures match TargetAfterOpen(old(client), store, database, collection)
        case Failure(e) => r == Failure(e)
        case Success(t) => r == Success(RemovePlan(t, query))
    {
      var t := GetCollection(database, collection, store);
      if t.Failure? {
        return Failure(t.error);
      }
      r := Success(RemovePlan(t.value, query));
    }

    /** `count`: on the resolved collection, a falsy query counting every document. */
    method Count(query: Py, database: Py, collection: Py, store: Store) returns (r: Result<Request, Error>)
      modifies this`client
      ensures client == Open(old(client), DefaultAttempts, store, 0).client
      ensures match TargetAfterOpen(old(client), store, database, collection)
        case Failure(e) => r == Failure(e)
        case Success(t) => r == Success(CountPlan(t, query))
    {
      var t := GetCollection(database, collection, store);
      if t.Failure? {
        return Failure(t.error);
      }
      r := Success(CountPlan(t.value, query));
    }
  }
}
