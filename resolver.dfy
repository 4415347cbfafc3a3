/**
 * `MongoDB._get_database_and_collection_names`: the database and collection an
 * operation acts on, from the names passed to it and the instance's defaults.
 */
module Resolver {
  import opened Wrappers
  import opened Python

  /**
   * The default database and collection. `None` means the attribute has never
   * been set on the instance; `Some(PNone)` means it was set to Python's None.
   */
  datatype Defaults = Defaults(database: Option<Py>, collection: Option<Py>)

  /** The (database name, collection name) pair handed to the client. */
  datatype Target = Target(database: Py, collection: Py)

  /**
   * One name: a truthy name is kept; a falsy one (None, "") is replaced by the
   * default when a default has been set, and is otherwise returned as it is.
   */
  function ResolveName(name: Py, default: Option<Py>): (r: Py)
    ensures Truthy(name) ==> r == name
    ensures !Truthy(name) && default.Some? ==> r == default.value
    ensures !Truthy(name) && default.None? ==> r == name
  {
    if !Truthy(name) && default.Some? then default.value else name
  }

  /** Both names, each resolved against its own default only. */
  function Resolve(defaults: Defaults, database: Py, collection: Py): (t: Target)
    ensures t.database == ResolveName(database, defaults.database)
    ensures t.collection == ResolveName(collection, defaults.collection)
  {
    Target(ResolveName(database, defaults.database), ResolveName(collection, defaults.collection))
  }

  /** The database resolved does not depend on anything about the collection, and conversely. */
  lemma ResolveIndependent(defaults: Defaults, database: Py, collection: Py, otherCollection: Py,
                                 otherDatabase: Py, otherDefaults: Defaults)
    ensures otherDefaults.database == defaults.database ==>
      Resolve(otherDefaults, database, otherCollection).database == Resolve(defaults, database, collection).database
    ensures otherDefaults.collection == defaults.collection ==>
      Resolve(otherDefaults, otherDatabase, collection).collection == Resolve(defaults, database, collection).collection
  {
  }

  /** Resolving an already resolved pair changes nothing. */
  lemma ResolveIdempotent(defaults: Defaults, database: Py, collection: Py)
    ensures var t := Resolve(defaults, database, collection);
      Resolve(defaults, t.database, t.collection) == t
  {
  }

  /** A resolved name is truthy exactly when the name given, or else the default set, is. */
  lemma ResolvedTruthy(name: Py, default: Option<Py>)
    ensures Truthy(ResolveName(name, default)) <==>
      Truthy(name) || (default.Some? && Truthy(default.value))
  {
  }

  /** None and "" are both "not given": they resolve the same way whenever a default is set. */
  lemma EmptyNameIsNotGiven(default: Option<Py>)
    ensures default.Some? ==> ResolveName(PStr(""), default) == ResolveName(PNone, default)
    ensures default.None? ==> ResolveName(PStr(""), default) == PStr("") && ResolveName(PNone, default) == PNone
  {
  }

  /** Sample resolutions: nothing given, only the database given, and no defaults set. */
  lemma ResolveExamples(d: Py, c: Py, x: string)
    requires x != ""
    ensures Resolve(Defaults(Some(d), Some(c)), PNone, PNone) == Target(d, c)
    ensures Resolve(Defaults(Some(d), Some(c)), PStr(x), PNone) == Target(PStr(x), c)
    ensures Resolve(Defaults(None, None), PNone, PNone) == Target(PNone, PNone)
  {
  }
}
