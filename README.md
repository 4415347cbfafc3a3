# easymongo: the MongoDB façade, modelled in Dafny

This project models the `MongoDB` class of `easymongo/easymongo.py`. The class is a
convenience wrapper around a MongoDB client. It keeps a connection configuration, an
optional default database and collection, and a single client handle. Every operation
connects lazily, with retries, then resolves the (database, collection) target against
the defaults and turns its simplified arguments into one call on the collection.

The model has seven modules:

- `Wrappers` (`wrappers.dfy`): `Option`, `Result` and `Outcome`.
- `Python` (`python.dfy`): the Python values the class handles (`Py`), plus the
  built-ins it relies on. These are truthiness, `== 1`, `int()` and `str.split(':')`.
- `Configuration` (`configuration.dfy`): how `__init__` builds `_config` from
  `host`/`port` or from `endpoint`.
- `Resolver` (`resolver.dfy`): `_get_database_and_collection_names`.
- `Connection` (`connection.dfy`): the decision logic of `open_connection`, as the
  function `Open`. The store is an oracle: `Store` gives the outcome of the k-th
  `MongoClient(...)` construction attempt. An attempt either raises, or yields a handle
  whose `server_info()` probe succeeds or raises.
- `Plans` (`plans.dfy`): the request each operation hands to the collection.
  `find_one`, `find` with hint and limit, `aggregate`, `update`, `insert_one`, `remove`,
  `count_documents` and `create_index` are returned as values of the `Request`
  datatype instead of being called.
- `EasyMongo` (`easymongo.dfy`): the class `MongoDB`. Its fields are `config`,
  `defaultDatabase`, `defaultCollection` (`None` while the attribute does not exist),
  `client`, and `closed` (the handles whose `close()` was called). Its methods change
  these fields the way the Python methods do. `OpenConnection` is the recursion
  unrolled into a bounded loop, proved equal to `Connection.Open`. Every operation
  except `create_index` first calls `OpenConnection(10)`. `create_index` checks its
  arguments first, and raises TypeError before any connection attempt. Each result is
  stated through `Open`, the resolver and the plan functions.

Python's exceptions are `Failure` results: `ConnectionError`, `TypeError`,
`ValueError` and `AttributeError`.

Three behaviours of the code are easy to misread:

- `close_connection` closes the handle but does not clear `_client`. So a later
  `open_connection` does nothing (`OpenWithClientIsNoop`).
- The handle is stored before it is probed. So when a probe fails with budget left,
  the recursive retry finds `_client` set and returns normally, keeping the unprobed
  handle (`ProbeFailureIsNotRetried`). When the probe fails on the last attempt,
  ConnectionError is raised with `_client` still set (`OpenFailsIff`).
- Emptiness is decided by Python truthiness, not by presence. `""` resolves like
  `None` (`EmptyNameIsNotGiven`), and a falsy query counts everything
  (`CountNoneIsCountAll`).

## Model

| member | source | states |
|---|---|---|
| `Python.Truthy` | easymongo/easymongo.py:71 | Python's `bool()`: None, False, 0, `""` and empty lists, tuples and dicts are falsy, everything else truthy; the truthiness tests at lines 29, 71, 73, 87, 101, 103, 124, 132, 136, 137, 145, 160, 167, 169, 196 and 220 use it; the handle tests at lines 51 and 63 are modelled as `client.Some?` instead |
| `Python.EqualsOne` | easymongo/easymongo.py:130 | `limit == 1` holds for the integer 1 and for True, and for nothing else |
| `Plans.KeyList` | easymongo/easymongo.py:108 | the list `[(attribute, direction)]` built at lines 108, 129 and 144: one two-element tuple, the attribute first, the direction -1 exactly for "desc" and 1 otherwise |
| `Python.IntOf` | easymongo/easymongo.py:20 | `int(port)`: an int is itself, a bool is 0 or 1, a string converts exactly when it is a decimal digit string (ValueError otherwise), and every other value raises TypeError |
| `Python.LeadingZeroIgnored` | easymongo/easymongo.py:20 | a leading zero does not change what `int()` gives for a digit string, so "007" converts like "7" |
| `Python.DecimalRoundTrip` | easymongo/easymongo.py:20 | `int()` of the decimal representation of any natural number gives that number back |
| `Python.Split` | easymongo/easymongo.py:19 | `endpoint.split(':')` has one more piece than the string has colons; no piece holds a colon; joining the pieces with ':' gives the string back |
| `Python.SplitAt` | easymongo/easymongo.py:19 | a string `h:p` where neither side holds a colon splits into exactly `[h, p]` |
| `Configuration.ParseConfig` | easymongo/easymongo.py:18-20 | without an endpoint: the config is `(host, int(port))` or `int`'s error; an endpoint that is not a string raises AttributeError; one without exactly one colon raises ValueError; on success the host is the colon-free part before the colon and the port is `int` of the rest |
| `Configuration.EndpointOverridesArguments` | easymongo/easymongo.py:18-20 | when an endpoint is given, the `host` and `port` arguments do not affect the result |
| `Configuration.EndpointMatchesHostPort` | easymongo/easymongo.py:18-20 | `endpoint="h:p"` yields exactly what `host="h", port="p"` yields, errors included |
| `Configuration.EndpointRoundTrip` | easymongo/easymongo.py:18-20 | an endpoint written as host, colon, decimal port is parsed back to that host and port, the same as passing them directly |
| `EasyMongo.InitialDefault` | easymongo/easymongo.py:22-26 | a constructor default is recorded exactly when it is not None, and then as given |
| `EasyMongo.MongoDB.constructor` | easymongo/easymongo.py:10-28 | stores the config and the defaults that are not None; `_client` starts absent |
| `EasyMongo.MongoDB.Create` | easymongo/easymongo.py:10-30 | configuration errors propagate; a truthy `connect` opens the connection, and its ConnectionError makes construction fail; on success the fresh object holds the parsed config, the recorded defaults and the handle `Open` leaves |
| `EasyMongo.MongoDB.SetDefaults` | easymongo/easymongo.py:45-48 | the database default is always overwritten, even with None; the collection default only by a value other than None, and is otherwise unchanged |
| `Resolver.ResolveName` | easymongo/easymongo.py:71-74 | a truthy name is kept; a falsy one becomes the default when a default has been set, and is otherwise returned unchanged |
| `Resolver.Resolve` | easymongo/easymongo.py:66-75 | database and collection are each resolved against their own default |
| `Resolver.ResolveIndependent` | easymongo/easymongo.py:71-75 | the resolved database depends only on the database argument and default, and the collection only on the collection argument and default |
| `Resolver.ResolveIdempotent` | easymongo/easymongo.py:71-75 | resolving an already resolved pair changes nothing |
| `Resolver.ResolvedTruthy` | easymongo/easymongo.py:71-74 | a resolved name is truthy iff the given name is, or a default is set and truthy |
| `Resolver.EmptyNameIsNotGiven` | easymongo/easymongo.py:71-74 | `""` and None resolve alike: both to the default when one is set, each to itself otherwise |
| `Resolver.ResolveExamples` | easymongo/easymongo.py:66-75 | `(None, None)` resolves to both defaults; `("x", None)` resolves to `("x", default collection)`; with no defaults set, `(None, None)` stays `(None, None)` |
| `Connection.Open` | easymongo/easymongo.py:50-60 | never consumes attempts backwards; a present handle is never replaced; a normal return always leaves a handle; the only error raised is ConnectionError |
| `Connection.OpenWithClientIsNoop` | easymongo/easymongo.py:51 | with a handle present the call returns normally, changes nothing and consults no attempt |
| `Connection.OpenBudget` | easymongo/easymongo.py:52-60 | at most `attempts + 1` constructions, at most `attempts` sleeps, and never more sleeps than constructions |
| `Connection.OpenFailsIff` | easymongo/easymongo.py:52-60 | from no handle, ConnectionError is raised iff the first `attempts` constructions all raise and the last one is not constructed and probed; it then made `attempts + 1` constructions and slept `attempts` times, and `_client` holds the last handle if one was constructed |
| `Connection.OpenPassKeepsFirstHandle` | easymongo/easymongo.py:53-60 | from no handle, a normal return keeps the handle of the first construction that did not raise; every earlier one raised; either its probe succeeded or budget was left; the sleeps are counted exactly |
| `Connection.ProbeFailureIsNotRetried` | easymongo/easymongo.py:53-60 | a failed probe with budget left returns normally after one construction and one sleep, holding the unprobed handle |
| `Connection.Unreachable` | easymongo/easymongo.py:53-57 | when every construction raises, ConnectionError comes after `attempts + 1` constructions and `attempts` sleeps, and `_client` stays absent |
| `Connection.OpenTwiceConnectsOnce` | easymongo/easymongo.py:50-51 | after a call that returned normally, a second call on any store consults nothing and changes nothing |
| `EasyMongo.MongoDB.OpenConnection` | easymongo/easymongo.py:50-60 | the loop leaves `_client`, the outcome, the number of constructions and the number of sleeps exactly as `Open` says |
| `EasyMongo.MongoDB.CloseConnection` | easymongo/easymongo.py:62-64 | closes the handle if there is one and never changes `_client` |
| `EasyMongo.MongoDB.GetCollection` | easymongo/easymongo.py:36-43 | connects first; a ConnectionError propagates; a resolved name that is not a string makes `getattr` raise TypeError; otherwise returns the resolved target |
| `Plans.Exists` | easymongo/easymongo.py:87-89 | `exists` is false for None and, for a document, true exactly when it is non-empty |
| `EasyMongo.MongoDB.ExistsQuery` | easymongo/easymongo.py:85-87 | after connecting, `exists` issues `find_one(query)` with no sort on the resolved target |
| `Plans.FindOneResults` | easymongo/easymongo.py:130-134 | the `find_one` path yields at most one element: the document found when truthy, nothing otherwise |
| `Plans.FindOneAgreesWithExists` | easymongo/easymongo.py:85-89 | `get(..., limit=1)` yields one document exactly when `exists` on the same document says true |
| `Plans.DirectionCode` | easymongo/easymongo.py:104-107 | the direction is -1 exactly for "desc", and 1 for anything else |
| `Plans.IndexKeys` | easymongo/easymongo.py:99-108 | TypeError iff neither keys nor attribute is truthy; truthy keys pass unchanged; otherwise the single key `(attribute, -1)` for "desc" and `(attribute, 1)` for anything else, None included |
| `EasyMongo.MongoDB.CreateIndex` | easymongo/easymongo.py:91-110 | the argument check comes first: a TypeError leaves `_client` untouched; otherwise connect, resolve, and request `create_index(keys, unique, background)` |
| `Plans.SortSpec` | easymongo/easymongo.py:124-129 | a truthy sort attribute with a truthy type replaces `sort` with a one-key list; otherwise `sort` is kept |
| `Plans.HintSpec` | easymongo/easymongo.py:136-144 | a truthy index is the hint; otherwise a truthy index attribute and type give a one-key hint; otherwise no hint |
| `Plans.GetPlan` | easymongo/easymongo.py:124-147 | `find_one` exactly when `limit == 1` (True included), with the computed sort; otherwise `find` with that sort, the hint of `HintSpec` and the limit exactly when it is truthy |
| `EasyMongo.MongoDB.Get` | easymongo/easymongo.py:112-147 | connects and resolves before anything else, then issues the read of `GetPlan` |
| `EasyMongo.MongoDB.GetAndClose` | easymongo/easymongo.py:77-83 | `get` with default options, then closes the handle; nothing is closed when `get` raised |
| `Plans.RandomPipeline` | easymongo/easymongo.py:157-170 | `$match` first exactly when the query is truthy; then the only `$sample`, sized by `limit` or 1 when limit is None; then `$sort` last exactly when the sort is truthy |
| `EasyMongo.MongoDB.GetRandom` | easymongo/easymongo.py:149-172 | connects and resolves, then aggregates with `RandomPipeline` |
| `Plans.UpdatePlan` | easymongo/easymongo.py:180 | `{'$set': value}` on the query, with upsert |
| `EasyMongo.MongoDB.Update` | easymongo/easymongo.py:174-180 | connects and resolves, then the `$set` upsert |
| `Plans.PushPlan` | easymongo/easymongo.py:189 | `{'$push': {key: {'$each': values}}}` on the query, without upsert |
| `EasyMongo.MongoDB.Push` | easymongo/easymongo.py:182-189 | connects and resolves, then the `$push` update |
| `Plans.ToDocument` | easymongo/easymongo.py:213 | `dict(value)`: a dictionary is copied, anything else raises TypeError |
| `Plans.InsertPlan` | easymongo/easymongo.py:212-213 | `insert_one` of `dict(value)`, or its error |
| `EasyMongo.MongoDB.Insert` | easymongo/easymongo.py:208-213 | connects and resolves before `dict(value)`, so a ConnectionError comes before a TypeError |
| `Plans.PutPlan` | easymongo/easymongo.py:196-199 | a truthy query makes `put` the update of `UpdatePlan`; otherwise it is the insert of `InsertPlan` |
| `EasyMongo.MongoDB.Put` | easymongo/easymongo.py:191-199 | `put` with a truthy query acts as `update`, and otherwise as `insert`: same requests, same connection behaviour |
| `Plans.RemovePlan` | easymongo/easymongo.py:206 | `remove(query)` on the target, the query passed as given |
| `EasyMongo.MongoDB.Remove` | easymongo/easymongo.py:201-206 | connects and resolves, then the remove |
| `Plans.CountPlan` | easymongo/easymongo.py:220-222 | counts with the query when truthy and with `{}` otherwise |
| `Plans.CountNoneIsCountAll` | easymongo/easymongo.py:220-221 | every falsy query, None and `{}` included, gives the same count request |
| `EasyMongo.MongoDB.Count` | easymongo/easymongo.py:215-222 | connects and resolves, then the count |

## Left out

- The pymongo calls themselves are left out: `MongoClient(...)`, `server_info`, `find`, `find_one`, `aggregate`, `update`, `insert_one`, `remove`, `count_documents`, `create_index`, `hint`, `limit` and `close`. They are network-bound library code. Construction and probing come from the `Store` oracle; the other calls are returned as `Request` values; `close()` is recorded in `closed`.
- Errors the store raises during an operation pass through the façade untranslated. They are not modelled.
- The `getattr` lookup of database and collection on the client (lines 41-42) is modelled only as far as Python itself decides it. A resolved name that is not a string raises TypeError; this happens, for example, with a falsy name and no default set. A string name is passed on unchecked: pymongo rejects some, such as the empty string, with its own error, and that is not modelled.
- Cursor laziness is not modelled.
- `time.sleep(1)` is not modelled as a delay; the model only counts the sleeps (`backoffs`).
- The MongoClient handle is assumed truthy once constructed. Its presence is `Some`.
- `Connection.Open`: `attempts` is a natural number. With a negative count, Python's recursion never meets `attempts == 0` and retries until the interpreter's recursion limit; that case is not modelled.
- `Python.IntOf`: only strings of ASCII decimal digits convert. The model reports every other string as ValueError, but Python's `int()` also accepts signs, surrounding whitespace, underscores and other Unicode digits.
- `Plans.ToDocument`: the model raises TypeError for every value that is not a dictionary. Python's `dict()` also builds a dictionary from a sequence of key/value pairs, and raises ValueError for pairs of the wrong length.
- `Python.Py`: there are no floats, bytes, sets or user-defined objects, and dictionary keys are strings. For the same reason, `push` takes a string key.
- The documents that `find` returns and the count `count_documents` returns are store results and are not modelled. Only the shaping of the `find_one` result in `get` is modelled (`FindOneResults`).
- The `client` property is the public `client` field itself.
- There is no locking in the class, so there is nothing to model or verify about concurrency.
- `setup.py` only holds packaging metadata; the `errors` module is not part of this model, and its ConnectionError is an opaque error value.
