/**
 * The parameter translation of the façade's operations: each builds the request
 * it hands to the collection object, on a target the resolver chose.
 */
module Plans {
  import opened Wrappers
  import opened Python
  import opened Resolver

  /** One stage of an aggregation pipeline. */
  datatype Stage = Match(query: Py) | Sample(size: Py) | SortBy(spec: Py)

  /** The call made on the collection, with the arguments it receives. */
  datatype Request =
    | CreateIndexRequest(target: Target, keys: Py, unique: Py, background: Py)
    | FindOneRequest(target: Target, query: Py, sort: Py)
    | FindRequest(target: Target, query: Py, sort: Py, hint: Option<Py>, limit: Option<Py>)
    | AggregateRequest(target: Target, pipeline: seq<Stage>)
    | UpdateRequest(target: Target, query: Py, update: Py, upsert: bool)
    | InsertOneRequest(target: Target, document: map<string, Py>)
    | RemoveRequest(target: Target, query: Py)
    | CountDocumentsRequest(target: Target, filter: Py)

  /** `-1 if t == 'desc' else 1`: anything but "desc" is ascending. */
  function DirectionCode(t: Py): (d: int)
    ensures d == -1 <==> t == PStr("desc")
    ensures d == 1 || d == -1
  {
    if t == PStr("desc") then -1 else 1
  }

  /** The one-key list `[(attribute, direction)]`. */
  function KeyList(attribute: Py, t: Py): (r: Py)
    ensures r.PList? && |r.items| == 1 && Truthy(r)
    ensures r.items[0].PTuple? && |r.items[0].items| == 2
    ensures r.items[0].items[0] == attribute
    ensures r.items[0].items[1] == PInt(-1) <==> t == PStr("desc")
    ensures r.items[0].items[1] == PInt(-1) || r.items[0].items[1] == PInt(1)
  {
    PList([PTuple([attribute, PInt(DirectionCode(t))])])
  }

  /**
   * The keys `create_index` passes on: TypeError when neither keys nor an
   * attribute is given, the keys themselves when given, and otherwise the
   * attribute with the direction of `type_` (ascending when it is None).
   */
  function IndexKeys(attribute: Py, keys: Py, type_: Py): (r: Result<Py, Error>)
    ensures r.Failure? <==> !Truthy(keys) && !Truthy(attribute)
    ensures r.Failure? ==> r.error == TypeError
    ensures Truthy(keys) ==> r == Success(keys)
    ensures !Truthy(keys) && Truthy(attribute) ==>
      r.Success? && r.value.PList? && |r.value.items| == 1 &&
      r.value.items[0] == PTuple([attribute, PInt(if type_ == PStr("desc") then -1 else 1)])
  {
    var t := if type_ == PNone then PStr("asc") else type_;
    if !Truthy(keys) && !Truthy(attribute) then Failure(TypeError)
    else if !Truthy(keys) then Success(KeyList(attribute, t))
    else Success(keys)
  }

  /** The sort of `get` and `get_random`: an attribute and a type, both truthy, override `sort`. */
  function SortSpec(sort: Py, attribute: Py, t: Py): (r: Py)
    ensures Truthy(attribute) && Truthy(t) ==> r == KeyList(attribute, t) && Truthy(r)
    ensures !(Truthy(attribute) && Truthy(t)) ==> r == sort
  {
    if Truthy(attribute) && Truthy(t) then KeyList(attribute, t) else sort
  }

  /** The hint of `get`: an explicit index wins over an index attribute and type. */
  function HintSpec(index: Py, attribute: Py, t: Py): (r: Option<Py>)
    ensures Truthy(index) ==> r == Some(index)
    ensures !Truthy(index) && Truthy(attribute) && Truthy(t) ==> r == Some(KeyList(attribute, t))
    ensures r.None? <==> !Truthy(index) && !(Truthy(attribute) && Truthy(t))
  {
    if Truthy(index) then Some(index)
    else if Truthy(attribute) && Truthy(t) then Some(KeyList(attribute, t))
    else None
  }

  /**
   * The read `get` issues: `find_one` when `limit == 1` (hint and limit then play
   * no part), otherwise `find` with the hint and, when truthy, the limit.
   */
  function GetPlan(target: Target, query: Py, sort: Py, sortAttribute: Py, sortType: Py, limit: Py,
                   index: Py, indexAttribute: Py, indexType: Py): (r: Request)
    ensures r.target == target && (r.FindOneRequest? || r.FindRequest?) && r.query == query
    ensures r.sort == SortSpec(sort, sortAttribute, sortType)
    ensures r.FindOneRequest? <==> EqualsOne(limit)
    ensures r.FindRequest? ==> r.hint == HintSpec(index, indexAttribute, indexType)
    ensures r.FindRequest? ==> (r.limit.Some? <==> Truthy(limit)) && (r.limit.Some? ==> r.limit.value == limit)
  {
    var s := SortSpec(sort, sortAttribute, sortType);
    if EqualsOne(limit) then FindOneRequest(target, query, s)
    else FindRequest(target, query, s, HintSpec(index, indexAttribute, indexType), if Truthy(limit) then Some(limit) else None)
  }

  /** What the `find_one` path of `get` yields for the document found: zero or one element. */
  function FindOneResults(found: Py): (r: seq<Py>)
    ensures |r| <= 1
    ensures r == [] <==> !Truthy(found)
    ensures r != [] ==> r[0] == found
  {
    if Truthy(found) then [found] else []
  }

  /** What `exists` answers for the document `find_one` found. */
  function Exists(found: Py): (b: bool)
    ensures found == PNone ==> !b
    ensures found.PDict? ==> (b <==> found.entries != map[])
  {
    Truthy(found)
  }

  /** `get(..., limit=1)` yields the document exactly when `exists` on the same find says so. */
  lemma FindOneAgreesWithExists(found: Py)
    ensures |FindOneResults(found)| == 1 <==> Exists(found)
  {
  }

  /**
   * The pipeline of `get_random`: `$match` first when the query is truthy, then
   * `$sample` of `limit` documents (1 when limit is None), then `$sort` when the
   * sort is truthy.
   */
  function RandomPipeline(query: Py, sort: Py, sortAttribute: Py, sortType: Py, limit: Py): (r: seq<Stage>)
    ensures var s := SortSpec(sort, sortAttribute, sortType);
      var m := if Truthy(query) then 1 else 0;
      |r| == m + 1 + (if Truthy(s) then 1 else 0) &&
      (Truthy(query) ==> r[0] == Match(query)) &&
      r[m] == Sample(if limit == PNone then PInt(1) else limit) &&
      (Truthy(s) ==> r[|r| - 1] == SortBy(s)) &&
      (forall k :: 0 <= k < |r| ==> (r[k].Sample? <==> k == m))
  {
    var size := if limit == PNone then PInt(1) else limit;
    var s := SortSpec(sort, sortAttribute, sortType);
    var operation := [Sample(size)];
    var operation := if Truthy(query) then [Match(query)] + operation else operation;
    if Truthy(s) then operation + [SortBy(s)] else operation
  }

  /** `{'$set': value}` with upsert. */
  function UpdatePlan(target: Target, query: Py, value: Py): (r: Request)
    ensures r.UpdateRequest? && r.target == target && r.upsert && r.query == query && r.update == PDict(map["$set" := value])
  {
    UpdateRequest(target, query, PDict(map["$set" := value]), true)
  }

  /** `{'$push': {key: {'$each': values}}}` without upsert. */
  function PushPlan(target: Target, query: Py, key: string, values: Py): (r: Request)
    ensures r.UpdateRequest? && r.target == target && !r.upsert && r.query == query
    ensures r.update == PDict(map["$push" := PDict(map[key := PDict(map["$each" := values])])])
  {
    UpdateRequest(target, query, PDict(map["$push" := PDict(map[key := PDict(map["$each" := values])])]), false)
  }

  /** `dict(value)` for the document to insert. */
  function ToDocument(value: Py): (r: Result<map<string, Py>, Error>)
    ensures value.PDict? ==> r == Success(value.entries)
    ensures !value.PDict? ==> r == Failure(TypeError)
  {
    if value.PDict? then Success(value.entries) else Failure(TypeError)
  }

  function InsertPlan(target: Target, value: Py): (r: Result<Request, Error>)
    ensures r.Success? <==> ToDocument(value).Success?
    ensures r.Success? ==> r.value == InsertOneRequest(target, ToDocument(value).value)
    ensures r.Failure? ==> r == Failure(ToDocument(value).error) && r.error == TypeError
  {
    match ToDocument(value)
    case Success(d) => Success(InsertOneRequest(target, d))
    case Failure(e) => Failure(e)
  }

  /** `put`: update when a truthy query is given, insert otherwise. */
  function PutPlan(target: Target, value: Py, query: Py): (r: Result<Request, Error>)
    ensures Truthy(query) ==> r == Success(UpdatePlan(target, query, value))
    ensures !Truthy(query) ==> r == InsertPlan(target, value)
  {
    if Truthy(query) then Success(UpdatePlan(target, query, value)) else InsertPlan(target, value)
  }

  /** `count`: a falsy query counts everything, `{}`. */
  function CountPlan(target: Target, query: Py): (r: Request)
    ensures r.CountDocumentsRequest? && r.target == target
    ensures Truthy(query) ==> r.filter == query
    ensures !Truthy(query) ==> r.filter == PDict(map[])
  {
    CountDocumentsRequest(target, if Truthy(query) then query else PDict(map[]))
  }

  /** Counting with no query and with the empty query are the same request. */
  lemma CountNoneIsCountAll(target: Target, query: Py)
    requires !Truthy(query)
    ensures CountPlan(target, query) == CountPlan(target, PNone) == CountPlan(target, PDict(map[]))
  {
  }

  function RemovePlan(target: Target, query: Py): (r: Request)
    ensures r.RemoveRequest? && r.target == target && r.query == query
  {
    RemoveRequest(target, query)
  }
}
