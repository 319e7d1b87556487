/**
 * The client of the remote document API: the configuration read from the
 * environment, the request `send` issues, and how `findAll`, `find`,
 * `insertOne` and `updateOne` reshape the response.
 *
 * The HTTP exchange is an input: each operation takes the `Response` the
 * service gives and reports the `Request` it sent, if any.
 */
module DataApi {
  import opened Json
  import opened Wrappers

  const DefaultDataSource := "Cluster0"
  const DefaultDatabase := "finalproject"
  const DefaultCollection := "notes"

  /** The module's settings, read once from the environment. */
  datatype Config = Config(
    apiUrl: Option<string>,
    apiKey: Option<string>,
    dataSource: string,
    database: string,
    collection: string)

  /** One POST to the service: `<url>/action/<action>` with the key header and a JSON payload. */
  datatype Request = Request(url: string, apiKey: string, payload: map<string, Value>)

  /** The service's answer; `body` is what `res.json()` yields. */
  datatype Response = Response(ok: bool, status: nat, text: string, body: Value)

  datatype ApiError =
    | NotConfigured
    | HttpFailure(action: string, status: nat, text: string)
    /** A property read on a null or undefined response body. */
    | TypeError

  /** The request an operation sent, if any, and what it yields. */
  datatype Call<T> = Call(sent: Option<Request>, result: Result<T, ApiError>)

  /** `process.env[name] || fallback`. */
  function EnvOr(env: map<string, string>, name: string, fallback: string): (s: string)
    ensures name in env && env[name] != "" ==> s == env[name]
    ensures !(name in env && env[name] != "") ==> s == fallback
  {
    if name in env && env[name] != "" then env[name] else fallback
  }

  function EnvGet(env: map<string, string>, name: string): Option<string> {
    if name in env then Some(env[name]) else None
  }

  function LoadConfig(env: map<string, string>): (cfg: Config)
    ensures cfg.apiUrl == EnvGet(env, "ATLAS_DATA_API_URL")
    ensures cfg.apiKey == EnvGet(env, "ATLAS_DATA_API_KEY")
    ensures cfg.dataSource != "" && cfg.database != "" && cfg.collection != ""
  {
    Config(
      EnvGet(env, "ATLAS_DATA_API_URL"),
      EnvGet(env, "ATLAS_DATA_API_KEY"),
      EnvOr(env, "ATLAS_DATA_SOURCE", DefaultDataSource),
      EnvOr(env, "ATLAS_DB", DefaultDatabase),
      EnvOr(env, "ATLAS_COLLECTION", DefaultCollection))
  }

  /** Both the URL and the key are set and non-empty. */
  predicate Configured(cfg: Config) {
    cfg.apiUrl.Some? && cfg.apiUrl.value != "" && cfg.apiKey.Some? && cfg.apiKey.value != ""
  }

  /** The request payload: the three defaults, overridden by any key of `body`. */
  function Payload(cfg: Config, body: map<string, Value>): (p: map<string, Value>)
    ensures p.Keys == {"dataSource", "database", "collection"} + body.Keys
    ensures forall k :: k in body ==> p[k] == body[k]
    ensures "dataSource" !in body ==> p["dataSource"] == Str(cfg.dataSource)
    ensures "database" !in body ==> p["database"] == Str(cfg.database)
    ensures "collection" !in body ==> p["collection"] == Str(cfg.collection)
  {
    map["dataSource" := Str(cfg.dataSource),
        "database" := Str(cfg.database),
        "collection" := Str(cfg.collection)] + body
  }

  /**
   * `send(action, body)`: nothing is sent unless the API is configured; a
   * response that is not ok is an error carrying its status and text.
   */
  function Send(cfg: Config, action: string, body: map<string, Value>, response: Response): (c: Call<Value>)
    ensures !Configured(cfg) ==> c == Call(None, Failure(NotConfigured))
    ensures Configured(cfg) ==>
      c.sent == Some(Request(cfg.apiUrl.value + "/action/" + action, cfg.apiKey.value, Payload(cfg, body)))
    ensures Configured(cfg) && !response.ok ==>
      c.result == Failure(HttpFailure(action, response.status, response.text))
    ensures Configured(cfg) && response.ok ==> c.result == Success(response.body)
  {
    if !Configured(cfg) then Call(None, Failure(NotConfigured))
    else
      var request := Request(cfg.apiUrl.value + "/action/" + action, cfg.apiKey.value, Payload(cfg, body));
      if !response.ok then Call(Some(request), Failure(HttpFailure(action, response.status, response.text)))
      else Call(Some(request), Success(response.body))
  }

  /** The document's `_id` is an object with a truthy `$oid`. */
  predicate HasWrappedId(doc: Value) {
    doc.Obj? && "_id" in doc.fields && Truthy(Get(doc.fields["_id"], "$oid"))
  }

  /**
   * `normalizeId(doc)`: an `_id` of the form `{ $oid: s }` becomes `s`;
   * anything else, including a null or undefined document, is returned
   * unchanged.
   */
  function NormalizeId(doc: Value): (r: Value)
    ensures !HasWrappedId(doc) ==> r == doc
    ensures HasWrappedId(doc) ==>
      && r.Obj? && r.fields.Keys == doc.fields.Keys
      && r.fields["_id"] == Get(doc.fields["_id"], "$oid")
      && forall k :: k in doc.fields && k != "_id" ==> r.fields[k] == doc.fields[k]
  {
    if !Truthy(doc) then doc
    else if doc.Obj? && "_id" in doc.fields && Truthy(doc.fields["_id"]) then
      var id := doc.fields["_id"];
      // `typeof _id === 'object'`; null is excluded by truthiness above
      if (id.Obj? || id.Arr?) && Truthy(Get(id, "$oid")) then
        Obj(doc.fields["_id" := Get(id, "$oid")])
      else doc
    else doc
  }

  /** Normalising twice is normalising once, as long as an unwrapped `$oid` is not itself wrapped. */
  lemma NormalizeIdIdempotent(doc: Value)
    requires HasWrappedId(doc) ==> !Get(doc.fields["_id"], "$oid").Obj?
    ensures NormalizeId(NormalizeId(doc)) == NormalizeId(doc)
  {

  }

  /**
   * `Array.isArray(js.documents) ? js.documents.map(normalizeId) : []`;
   * reading `documents` of a null or undefined body throws.
   */
  function Documents(js: Value): (r: Result<seq<Value>, ApiError>)
    ensures js.Undefined? || js.Null? ==> r == Failure(TypeError)
    ensures !(js.Undefined? || js.Null?) && !Get(js, "documents").Arr? ==> r == Success([])
    ensures !(js.Undefined? || js.Null?) && Get(js, "documents").Arr? ==>
      var docs := Get(js, "documents").items;
      && r.Success? && |r.value| == |docs|
      && forall i :: 0 <= i < |docs| ==> r.value[i] == NormalizeId(docs[i])
  {
    if js.Undefined? || js.Null? then Failure(TypeError)
    else
      var docs := Get(js, "documents");
      if docs.Arr? then Success(seq(|docs.items|, i requires 0 <= i < |docs.items| => NormalizeId(docs.items[i])))
      else Success([])
  }

  /** `findAll()`: every document of the collection. */
  function FindAll(cfg: Config, response: Response): (c: Call<seq<Value>>)
    ensures c.sent == Send(cfg, "find", map["filter" := Obj(map[])], response).sent
    ensures Configured(cfg) && response.ok ==> c.result == Documents(response.body)
    ensures !(Configured(cfg) && response.ok) ==> c.result.Failure?
  {
    var sent := Send(cfg, "find", map["filter" := Obj(map[])], response);
    match sent.result
    case Failure(e) => Call(sent.sent, Failure(e))
    case Success(js) => Call(sent.sent, Documents(js))
  }

  /** `find(filter)`: a falsy filter stands for the empty filter `{}`. */
  function Find(cfg: Config, filter: Value, response: Response): (c: Call<seq<Value>>)
    ensures c.sent == Send(cfg, "find", map["filter" := if Truthy(filter) then filter else Obj(map[])], response).sent
    ensures Configured(cfg) && response.ok ==> c.result == Documents(response.body)
    ensures !(Configured(cfg) && response.ok) ==> c.result.Failure?
  {
    var sent := Send(cfg, "find", map["filter" := if Truthy(filter) then filter else Obj(map[])], response);
    match sent.result
    case Failure(e) => Call(sent.sent, Failure(e))
    case Success(js) => Call(sent.sent, Documents(js))
  }

  /** `insertOne(doc)`: the id the service assigned, unwrapped from `{ $oid }` when it is wrapped. */
  function InsertOne(cfg: Config, doc: Value, response: Response): (c: Call<Value>)
    ensures c.sent == Send(cfg, "insertOne", map["document" := doc], response).sent
    ensures !(Configured(cfg) && response.ok) ==> c.result.Failure?
    ensures Configured(cfg) && response.ok ==>
      var js := response.body;
      if js.Undefined? || js.Null? then c.result == Failure(TypeError)
      else
        var idObj := Get(js, "insertedId");
        c.result == Success(if Truthy(idObj) && Truthy(Get(idObj, "$oid")) then Get(idObj, "$oid") else idObj)
  {
    var sent := Send(cfg, "insertOne", map["document" := doc], response);
    match sent.result
    case Failure(e) => Call(sent.sent, Failure(e))
    case Success(js) =>
      if js.Undefined? || js.Null? then Call(sent.sent, Failure(TypeError))
      else
        var idObj := Get(js, "insertedId");
        Call(sent.sent, Success(if Truthy(idObj) && Truthy(Get(idObj, "$oid")) then Get(idObj, "$oid") else idObj))
  }

  /** `updateOne(filter, update)`: the response body as it comes. */
  function UpdateOne(cfg: Config, filter: Value, update: Value, response: Response): (c: Call<Value>)
    ensures !Configured(cfg) ==> c == Call(None, Failure(NotConfigured))
    ensures Configured(cfg) ==>
      && c.sent.Some? && c.sent.value.url == cfg.apiUrl.value + "/action/updateOne"
      && "filter" in c.sent.value.payload && c.sent.value.payload["filter"] == filter
      && "update" in c.sent.value.payload && c.sent.value.payload["update"] == update
    ensures Configured(cfg) && response.ok ==> c.result == Success(response.body)
  {
    Send(cfg, "updateOne", map["filter" := filter, "update" := update], response)
  }

  /** Without both URL and key no operation sends anything, and each fails with `NotConfigured`. */
  lemma UnconfiguredSendsNothing(cfg: Config, filter: Value, doc: Value, update: Value, response: Response)
    requires !Configured(cfg)
    ensures FindAll(cfg, response) == Call(None, Failure(NotConfigured))
    ensures Find(cfg, filter, response) == Call(None, Failure(NotConfigured))
    ensures InsertOne(cfg, doc, response) == Call(None, Failure(NotConfigured))
    ensures UpdateOne(cfg, filter, update, response) == Call(None, Failure(NotConfigured))
  {
  }

  /** A response that is not ok never yields a result. */
  lemma NotOkIsAlwaysAnError(cfg: Config, filter: Value, doc: Value, update: Value, response: Response)
    requires !response.ok
    ensures FindAll(cfg, response).result.Failure?
    ensures Find(cfg, filter, response).result.Failure?
    ensures InsertOne(cfg, doc, response).result.Failure?
    ensures UpdateOne(cfg, filter, update, response).result.Failure?
  {
  }
}
