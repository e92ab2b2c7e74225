/** The interception step of the current module: it lets a request through
    untouched when its handler or the request itself opts out, and
    otherwise asks the engine to admit the request's key, answering a
    rejection with a 409 conflict and an admission with the downstream
    handler's own result. */
module Interception {
  import opened Js
  import opened Config
  import opened Adapters
  import opened Dedup

  /** A JSON value, as request headers, parameters and bodies are. */
  datatype Json =
    | JNull
    | JBool(b: bool)
    | JNum(n: int)
    | JStr(s: string)
    | JArr(items: seq<Json>)
    | JObj(members: seq<(string, Json)>)

  const EmptyObject: Json := JObj([])

  /** The parts of an HTTP request the interceptors read. A part that is
      absent (`undefined`) is `None`. */
  datatype Request = Request(
    httpMethod: string,
    originalUrl: string,
    headers: Option<Json>,
    query: Option<Json>,
    params: Option<Json>,
    body: Option<Json>,
    skipRequestDeduplication: Value)

  /** `JSON.stringify` and the hex digest of SHA-256 (FIPS 180-4). Both are
      deterministic functions the model does not look into; the digest of
      several `update` calls is the digest of their concatenation. */
  datatype Crypto = Crypto(stringify: Json -> string, sha256Hex: string -> string)

  /** `part ?? {}`: an absent or null part counts as the empty object. */
  function OrEmpty(part: Option<Json>): (j: Json)
    ensures part.None? || part == Some(JNull) ==> j == EmptyObject
    ensures part.Some? && part != Some(JNull) ==> j == part.value
  {
    if part.None? || part.value == JNull then EmptyObject else part.value
  }

  /** What is fed to the hash: method, URL, headers and body, in that order. */
  function KeyInput(c: Crypto, req: Request): (input: string)
    ensures |input| == |req.httpMethod| + |req.originalUrl| + |c.stringify(OrEmpty(req.headers))| + |c.stringify(OrEmpty(req.body))|
    ensures input[..|req.httpMethod| + |req.originalUrl|] == req.httpMethod + req.originalUrl
    ensures input[|input| - |c.stringify(OrEmpty(req.body))|..] == c.stringify(OrEmpty(req.body))
  {
    req.httpMethod + req.originalUrl + c.stringify(OrEmpty(req.headers)) + c.stringify(OrEmpty(req.body))
  }

  /** `generateKey(request)`: the digest of the request's input, which is
      the same with the query, the route parameters and the opt-out flag
      taken away. */
  function GenerateKey(c: Crypto, req: Request): (key: string)
    ensures key == c.sha256Hex(KeyInput(c, req.(query := None, params := None, skipRequestDeduplication := Undefined)))
  {
    c.sha256Hex(KeyInput(c, req))
  }

  /** The marker the interceptors store for a key. */
  const Marker: Value := Str("request_exists")

  const Conflict: int := 409

  /** The body of the conflict exception. */
  datatype ConflictBody = ConflictBody(status: int, error: string)

  /** What a client of the pipeline sees: the downstream handler's own result
      (value or error), an HTTP exception, a failure of the engine, or (in
      the original interceptor) an emitted message object. */
  datatype Reply =
    | Handled(result: Result<Value>)
    | HttpException(status: int, response: ConflictBody)
    | Failed(error: Error)
    | Message(message: string)

  const DuplicateReply: Reply := HttpException(Conflict, ConflictBody(Conflict, "Duplicate request"))

  datatype Route = PassThrough | Check(key: string)

  /** The opt-outs come first: skip metadata on the handler, then the
      request's own flag; otherwise the request's key is checked. */
  function RouteOf(skipMetadata: bool, c: Crypto, req: Request): (r: Route)
    ensures r.PassThrough? <==> skipMetadata || Truthy(req.skipRequestDeduplication)
    ensures r.Check? ==> r.key == GenerateKey(c, req)
  {
    if skipMetadata || Truthy(req.skipRequestDeduplication) then PassThrough
    else Check(GenerateKey(c, req))
  }

  /** The reply to the engine's answer: `false` is a 409 conflict and `true`
      is the downstream result unchanged; an engine error propagates. */
  function OnAdmission(admitted: Result<bool>, downstream: Result<Value>): (r: Reply)
    ensures r == Handled(downstream) <==> admitted == Ok(true)
    ensures r == DuplicateReply <==> admitted == Ok(false)
    ensures r.Failed? <==> admitted.Err?
    ensures admitted.Err? ==> r.error == admitted.error
  {
    match admitted
    case Err(e) => Failed(e)
    case Ok(true) => Handled(downstream)
    case Ok(false) => DuplicateReply
  }

  /** `intercept(context, next)`: the reply and the engine's slot afterwards. */
  function InterceptSpec(skipMetadata: bool, req: Request, c: Crypto, ttl: Option<int>, downstream: Result<Value>,
                         slot: Option<AdapterView>, getFault: Option<Error>, setFault: Option<Error>): (r: (Reply, Option<AdapterView>))
    ensures skipMetadata || Truthy(req.skipRequestDeduplication) ==> r == (Handled(downstream), slot)
    ensures !skipMetadata && !Truthy(req.skipRequestDeduplication) && slot.None? ==>
      r == (Failed(UndefinedReceiver("get")), slot)
    ensures r.1.Some? <==> slot.Some?
    ensures r.0 == DuplicateReply || r.0.Failed? ==> r.1 == slot
  {
    match RouteOf(skipMetadata, c, req)
    case PassThrough => (Handled(downstream), slot)
    case Check(key) =>
      var (admitted, after) := ProcessRequestSpec(slot, key, Marker, ttl, getFault, setFault);
      (OnAdmission(admitted, downstream), after)
  }

  /** With skip metadata on the handler, the downstream result is returned
      and the store is not touched, whatever the store would have done. */
  lemma SkipMetadataPassesThrough(req: Request, c: Crypto, ttl: Option<int>, downstream: Result<Value>,
                                  slot: Option<AdapterView>, getFault: Option<Error>, setFault: Option<Error>)
    ensures InterceptSpec(true, req, c, ttl, downstream, slot, getFault, setFault) == (Handled(downstream), slot)
  {
  }

  /** A truthy `skipRequestDeduplication` on the request does the same. */
  lemma RequestFlagPassesThrough(skipMetadata: bool, req: Request, c: Crypto, ttl: Option<int>, downstream: Result<Value>,
                                 slot: Option<AdapterView>, getFault: Option<Error>, setFault: Option<Error>)
    requires Truthy(req.skipRequestDeduplication)
    ensures InterceptSpec(skipMetadata, req, c, ttl, downstream, slot, getFault, setFault) == (Handled(downstream), slot)
  {
  }

  /** Otherwise the engine is asked about `(generateKey(request),
      'request_exists', options.ttl)`, and its answer decides the reply: a
      rejection is the 409 conflict whatever the downstream handler would
      have produced, an admission is that handler's result unchanged. */
  lemma EngineDecides(req: Request, c: Crypto, ttl: Option<int>, downstream: Result<Value>,
                      slot: Option<AdapterView>, getFault: Option<Error>, setFault: Option<Error>)
    requires !Truthy(req.skipRequestDeduplication)
    ensures
      var engine := ProcessRequestSpec(slot, GenerateKey(c, req), Str("request_exists"), ttl, getFault, setFault);
      var r := InterceptSpec(false, req, c, ttl, downstream, slot, getFault, setFault);
      r.1 == engine.1 &&
      (engine.0 == Ok(false) ==> r.0 == HttpException(409, ConflictBody(409, "Duplicate request"))) &&
      (engine.0 == Ok(true) ==> r.0 == Handled(downstream)) &&
      (engine.0.Err? ==> r.0 == Failed(engine.0.error))
  {
  }

  /** The key depends on method, URL, headers and body only: query and
      route parameters are not part of it, nor is the opt-out flag. */
  lemma KeyIgnoresQueryAndParams(c: Crypto, req: Request, query: Option<Json>, params: Option<Json>, flag: Value)
    ensures GenerateKey(c, req.(query := query, params := params, skipRequestDeduplication := flag)) == GenerateKey(c, req)
  {
  }

  /** Absent or null headers and bodies hash exactly like `{}`. */
  lemma MissingPartsHashAsEmptyObject(c: Crypto, req: Request)
    ensures GenerateKey(c, req.(headers := None)) == GenerateKey(c, req.(headers := Some(EmptyObject)))
    ensures GenerateKey(c, req.(body := None)) == GenerateKey(c, req.(body := Some(EmptyObject)))
    ensures GenerateKey(c, req.(headers := Some(JNull), body := Some(JNull))) ==
            GenerateKey(c, req.(headers := Some(EmptyObject), body := Some(EmptyObject)))
  {
  }

  /** A string is determined by what surrounds it: equal prefixes and
      suffixes leave equal middles. */
  lemma MiddleDetermined(prefix: string, x: string, y: string, suffix: string)
    requires prefix + x + suffix == prefix + y + suffix
    ensures x == y
  {
    var whole := prefix + x + suffix;
    assert |x| == |y|;
    forall i | 0 <= i < |x|
      ensures x[i] == y[i]
    {
      assert x[i] == whole[|prefix| + i];
      assert y[i] == (prefix + y + suffix)[|prefix| + i];
    }
  }

  /** Two requests with the same method, URL and serialised headers whose
      serialised bodies differ feed different inputs to the hash. */
  lemma DistinctPartsGiveDistinctInputs(c: Crypto, r1: Request, r2: Request)
    requires r1.httpMethod == r2.httpMethod && r1.originalUrl == r2.originalUrl
    requires c.stringify(OrEmpty(r1.headers)) == c.stringify(OrEmpty(r2.headers))
    requires c.stringify(OrEmpty(r1.body)) != c.stringify(OrEmpty(r2.body))
    ensures KeyInput(c, r1) != KeyInput(c, r2)
  {
    var prefix := r1.httpMethod + r1.originalUrl + c.stringify(OrEmpty(r1.headers));
    var b1, b2 := c.stringify(OrEmpty(r1.body)), c.stringify(OrEmpty(r2.body));
    if KeyInput(c, r1) == KeyInput(c, r2) {
      assert prefix + b1 + "" == prefix + b2 + "";
      MiddleDetermined(prefix, b1, b2, "");
    }
  }

  /** Two requests with the same method, serialised headers and serialised
      body that are sent to different URLs (`/items` and `/items2`, say) feed
      different inputs to the hash. */
  lemma DistinctUrlsGiveDistinctInputs(c: Crypto, r1: Request, r2: Request)
    requires r1.httpMethod == r2.httpMethod && r1.originalUrl != r2.originalUrl
    requires c.stringify(OrEmpty(r1.headers)) == c.stringify(OrEmpty(r2.headers))
    requires c.stringify(OrEmpty(r1.body)) == c.stringify(OrEmpty(r2.body))
    ensures KeyInput(c, r1) != KeyInput(c, r2)
  {
    var rest := c.stringify(OrEmpty(r1.headers)) + c.stringify(OrEmpty(r1.body));
    if KeyInput(c, r1) == KeyInput(c, r2) {
      assert KeyInput(c, r1) == r1.httpMethod + r1.originalUrl + rest;
      assert KeyInput(c, r2) == r1.httpMethod + r2.originalUrl + rest;
      MiddleDetermined(r1.httpMethod, r1.originalUrl, r2.originalUrl, rest);
    }
  }

  /** The interceptor of the current module. */
  class RequestDeduplicationInterceptor {
    const service: RequestDeduplicationService
    const options: Options
    const crypto: Crypto

    constructor (service: RequestDeduplicationService, options: Options, crypto: Crypto)
      ensures this.service == service && this.options == options && this.crypto == crypto
    {
      this.service := service;
      this.options := options;
      this.crypto := crypto;
    }

    /** `downstream` is what `next.handle()` yields when it is called; the
        faults are what the store does when it is asked. */
    method Intercept(skipMetadata: bool, req: Request, downstream: Result<Value>,
                     getFault: Option<Error>, setFault: Option<Error>) returns (reply: Reply)
      modifies service.StoreFrame()
      ensures service.statics.storageAdapter == old(service.statics.storageAdapter)
      ensures (reply, service.Slot()) ==
        InterceptSpec(skipMetadata, req, crypto, options.ttl.Read(), downstream, old(service.Slot()), getFault, setFault)
    {
      if skipMetadata {
        return Handled(downstream);
      }
      var key := GenerateKey(crypto, req);
      if Truthy(req.skipRequestDeduplication) {
        return Handled(downstream);
      }
      var admitted := service.ProcessRequest(key, Marker, options.ttl.Read(), getFault, setFault);
      reply := OnAdmission(admitted, downstream);
    }
  }

  /** The same request sent twice in a row, on a backend whose `get` returns
      absent keys: the first goes through to the handler, the second is the
      409 conflict. */
  lemma RepeatedRequestConflicts(kind: Backend, s: Keyv.KeyvState, req: Request, c: Crypto, ttl: Option<int>,
                                 d1: Result<Value>, d2: Result<Value>)
    requires kind != MemcachedBackend && !Keyv.Live(s, GenerateKey(c, req))
    requires !Truthy(req.skipRequestDeduplication)
    ensures
      var slot := Some(AdapterView(kind, Some(s)));
      var first := InterceptSpec(false, req, c, ttl, d1, slot, None, None);
      var second := InterceptSpec(false, req, c, ttl, d2, first.1, None, None);
      first.0 == Handled(d1) && second.0 == DuplicateReply
  {
    var slot := Some(AdapterView(kind, Some(s)));
    var key := GenerateKey(c, req);
    FirstSeenAdmitted(kind, s, key, Marker, ttl);
    SecondRequestRejected(slot, key, Marker, ttl, None, None, Marker, ttl);
  }

  /** Under memcached the first request for a key is neither admitted nor
      rejected: it fails with the adapter's "not found" error, and the store
      stays as it was, so every repetition fails the same way. */
  lemma MemcachedRequestFails(s: Keyv.KeyvState, req: Request, c: Crypto, ttl: Option<int>,
                              downstream: Result<Value>, setFault: Option<Error>)
    requires !Keyv.Live(s, GenerateKey(c, req))
    requires !Truthy(req.skipRequestDeduplication)
    ensures
      var slot := Some(AdapterView(MemcachedBackend, Some(s)));
      InterceptSpec(false, req, c, ttl, downstream, slot, None, setFault) ==
        (Failed(NotFound(GenerateKey(c, req))), slot)
  {
    MemcachedFirstSeenFails(s, GenerateKey(c, req), Marker, ttl, setFault);
  }
}
