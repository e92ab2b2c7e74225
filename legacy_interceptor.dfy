/** The interceptor of the original module. It has no opt-outs: every
    request is checked. Its key also covers the route parameters, and a
    rejected request is answered with a `{message: 'Duplicate request'}`
    value rather than an exception. */
module LegacyInterception {
  import opened Js
  import opened Config
  import opened MemoryStore
  import opened Interception
  import opened LegacyDedup

  /** What is fed to the hash: method, URL, headers, route parameters and
      body, in that order, absent parts as `{}`. */
  function LegacyKeyInput(c: Crypto, req: Request): (input: string)
    ensures |input| == |req.httpMethod| + |req.originalUrl| + |c.stringify(OrEmpty(req.headers))|
      + |c.stringify(OrEmpty(req.params))| + |c.stringify(OrEmpty(req.body))|
    ensures input[..|req.httpMethod| + |req.originalUrl|] == req.httpMethod + req.originalUrl
    ensures input[|input| - |c.stringify(OrEmpty(req.body))|..] == c.stringify(OrEmpty(req.body))
  {
    req.httpMethod + req.originalUrl + c.stringify(OrEmpty(req.headers)) + c.stringify(OrEmpty(req.params))
      + c.stringify(OrEmpty(req.body))
  }

  /** `generateKey(request)`: the digest of the request's input, which is
      the same with the query and the flag taken away. */
  function LegacyGenerateKey(c: Crypto, req: Request): (key: string)
    ensures key == c.sha256Hex(LegacyKeyInput(c, req.(query := None, skipRequestDeduplication := Undefined)))
  {
    c.sha256Hex(LegacyKeyInput(c, req))
  }

  const DuplicateMessage: Reply := Message("Duplicate request")

  /** `true` lets the downstream result through unchanged, `false` is the
      duplicate message; an engine error propagates. */
  function LegacyOnAdmission(admitted: Result<bool>, downstream: Result<Value>): (r: Reply)
    ensures r == Handled(downstream) <==> admitted == Ok(true)
    ensures r == DuplicateMessage <==> admitted == Ok(false)
    ensures r.Failed? <==> admitted.Err?
    ensures admitted.Err? ==> r.error == admitted.error
  {
    match admitted
    case Err(e) => Failed(e)
    case Ok(true) => Handled(downstream)
    case Ok(false) => DuplicateMessage
  }

  /** `intercept(context, next)`: the reply and the engine's slot afterwards. */
  function LegacyInterceptSpec(req: Request, c: Crypto, ttl: int, downstream: Result<Value>,
                               slot: LegacySlot, remoteGet: Result<Value>, remoteSet: Outcome): (r: (LegacySlot, Reply))
    ensures r.1 == Handled(downstream) || r.1 == DuplicateMessage || r.1.Failed?
    ensures r.1 != Handled(downstream) ==> r.0 == slot
    ensures slot.NoStorage? ==> r == (slot, Failed(UndefinedReceiver("get")))
    ensures slot.InMemory? ==> !r.1.Failed? && r.0.InMemory?
  {
    var (admitted, after) := LegacyProcessSpec(slot, LegacyGenerateKey(c, req), Marker, ttl, remoteGet, remoteSet);
    (after, LegacyOnAdmission(admitted, downstream))
  }

  /** The engine is asked about `(generateKey(request), 'request_exists',
      options.ttl)` and its answer decides the reply: a rejection is the
      duplicate message whatever the downstream handler would have produced. */
  lemma LegacyEngineDecides(req: Request, c: Crypto, ttl: int, downstream: Result<Value>,
                            slot: LegacySlot, remoteGet: Result<Value>, remoteSet: Outcome)
    ensures
      var engine := LegacyProcessSpec(slot, LegacyGenerateKey(c, req), Str("request_exists"), ttl, remoteGet, remoteSet);
      var r := LegacyInterceptSpec(req, c, ttl, downstream, slot, remoteGet, remoteSet);
      r.0 == engine.1 &&
      (engine.0 == Ok(false) ==> r.1 == Message("Duplicate request")) &&
      (engine.0 == Ok(true) ==> r.1 == Handled(downstream)) &&
      (engine.0.Err? ==> r.1 == Failed(engine.0.error))
  {
  }

  /** The request's `skipRequestDeduplication` flag is not looked at, and
      the query string is not part of the key. */
  lemma LegacyIgnoresFlagAndQuery(req: Request, c: Crypto, ttl: int, downstream: Result<Value>, slot: LegacySlot,
                                  remoteGet: Result<Value>, remoteSet: Outcome, flag: Value, query: Option<Json>)
    ensures LegacyInterceptSpec(req.(skipRequestDeduplication := flag, query := query), c, ttl, downstream, slot, remoteGet, remoteSet) ==
            LegacyInterceptSpec(req, c, ttl, downstream, slot, remoteGet, remoteSet)
  {
  }

  /** Absent or null headers, parameters and bodies hash exactly like `{}`. */
  lemma LegacyMissingPartsHashAsEmptyObject(c: Crypto, req: Request)
    ensures LegacyGenerateKey(c, req.(headers := None, params := None, body := None)) ==
            LegacyGenerateKey(c, req.(headers := Some(EmptyObject), params := Some(EmptyObject), body := Some(EmptyObject)))
    ensures LegacyGenerateKey(c, req.(params := Some(JNull))) == LegacyGenerateKey(c, req.(params := Some(EmptyObject)))
  {
  }

  /** Requests that differ only in their serialised route parameters feed
      different inputs to the hash, unlike in the current interceptor. */
  lemma ParamsDistinguishInputs(c: Crypto, r1: Request, r2: Request)
    requires r1.httpMethod == r2.httpMethod && r1.originalUrl == r2.originalUrl
    requires c.stringify(OrEmpty(r1.headers)) == c.stringify(OrEmpty(r2.headers))
    requires c.stringify(OrEmpty(r1.body)) == c.stringify(OrEmpty(r2.body))
    requires c.stringify(OrEmpty(r1.params)) != c.stringify(OrEmpty(r2.params))
    ensures LegacyKeyInput(c, r1) != LegacyKeyInput(c, r2)
  {
    var prefix := r1.httpMethod + r1.originalUrl + c.stringify(OrEmpty(r1.headers));
    var suffix := c.stringify(OrEmpty(r1.body));
    if LegacyKeyInput(c, r1) == LegacyKeyInput(c, r2) {
      MiddleDetermined(prefix, c.stringify(OrEmpty(r1.params)), c.stringify(OrEmpty(r2.params)), suffix);
    }
  }

  /** The same request sent twice to the in-process table: the first goes
      through to the handler, the second gets the duplicate message. */
  lemma LegacyRepeatedRequestIsDuplicate(s: MemState, req: Request, c: Crypto, ttl: int,
                                         d1: Result<Value>, d2: Result<Value>)
    requires LegacyGenerateKey(c, req) != "" && LegacyGenerateKey(c, req) !in s.cache
    ensures
      var first := LegacyInterceptSpec(req, c, ttl, d1, InMemory(s), Ok(Undefined), Pass);
      var second := LegacyInterceptSpec(req, c, ttl, d2, first.0, Ok(Undefined), Pass);
      first.1 == Handled(d1) && second.1 == DuplicateMessage
  {
    var key := LegacyGenerateKey(c, req);
    LegacyFirstSeenAdmitted(s, key, Marker, ttl);
    LegacySecondRequestRejected(s, key, Marker, ttl, Marker, ttl, Ok(Undefined), Pass);
  }

  class LegacyRequestDeduplicationInterceptor {
    const service: LegacyDeduplicationService
    const ttl: int
    const crypto: Crypto

    /** `options.ttl` is the only option the interceptor reads. */
    constructor (service: LegacyDeduplicationService, options: LegacyOptions, crypto: Crypto)
      ensures this.service == service && ttl == options.ttl && this.crypto == crypto
    {
      this.service := service;
      ttl := options.ttl;
      this.crypto := crypto;
    }

    method Intercept(req: Request, downstream: Result<Value>, remoteGet: Result<Value>, remoteSet: Outcome)
      returns (reply: Reply)
      requires service.statics.Valid()
      modifies service.statics.table
      ensures service.statics.Valid()
      ensures service.statics.storageKind == old(service.statics.storageKind) && service.statics.table == old(service.statics.table)
      ensures (service.Slot(), reply) ==
        LegacyInterceptSpec(req, crypto, ttl, downstream, old(service.Slot()), remoteGet, remoteSet)
    {
      var key := LegacyGenerateKey(crypto, req);
      var admitted := service.ProcessRequest(key, Marker, ttl, remoteGet, remoteSet);
      reply := LegacyOnAdmission(admitted, downstream);
    }
  }
}
