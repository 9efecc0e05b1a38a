/** The request handlers: each request is parsed, possibly audited, routed
    to its mapping class, served, and answered with a JSON body and a
    status code. Every OperationError raised on the way is turned into an
    OperationOutcome answer and marks the request's audit event as failed;
    any other exception escapes the handler. */
module RequestHandlers {
  import opened Values
  import opened Resources
  import opened Exceptions
  import opened RequestQuery
  import opened RequestParser

  /** A row of a mapping class, as the handlers pass it around. */
  type Item = nat

  /** What a handler needs of a mapping class: `get`, `_get_item_from_pk`,
      `create_from_resource`, `update_from_resource`, `_delete_item`, its
      `audit_delete` hook, and `to_fhir().as_json()` of a row. */
  datatype ModelOps = ModelOps(
    get: FhirRequestQuery -> Result<Value>,
    fromPk: Option<string> -> Result<Item>,
    create: (Resource, FhirRequestQuery) -> Result<Item>,
    update: (Item, Resource, FhirRequestQuery) -> Result<Item>,
    deleteRow: Item -> Result<()>,
    auditDelete: Option<(Item, Option<FhirRequestQuery>) -> AuditEvent>,
    render: Item -> Result<Value>)

  /** The server the handlers run in: the URL codec, the mapping classes
      (`None` when importing them raises ConfigurationError), the FHIR
      resource classes, the handler's `audit_request` hook, the JSON text of
      an audit event, the DEBUG setting and the traceback text it adds. */
  datatype Server = Server(
    codec: UrlCodec,
    models: Option<string -> Option<ModelOps>>,
    resources: string -> Option<ResourceClass>,
    auditRequest: Option<FhirRequestQuery -> AuditEvent>,
    auditText: AuditEvent -> string,
    debug: bool,
    traceback: string)

  /** A response body: JSON, an OperationOutcome, or a (body, status) pair
      nested inside the body. */
  datatype Reply = Json(value: Value) | OutcomeJson(outcome: OperationOutcome) | Pair(inner: Reply, status: int)

  /** How a step of a handler ends: it goes on with a value, raises an
      OperationError, or raises another exception. */
  datatype Flow<+T> = Next(value: T) | Fail(op: OperationError) | Raise(error: Error)
  {
    predicate IsFailure() { !Next? }
    function PropagateFailure<U>(): Flow<U> requires !Next? { if Fail? then Fail(op) else Raise(error) }
    function Extract(): T requires Next? { value }
  }

  /** An exception reaching the handler's `except OperationError`. */
  function Caught<T>(e: Error): (f: Flow<T>)
    ensures e.Operation? ==> f == Fail(e.op)
    ensures !e.Operation? ==> f == Raise(e)
  {
    if e.Operation? then Fail(e.op) else Raise(e)
  }

  // ---------------------------------------------------------------- the steps

  /** `parse_url`: a QueryValidationError becomes a 400 "invalid" error
      carrying its message. */
  function ParseStep(url: string, codec: UrlCodec): (f: Flow<FhirRequestQuery>)
    ensures Parse(url, codec).Ok? ==> f == Next(Parse(url, codec).value)
    ensures Parse(url, codec).Err? ==> f == Fail(OperationError("error", "invalid", Some(Describe(Parse(url, codec).error)), 400))
  {
    match Parse(url, codec)
    case Ok(q) => Next(q)
    case Err(e) =>
      if e.QueryValidation? then Fail(OperationError("error", "invalid", Some(Describe(e)), 400))
      else Caught(e)
  }

  /** `_audit_request`: without a hook nothing happens; otherwise an
      outcome other than "0" raises a 403 "security" error carrying the
      outcome description. */
  function AuditCheck(hook: Option<FhirRequestQuery -> AuditEvent>, q: FhirRequestQuery): (f: Flow<()>)
    ensures f.Raise? == false
    ensures f.Fail? <==> hook.Some? && hook.value(q).outcome != AuditSuccess
    ensures f.Fail? ==> f.op == OperationError("error", "security", hook.value(q).outcomeDesc, 403)
  {
    if hook.Some? && hook.value(q).outcome != AuditSuccess then
      Fail(OperationError("error", "security", hook.value(q).outcomeDesc, 403))
    else Next(())
  }

  /** The request's audit event after `_audit_request`: with a hook, the
      hook's outcome and description are appended to the details. */
  function AuditRecord(hook: Option<FhirRequestQuery -> AuditEvent>, q: FhirRequestQuery, ev: AuditEvent): (ev': AuditEvent)
    ensures hook.None? ==> ev' == ev
    ensures hook.Some? ==> ev'.outcome == ev.outcome && ev'.outcomeDesc == ev.outcomeDesc &&
                           ev'.details == ev.details + [Detail("AuditOutcome", Some(hook.value(q).outcome)),
                                                        Detail("AuditDescription", hook.value(q).outcomeDesc)]
  {
    if hook.None? then ev
    else
      var a := hook.value(q);
      ev.(details := ev.details + [Detail("AuditOutcome", Some(a.outcome)), Detail("AuditDescription", a.outcomeDesc)])
  }

  /** `import_models`: a ConfigurationError becomes a 500 "exception" error. */
  function ImportStep(models: Option<string -> Option<ModelOps>>): (f: Flow<string -> Option<ModelOps>>)
    ensures models.Some? ==> f == Next(models.value)
    ensures models.None? ==> f == Fail(OperationError("error", "exception", Some("The server is improprly configured"), 500))
  {
    if models.Some? then Next(models.value)
    else Fail(OperationError("error", "exception", Some("The server is improprly configured"), 500))
  }

  /** `get_resource`: an unknown name becomes a 404 "not-found" error; a
      request without a resource name makes `getattr` raise TypeError. */
  function LookupStep<T>(table: string -> Option<T>, name: Option<string>): (f: Flow<T>)
    ensures name.None? ==> f == Raise(Raised(TypeError, "getattr(): attribute name must be string"))
    ensures name.Some? && table(name.value).Some? ==> f == Next(table(name.value).value)
    ensures name.Some? && table(name.value).None? ==>
              f == Fail(OperationError("error", "not-found", Some("Resource \"" + name.value + "\" does not exist."), 404))
  {
    if name.None? then Raise(Raised(TypeError, "getattr(): attribute name must be string"))
    else if table(name.value).None? then
      Fail(OperationError("error", "not-found", Some("Resource \"" + name.value + "\" does not exist."), 404))
    else Next(table(name.value).value)
  }

  /** The diagnostics of an unexpected exception: its message, followed by
      the traceback under DEBUG. */
  function Diagnostics(e: Error, server: Server): string
  {
    Describe(e) + (if server.debug then " " + server.traceback else "")
  }

  /** `fetch_items`: MappingValidationError and FHIRValidationError give 404
      "not-found", AuthorizationError gives 500 "security" with the audit
      event's JSON, and any other exception 500 "exception". */
  function FetchStep(ops: ModelOps, q: FhirRequestQuery, server: Server): (f: Flow<Value>)
    ensures f.Raise? == false
    ensures ops.get(q).Ok? <==> f.Next?
    ensures f.Next? ==> f.value == ops.get(q).value
    ensures ops.get(q).Err? && (ops.get(q).error.MappingValidation? || ops.get(q).error.FhirValidation?) ==>
              f == Fail(OperationError("error", "not-found", Some(Describe(ops.get(q).error)), 404))
    ensures ops.get(q).Err? && ops.get(q).error.Authorization? ==>
              f == Fail(OperationError("error", "security", Some(server.auditText(ops.get(q).error.auditEvent)), 500))
    ensures ops.get(q).Err? && !(ops.get(q).error.MappingValidation? || ops.get(q).error.FhirValidation? || ops.get(q).error.Authorization?) ==>
              f == Fail(OperationError("error", "exception", Some(Diagnostics(ops.get(q).error, server)), 500))
    ensures f.Fail? ==> f.op.statusCode in {404, 500}
  {
    match ops.get(q)
    case Ok(v) => Next(v)
    case Err(e) =>
      if e.MappingValidation? || e.FhirValidation? then Fail(OperationError("error", "not-found", Some(Describe(e)), 404))
      else if e.Authorization? then Fail(OperationError("error", "security", Some(server.auditText(e.auditEvent)), 500))
      else Fail(OperationError("error", "exception", Some(Diagnostics(e, server)), 500))
  }

  /** `request_body_to_resource`: a body the resource class rejects gives
      404 "value". */
  function BodyStep(cls: ResourceClass, body: Value): (f: Flow<Resource>)
    ensures f.Raise? == false
    ensures f.Fail? ==> f.op == OperationError("error", "value", Some("Invalid resource"), 404)
    ensures f.Next? <==> body.Dict? && cls.construct(body.entries, true).Some?
  {
    if body.Dict? && cls.construct(body.entries, true).Some? then Next(cls.construct(body.entries, true).value)
    else Fail(OperationError("error", "value", Some("Invalid resource"), 404))
  }

  /** `create` and `update`: any exception gives 422 "invalid". */
  function SaveStep(saved: Result<Item>, server: Server): (f: Flow<Item>)
    ensures f.Raise? == false
    ensures saved.Ok? ==> f == Next(saved.value)
    ensures saved.Err? ==> f == Fail(OperationError("error", "invalid", Some(Diagnostics(saved.error, server)), 422))
  {
    match saved
    case Ok(item) => Next(item)
    case Err(e) => Fail(OperationError("error", "invalid", Some(Diagnostics(e, server)), 422))
  }

  function OptText(s: Option<string>): string
  {
    if s.Some? then s.value else "None"
  }

  function PkText(pk: Option<Value>): string
  {
    if pk.Some? then PyStr(pk.value) else "None"
  }

  /** `_get_item_from_pk(resourceId)`: DoesNotExistError gives 404
      "not-found" naming the type and key it carries. */
  function PkStep(ops: ModelOps, id: Option<string>): (f: Flow<Item>)
    ensures ops.fromPk(id).Ok? ==> f == Next(ops.fromPk(id).value)
    ensures ops.fromPk(id).Err? && ops.fromPk(id).error.DoesNotExist? ==>
              var e := ops.fromPk(id).error;
              f == Fail(OperationError("error", "not-found", Some(OptText(e.resourceType) + "/" + PkText(e.pk) + " was not found on the server."), 404))
    ensures ops.fromPk(id).Err? && !ops.fromPk(id).error.DoesNotExist? ==> f == Caught(ops.fromPk(id).error)
  {
    match ops.fromPk(id)
    case Ok(item) => Next(item)
    case Err(e) =>
      if e.DoesNotExist? then
        Fail(OperationError("error", "not-found", Some(OptText(e.resourceType) + "/" + PkText(e.pk) + " was not found on the server."), 404))
      else Caught(e)
  }

  /** A call outside any inner `try`: only an OperationError is caught. */
  function Plain<T>(r: Result<T>): (f: Flow<T>)
    ensures r.Ok? ==> f == Next(r.value)
    ensures r.Err? ==> f == Caught(r.error)
  {
    match r
    case Ok(v) => Next(v)
    case Err(e) => Caught(e)
  }

  // ---------------------------------------------------------------- the flows

  /** The event `create_audit_event(url)` starts a request with. */
  function InitialAudit(url: string): AuditEvent
  {
    AuditEvent(AuditSuccess, None, [Detail("query string", Some(url))])
  }

  /** GET: parse, audit the request, import the mappings, route, fetch;
      the answer nests the fetched pair. */
  function GetFlow(url: string, server: Server): Flow<Reply>
  {
    var routed :- Routed(url, server);
    var v :- FetchStep(routed.1, routed.0, server);
    Next(Pair(Json(v), 200))
  }

  /** The stages GET and DELETE share: parse, audit the request, import
      the mappings and route to the resource's mapping class. */
  function Routed(url: string, server: Server): Flow<(FhirRequestQuery, ModelOps)>
  {
    var q :- ParseStep(url, server.codec);
    var audited :- AuditCheck(server.auditRequest, q);
    Route(server.models, q)
  }

  /** Import the mappings and route the query to its mapping class. */
  function Route(models: Option<string -> Option<ModelOps>>, q: FhirRequestQuery): Flow<(FhirRequestQuery, ModelOps)>
  {
    var table :- ImportStep(models);
    var ops :- LookupStep(table, q.resource);
    Next((q, ops))
  }

  /** POST: parse, import, route to the mapping and to the resource class,
      read the body, create, and render the new row. */
  function PostFlow(url: string, body: Value, server: Server): Flow<Reply>
  {
    var q :- ParseStep(url, server.codec);
    var models :- ImportStep(server.models);
    var ops :- LookupStep(models, q.resource);
    var cls :- LookupStep(server.resources, q.resource);
    var res :- BodyStep(cls, body);
    var item :- SaveStep(ops.create(res, q), server);
    var v :- Plain(ops.render(item));
    Next(Json(v))
  }

  /** PUT: parse, import, route, find the row, then route to the resource
      class, read the body, update, and render the row. */
  function PutFlow(url: string, body: Value, server: Server): Flow<Reply>
  {
    var q :- ParseStep(url, server.codec);
    var models :- ImportStep(server.models);
    var ops :- LookupStep(models, q.resource);
    var item :- PkStep(ops, q.resourceId);
    var cls :- LookupStep(server.resources, q.resource);
    var res :- BodyStep(cls, body);
    var updated :- SaveStep(ops.update(item, res, q), server);
    var v :- Plain(ops.render(updated));
    Next(Json(v))
  }

  /** The answer of a successful DELETE. */
  const AllOk: OperationOutcome := OperationOutcome([Issue("information", "informational", None, Some("All ok"))])

  /** DELETE: parse, audit the request, import, route, find the row and
      delete it through `_delete_item`. */
  function DeleteFlow(url: string, server: Server): Flow<Reply>
  {
    var routed :- Routed(url, server);
    DeleteRow(routed.1, routed.0)
  }

  /** The row stage of DELETE: find the row and delete it. */
  function DeleteRow(ops: ModelOps, q: FhirRequestQuery): Flow<Reply>
  {
    var item :- PkStep(ops, q.resourceId);
    var deleted :- Plain(ops.deleteRow(item));
    Next(OutcomeJson(AllOk))
  }

  /** What `handle` returns for a flow: the answer and its status, the
      OperationOutcome of a caught error and the error's status, or the
      escaping exception. */
  function Respond(flow: Flow<Reply>, status: int): (r: Result<(Reply, int)>)
    ensures flow.Next? ==> r == Ok((flow.value, status))
    ensures flow.Fail? ==> r == Ok((OutcomeJson(ToFhir(flow.op)), flow.op.statusCode))
    ensures flow.Raise? ==> r == Err(flow.error)
  {
    match flow
    case Next(reply) => Ok((reply, status))
    case Fail(op) => Ok((OutcomeJson(ToFhir(op)), op.statusCode))
    case Raise(e) => Err(e)
  }

  /** The audit event at the end of a request: marked "4" when an
      OperationError was caught. */
  function Closed(flow: Flow<Reply>, ev: AuditEvent): (ev': AuditEvent)
    ensures flow.Fail? ==> ev' == ev.(outcome := AuditFailure)
    ensures !flow.Fail? ==> ev' == ev
  {
    if flow.Fail? then ev.(outcome := AuditFailure) else ev
  }

  /** The event of a GET or DELETE request after the request audit. */
  function AuditedEvent(url: string, server: Server): AuditEvent
  {
    match Parse(url, server.codec)
    case Ok(q) => AuditRecord(server.auditRequest, q, InitialAudit(url))
    case Err(_) => InitialAudit(url)
  }

  // ---------------------------------------------------------------- the handler object

  class RequestHandler {
    /** `self.query`, once a URL has been parsed. */
    var query: Option<FhirRequestQuery>
    /** `self.auditEvent`. */
    var auditEvent: AuditEvent
    /** `self.auditEventDesc`: the status code of the caught error. */
    var auditEventDesc: Option<int>
    /** `self.body`. */
    var body: Option<Value>

    constructor ()
      ensures query == None && auditEvent == AuditEvent(AuditSuccess, None, []) && auditEventDesc == None && body == None
    {
      query := None;
      auditEvent := AuditEvent(AuditSuccess, None, []);
      auditEventDesc := None;
      body := None;
    }

    /** `self.parse_url(url)`: the query is stored only when parsing succeeds. */
    method ParseRequest(url: string, codec: UrlCodec) returns (r: Flow<FhirRequestQuery>)
      modifies this
      ensures r == ParseStep(url, codec)
      ensures query == (if r.Next? then Some(r.value) else old(query))
      ensures auditEvent == old(auditEvent) && auditEventDesc == old(auditEventDesc) && body == old(body)
    {
      var parsed := ParseUrl(url, codec);
      if parsed.Err? {
        return Fail(OperationError("error", "invalid", Some(Describe(parsed.error)), 400));
      }
      query := Some(parsed.value);
      r := Next(parsed.value);
    }

    /** `self._audit_request(query)`. */
    method AuditRequest(hook: Option<FhirRequestQuery -> AuditEvent>, q: FhirRequestQuery) returns (r: Flow<()>)
      modifies this
      ensures r == AuditCheck(hook, q) && auditEvent == AuditRecord(hook, q, old(auditEvent))
      ensures query == old(query) && auditEventDesc == old(auditEventDesc) && body == old(body)
    {
      r := Next(());
      if hook.Some? {
        var event := hook.value(q);
        auditEvent := auditEvent.(details := auditEvent.details + [Detail("AuditOutcome", Some(event.outcome))]);
        auditEvent := auditEvent.(details := auditEvent.details + [Detail("AuditDescription", event.outcomeDesc)]);
        if event.outcome != AuditSuccess {
          r := Fail(OperationError("error", "security", event.outcomeDesc, 403));
        }
      }
    }

    /** The `except OperationError` of `handle`. */
    method Answer(flow: Flow<Reply>, status: int) returns (r: Result<(Reply, int)>)
      modifies this
      ensures r == Respond(flow, status) && auditEvent == Closed(flow, old(auditEvent))
      ensures auditEventDesc == (if flow.Fail? then Some(flow.op.statusCode) else old(auditEventDesc))
      ensures query == old(query) && body == old(body)
    {
      if flow.Fail? {
        auditEvent := auditEvent.(outcome := AuditFailure);
        auditEventDesc := Some(flow.op.statusCode);
      }
      r := Respond(flow, status);
    }

    /** `GetRequestHandler.handle(url)`. */
    method HandleGet(url: string, server: Server) returns (r: Result<(Reply, int)>)
      modifies this
      ensures r == Respond(GetFlow(url, server), 200)
      ensures auditEvent == Closed(GetFlow(url, server), AuditedEvent(url, server))
      ensures auditEventDesc == (if GetFlow(url, server).Fail? then Some(GetFlow(url, server).op.statusCode) else old(auditEventDesc))
      ensures query == (if Parse(url, server.codec).Ok? then Some(Parse(url, server.codec).value) else old(query))
    {
      auditEvent := InitialAudit(url);
      var flow := Steps(url, server);
      r := Answer(flow, 200);
    }

    /** The body of the GET handler's `try`. */
    method Steps(url: string, server: Server) returns (flow: Flow<Reply>)
      requires auditEvent == InitialAudit(url)
      modifies this
      ensures flow == GetFlow(url, server) && auditEvent == AuditedEvent(url, server)
      ensures query == (if Parse(url, server.codec).Ok? then Some(Parse(url, server.codec).value) else old(query))
      ensures auditEventDesc == old(auditEventDesc) && body == old(body)
    {
      var q := ParseRequest(url, server.codec);
      if !q.Next? {
        return q.PropagateFailure();
      }
      var audited := AuditRequest(server.auditRequest, q.value);
      if !audited.Next? {
        return audited.PropagateFailure();
      }
      var models := ImportStep(server.models);
      if !models.Next? {
        return models.PropagateFailure();
      }
      var ops := LookupStep(models.value, q.value.resource);
      if !ops.Next? {
        return ops.PropagateFailure();
      }
      var items := FetchStep(ops.value, q.value, server);
      if !items.Next? {
        return items.PropagateFailure();
      }
      flow := Next(Pair(Json(items.value), 200));
    }

    /** `PostRequestHandler.handle(url, body)`. */
    method HandlePost(url: string, body: Value, server: Server) returns (r: Result<(Reply, int)>)
      modifies this
      ensures r == Respond(PostFlow(url, body, server), 201)
      ensures auditEvent == Closed(PostFlow(url, body, server), InitialAudit(url))
      ensures auditEventDesc == (if PostFlow(url, body, server).Fail? then Some(PostFlow(url, body, server).op.statusCode) else old(auditEventDesc))
      ensures this.body == Some(body)
      ensures query == (if Parse(url, server.codec).Ok? then Some(Parse(url, server.codec).value) else old(query))
    {
      auditEvent := InitialAudit(url);
      this.body := Some(body);
      var q := ParseRequest(url, server.codec);
      var flow: Flow<Reply>;
      if !q.Next? {
        flow := q.PropagateFailure();
      } else {
        flow := PostFlow(url, body, server);
      }
      r := Answer(flow, 201);
    }

    /** `PutRequestHandler.handle(url, body)`. */
    method HandlePut(url: string, body: Value, server: Server) returns (r: Result<(Reply, int)>)
      modifies this
      ensures r == Respond(PutFlow(url, body, server), 202)
      ensures auditEvent == Closed(PutFlow(url, body, server), InitialAudit(url))
      ensures auditEventDesc == (if PutFlow(url, body, server).Fail? then Some(PutFlow(url, body, server).op.statusCode) else old(auditEventDesc))
      ensures this.body == Some(body)
      ensures query == (if Parse(url, server.codec).Ok? then Some(Parse(url, server.codec).value) else old(query))
    {
      auditEvent := InitialAudit(url);
      this.body := Some(body);
      var q := ParseRequest(url, server.codec);
      var flow: Flow<Reply>;
      if !q.Next? {
        flow := q.PropagateFailure();
      } else {
        flow := PutFlow(url, body, server);
      }
      r := Answer(flow, 202);
    }

    /** `DeleteRequestHandler.handle(url)`. */
    method HandleDelete(url: string, server: Server) returns (r: Result<(Reply, int)>)
      modifies this
      ensures r == Respond(DeleteFlow(url, server), 200)
      ensures auditEvent == Closed(DeleteFlow(url, server), AuditedEvent(url, server))
      ensures auditEventDesc == (if DeleteFlow(url, server).Fail? then Some(DeleteFlow(url, server).op.statusCode) else old(auditEventDesc))
      ensures query == (if Parse(url, server.codec).Ok? then Some(Parse(url, server.codec).value) else old(query))
      ensures body == old(body)
    {
      auditEvent := InitialAudit(url);
      var q := ParseRequest(url, server.codec);
      var flow: Flow<Reply>;
      if !q.Next? {
        flow := q.PropagateFailure();
      } else {
        var audited := AuditRequest(server.auditRequest, q.value);
        if !audited.Next? {
          flow := audited.PropagateFailure();
        } else {
          flow := DeleteFlow(url, server);
        }
      }
      r := Answer(flow, 200);
    }
  }

  // ---------------------------------------------------------------- properties of the flows

  /** A request that does not parse is answered 400 "invalid" by every
      handler, with the parser's message. */
  lemma ParseFailureIs400(url: string, body: Value, server: Server)
    requires Parse(url, server.codec).Err?
    ensures var op := OperationError("error", "invalid", Some(Describe(Parse(url, server.codec).error)), 400);
            GetFlow(url, server) == Fail(op) && PostFlow(url, body, server) == Fail(op) &&
            PutFlow(url, body, server) == Fail(op) && DeleteFlow(url, server) == Fail(op)
  {
  }

  /** With the mappings unavailable, a parsed and authorized request is
      answered 500 "exception"; an unknown resource name is answered 404
      "not-found". */
  lemma SetupFailures(url: string, server: Server)
    requires Parse(url, server.codec).Ok?
    requires AuditCheck(server.auditRequest, Parse(url, server.codec).value).Next?
    ensures server.models.None? ==>
              GetFlow(url, server) == Fail(OperationError("error", "exception", Some("The server is improprly configured"), 500))
    ensures var q := Parse(url, server.codec).value;
            server.models.Some? && q.resource.Some? && server.models.value(q.resource.value).None? ==>
              GetFlow(url, server) == Fail(OperationError("error", "not-found", Some("Resource \"" + q.resource.value + "\" does not exist."), 404))
  {
  }

  /** GET audits the request before the mappings are imported: when the
      audit refuses, the answer is 403 "security" whatever the mappings. */
  lemma GetAuditsBeforeImport(url: string, server: Server, models: Option<string -> Option<ModelOps>>)
    requires Parse(url, server.codec).Ok?
    requires server.auditRequest.Some? && server.auditRequest.value(Parse(url, server.codec).value).outcome != AuditSuccess
    ensures var hookEvent := server.auditRequest.value(Parse(url, server.codec).value);
            GetFlow(url, server) == GetFlow(url, server.(models := models)) &&
            GetFlow(url, server) == Fail(OperationError("error", "security", hookEvent.outcomeDesc, 403))
  {
  }

  /** A successful GET answers 200 with a body that is itself the fetched
      result paired with 200. */
  lemma GetAnswersNestedPair(url: string, server: Server)
    requires GetFlow(url, server).Next?
    ensures exists v :: Respond(GetFlow(url, server), 200) == Ok((Pair(Json(v), 200), 200))
  {
    var v := GetFlow(url, server).value.inner.value;
    assert Respond(GetFlow(url, server), 200) == Ok((Pair(Json(v), 200), 200));
  }

  /** POST never consults the request audit hook. */
  lemma PostSkipsRequestAudit(url: string, body: Value, server: Server, hook: Option<FhirRequestQuery -> AuditEvent>)
    ensures PostFlow(url, body, server) == PostFlow(url, body, server.(auditRequest := hook))
  {
  }

  /** PUT looks the row up before it reads the body: a missing row is
      answered 404 whatever the body. */
  lemma PutChecksRowBeforeBody(url: string, body: Value, other: Value, server: Server)
    requires Parse(url, server.codec).Ok? && server.models.Some?
    requires var q := Parse(url, server.codec).value;
             q.resource.Some? && server.models.value(q.resource.value).Some? &&
             server.models.value(q.resource.value).value.fromPk(q.resourceId).Err? &&
             server.models.value(q.resource.value).value.fromPk(q.resourceId).error.DoesNotExist?
    ensures PutFlow(url, body, server) == PutFlow(url, other, server)
    ensures PutFlow(url, body, server).Fail? && PutFlow(url, body, server).op.statusCode == 404
  {
  }

  /** The mappings with every class's `audit_delete` hook replaced. */
  function HookedModels(models: Option<string -> Option<ModelOps>>, hook: Option<(Item, Option<FhirRequestQuery>) -> AuditEvent>): Option<string -> Option<ModelOps>>
  {
    if models.None? then None
    else
      var table := models.value;
      Some(n => if table(n).Some? then Some(table(n).value.(auditDelete := hook)) else None)
  }

  /** The server with every class's `audit_delete` hook replaced. */
  function WithAuditDelete(server: Server, hook: Option<(Item, Option<FhirRequestQuery>) -> AuditEvent>): Server
  {
    server.(models := HookedModels(server.models, hook))
  }

  /** A routed query with its class's `audit_delete` hook replaced. */
  function Hooked(r: Flow<(FhirRequestQuery, ModelOps)>, hook: Option<(Item, Option<FhirRequestQuery>) -> AuditEvent>): Flow<(FhirRequestQuery, ModelOps)>
  {
    if r.Next? then Next((r.value.0, r.value.1.(auditDelete := hook))) else r
  }

  /** DELETE deletes through `_delete_item` directly, so no `audit_delete`
      hook is ever consulted: replacing the hooks changes nothing. */
  lemma DeleteIgnoresAuditDelete(url: string, server: Server, hook: Option<(Item, Option<FhirRequestQuery>) -> AuditEvent>)
    ensures DeleteFlow(url, server) == DeleteFlow(url, WithAuditDelete(server, hook))
  {
    RoutedWithAuditDelete(url, server, hook);
    if Routed(url, server).Next? {
      var (q, ops) := Routed(url, server).value;
      assert DeleteRow(ops.(auditDelete := hook), q) == DeleteRow(ops, q);
    }
  }

  /** Routing under the replaced hooks reaches the same class, hooks aside. */
  lemma RoutedWithAuditDelete(url: string, server: Server, hook: Option<(Item, Option<FhirRequestQuery>) -> AuditEvent>)
    ensures Routed(url, WithAuditDelete(server, hook)) == Hooked(Routed(url, server), hook)
  {
    var server' := WithAuditDelete(server, hook);
    if ParseStep(url, server.codec).Next? {
      var q := ParseStep(url, server.codec).value;
      if AuditCheck(server.auditRequest, q).Next? {
        RouteWithAuditDelete(server.models, q, hook);
        assert Routed(url, server) == Route(server.models, q);
        assert Routed(url, server') == Route(server'.models, q);
      }
    }
  }

  /** Importing and routing under the replaced hooks: the same outcome,
      with the hook replaced on the class found. */
  lemma RouteWithAuditDelete(models: Option<string -> Option<ModelOps>>, q: FhirRequestQuery, hook: Option<(Item, Option<FhirRequestQuery>) -> AuditEvent>)
    ensures Route(HookedModels(models, hook), q) == Hooked(Route(models, q), hook)
  {
    if models.Some? && q.resource.Some? {
      var n := q.resource.value;
      var ops := models.value(n);
      var ops' := HookedModels(models, hook).value(n);
      assert ops.Some? ==> ops' == Some(ops.value.(auditDelete := hook));
      assert ops.None? ==> ops'.None?;
    }
  }

  /** Every caught OperationError is answered with its OperationOutcome
      and status code, and marks the audit event as failed. */
  lemma CaughtErrorsAnswered(flow: Flow<Reply>, status: int, ev: AuditEvent)
    requires flow.Fail?
    ensures Respond(flow, status) == Ok((OutcomeJson(ToFhir(flow.op)), flow.op.statusCode))
    ensures Closed(flow, ev).outcome == AuditFailure
  {
  }
}
