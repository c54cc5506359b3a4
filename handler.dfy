/** The request handler of the dynamic-DNS endpoint (lambda/src/handler.ts):
    configuration check, validation of the query, authentication against the
    stored digest, and the single Route53 UPSERT with its response.

    The handler is a pure function here. Its two awaited SDK calls are answered
    by the oracle functions in `Services`, SHA-256 by the oracle `sha256`, and
    every call made is recorded, in order, in the returned trace. */
module Handler {
  import opened Wrappers
  import opened Hex

  // ---------------------------------------------------------------- inputs

  /** The three environment values the handler reads; `None` is unset. */
  datatype Env = Env(
    ssmPasswordParameterName: Option<string>,
    hostedZoneId: Option<string>,
    domainName: Option<string>)

  /** The query-string fields the handler reads; `None` is absent. `ttl` is the
      number the query's text converts to. */
  datatype QueryParameters = QueryParameters(
    subdomain: Option<string>,
    password: Option<string>,
    newVal: Option<string>,
    recordType: Option<string>,
    ttl: Option<int>,
    okRespBody: Option<string>)

  /** The invocation event; a request without a query string has `None`. */
  datatype Event = Event(queryStringParameters: Option<QueryParameters>)

  /** A raw SHA-256 digest. */
  type Digest = d: seq<byte> | |d| == 32 witness seq(32, i => 0)

  /** A thrown value: an `Error` with its message, or anything else. */
  datatype Thrown = ErrorObject(message: string) | OtherValue

  /** What `ssm.getParameter` settles to: `Parameter?.Value`, or a throw. */
  datatype ParameterReply = ParameterResolved(value: Option<string>) | ParameterRejected(thrown: Thrown)

  /** What `route53.changeResourceRecordSets` settles to; its value is unused. */
  datatype ChangeReply = ChangeResolved | ChangeRejected(thrown: Thrown)

  /** The two SDK clients, as functions from request to reply. */
  datatype Services = Services(
    getParameter: string -> ParameterReply,
    changeResourceRecordSets: (string, seq<Change>) -> ChangeReply)

  // ---------------------------------------------------------------- records

  datatype ResourceRecord = ResourceRecord(value: string)

  /** A Route53 `ResourceRecordSet` as the handler builds it. */
  datatype ResourceRecordSet = ResourceRecordSet(
    name: string,
    rrType: string,
    ttl: int,
    resourceRecords: seq<ResourceRecord>)

  datatype ChangeAction = CREATE | DELETE | UPSERT

  datatype Change = Change(action: ChangeAction, resourceRecordSet: ResourceRecordSet)

  /** An external call the handler makes. */
  datatype Call =
    | GetParameter(name: string)
    | ChangeResourceRecordSets(hostedZoneId: string, changes: seq<Change>)

  // ---------------------------------------------------------------- outputs

  /** A JSON body. `Upserted` is `{message: "DNS record for <fullDomain>
      upserted: <the record as JSON>"}`, kept as its parts. */
  datatype JsonMessage =
    | Message(message: string)
    | Upserted(fullDomain: string, record: ResourceRecordSet)
    | ErrorReport(message: string, error: string)

  datatype Body = Literal(text: string) | Json(json: JsonMessage)

  /** An HTTP response; `contentType` is the only header the handler sets. */
  datatype Response = Response(statusCode: int, contentType: Option<string>, body: Body)

  /** How the invocation ends: a response, or a rejection with an error message. */
  datatype Completion = Returned(response: Response) | Threw(error: string)

  /** The completion and, in order, the external calls that were made. */
  datatype Outcome = Outcome(completion: Completion, trace: seq<Call>)

  // ---------------------------------------------------------------- constants

  const SsmParameterNotSet := "SSM_PASSWORD_PARAMETER_NAME environment variable is not set."
  const HostedZoneNotSet := "HOSTED_ZONE_ID environment variable is not set."
  const MissingParameters := "Missing required parameters: subdomain, password, and newVal are required."
  const StoreReadFailed := "Failed to retrieve the password from SSM Parameter Store."
  const InvalidPassword := "Invalid password."
  const InternalServerError := "Internal server error"
  const UnknownError := "Unknown error"
  const DefaultRecordType := "A"
  const DefaultTtl := 300
  const TextPlain := "text/plain"
  const ApplicationJson := "application/json"

  // ---------------------------------------------------------------- stages

  /** JavaScript truthiness of a possibly absent string. */
  predicate Truthy(s: Option<string>)
    ensures s.None? ==> !Truthy(s)
    ensures s == Some("") ==> !Truthy(s)
    ensures s.Some? && |s.value| > 0 ==> Truthy(s)
  {
    s.Some? && s.value != ""
  }

  /** Template-literal interpolation: an absent value prints as "undefined". */
  function Interpolate(s: Option<string>): (r: string)
    ensures s.Some? ==> r == s.value
    ensures s.None? ==> r == "undefined"
  {
    match s
    case Some(v) => v
    case None => "undefined"
  }

  /** The two names the handler needs before it touches the request. */
  datatype Config = Config(ssmParameterName: string, hostedZoneId: string)

  /** Checks the parameter name, then the zone; DOMAIN_NAME is not checked. */
  function ResolveConfig(env: Env): (r: Result<Config>)
    ensures r.Ok? <==> Truthy(env.ssmPasswordParameterName) && Truthy(env.hostedZoneId)
    ensures r.Ok? ==> (r.value.ssmParameterName == env.ssmPasswordParameterName.value
                       && r.value.hostedZoneId == env.hostedZoneId.value)
    ensures !Truthy(env.ssmPasswordParameterName) ==> r == Err(SsmParameterNotSet)
    ensures Truthy(env.ssmPasswordParameterName) && !Truthy(env.hostedZoneId) ==> r == Err(HostedZoneNotSet)
  {
    if !Truthy(env.ssmPasswordParameterName) then Err(SsmParameterNotSet)
    else if !Truthy(env.hostedZoneId) then Err(HostedZoneNotSet)
    else Ok(Config(env.ssmPasswordParameterName.value, env.hostedZoneId.value))
  }

  /** `event.queryStringParameters?.f` reads every field as absent when there
      is no query string. */
  function Query(event: Event): (r: QueryParameters)
    ensures event.queryStringParameters.Some? ==> r == event.queryStringParameters.value
    ensures event.queryStringParameters.None? ==>
              r.subdomain.None? && r.password.None? && r.newVal.None?
              && r.recordType.None? && r.ttl.None? && r.okRespBody.None?
  {
    event.queryStringParameters.OrElse(QueryParameters(None, None, None, None, None, None))
  }

  /** The three required fields, each present and non-empty. */
  datatype Required = Required(subdomain: string, password: string, newVal: string)

  function Validate(q: QueryParameters): (r: Option<Required>)
    ensures r.Some? <==> Truthy(q.subdomain) && Truthy(q.password) && Truthy(q.newVal)
    ensures r.Some? ==> r.value == Required(q.subdomain.value, q.password.value, q.newVal.value)
  {
    if Truthy(q.subdomain) && Truthy(q.password) && Truthy(q.newVal)
    then Some(Required(q.subdomain.value, q.password.value, q.newVal.value))
    else None
  }

  /** The lowercase hexadecimal SHA-256 of the password equals the stored value;
      only a stored value of 64 lowercase hexadecimal characters can match. */
  predicate Authenticated(sha256: string -> Digest, password: string, stored: string)
    ensures Authenticated(sha256, password, stored) ==> |stored| == 64 && IsHexString(stored)
    ensures Authenticated(sha256, password, stored) ==> HexDecode(stored) == sha256(password)
  {
    DecodeEncode(sha256(password));
    HexEncode(sha256(password)) == stored
  }

  /** `subdomain.DOMAIN_NAME`. */
  function FullDomain(subdomain: string, domainName: Option<string>): (r: string)
    ensures |r| == |subdomain| + 1 + |Interpolate(domainName)|
    ensures r[..|subdomain|] == subdomain && r[|subdomain|] == '.'
    ensures r[|subdomain| + 1..] == Interpolate(domainName)
  {
    subdomain + "." + Interpolate(domainName)
  }

  /** The record to upsert: type and TTL default only when absent. */
  function BuildRecord(fullDomain: string, newVal: string, q: QueryParameters): (rec: ResourceRecordSet)
    ensures rec.name == fullDomain
    ensures q.recordType.Some? ==> rec.rrType == q.recordType.value
    ensures q.recordType.None? ==> rec.rrType == DefaultRecordType
    ensures q.ttl.Some? ==> rec.ttl == q.ttl.value
    ensures q.ttl.None? ==> rec.ttl == DefaultTtl
    ensures rec.resourceRecords == [ResourceRecord(newVal)]
  {
    ResourceRecordSet(
      fullDomain,
      q.recordType.OrElse(DefaultRecordType),
      q.ttl.OrElse(DefaultTtl),
      [ResourceRecord(newVal)])
  }

  /** The one change batch: a single UPSERT of `rec`. */
  function UpsertBatch(rec: ResourceRecordSet): (r: seq<Change>)
    ensures |r| == 1 && r[0].action == UPSERT && r[0].resourceRecordSet == rec
  {
    [Change(UPSERT, rec)]
  }

  /** The text of a caught value. */
  function ErrorText(t: Thrown): (r: string)
    ensures t.ErrorObject? ==> r == t.message
    ensures t.OtherValue? ==> r == UnknownError
  {
    match t
    case ErrorObject(m) => m
    case OtherValue => UnknownError
  }

  /** The 500 response of the catch block. */
  function InternalError(t: Thrown): (r: Response)
    ensures r.statusCode == 500 && r.contentType == None
    ensures r.body.Json? && r.body.json.ErrorReport? && r.body.json.message == InternalServerError
    ensures t.ErrorObject? ==> r.body.json.error == t.message
    ensures t.OtherValue? ==> r.body.json.error == UnknownError
  {
    Response(500, None, Json(ErrorReport(InternalServerError, ErrorText(t))))
  }

  /** The 400 response of the validation gate. */
  function BadRequest(): (r: Response)
    ensures r.statusCode == 400 && r.contentType == None
    ensures r.body == Json(Message(MissingParameters))
  {
    Response(400, None, Json(Message(MissingParameters)))
  }

  /** The 403 response of the hash gate. */
  function Forbidden(): (r: Response)
    ensures r.statusCode == 403 && r.contentType == None
    ensures r.body == Json(Message(InvalidPassword))
  {
    Response(403, None, Json(Message(InvalidPassword)))
  }

  /** The 200 response: the caller's literal body if present, else the JSON
      message; plain text exactly when that literal is non-empty. */
  function SuccessResponse(okRespBody: Option<string>, fullDomain: string, rec: ResourceRecordSet): (r: Response)
    ensures r.statusCode == 200 && r.contentType.Some?
    ensures okRespBody.Some? ==> r.body == Literal(okRespBody.value)
    ensures okRespBody.None? ==> r.body == Json(Upserted(fullDomain, rec))
    ensures r.contentType.value == TextPlain <==> Truthy(okRespBody)
    ensures r.contentType == Some(TextPlain) || r.contentType == Some(ApplicationJson)
  {
    var body := match okRespBody
      case Some(text) => Literal(text)
      case None => Json(Upserted(fullDomain, rec));
    Response(200, Some(if Truthy(okRespBody) then TextPlain else ApplicationJson), body)
  }

  // ---------------------------------------------------------------- handler

  /** One invocation of `main`. */
  function Main(env: Env, event: Event, sha256: string -> Digest, services: Services): (o: Outcome)
    // The configuration gate: a throw, before any call.
    ensures o.completion.Threw? <==> ResolveConfig(env).Err?
    ensures o.completion.Threw? ==> o.trace == [] && o.completion.error == ResolveConfig(env).message
    // At most the store read, then at most the upsert, in that order.
    ensures |o.trace| <= 2
    ensures |o.trace| >= 1 ==> o.trace[0] == GetParameter(env.ssmPasswordParameterName.value)
    ensures |o.trace| == 2 ==> (o.trace[1].ChangeResourceRecordSets?
                                && o.trace[1].hostedZoneId == env.hostedZoneId.value
                                && |o.trace[1].changes| == 1
                                && o.trace[1].changes[0].action == UPSERT)
    // Each status says how far the request got.
    ensures o.completion.Returned? ==> o.completion.response.statusCode in {200, 400, 403, 500}
    ensures o.completion.Returned? && o.completion.response.statusCode == 400 <==> o.completion.Returned? && o.trace == []
    ensures o.completion.Returned? && o.completion.response.statusCode == 403 ==> |o.trace| == 1
    ensures o.completion.Returned? && o.completion.response.statusCode == 200 ==>
              |o.trace| == 2 && services.changeResourceRecordSets(o.trace[1].hostedZoneId, o.trace[1].changes).ChangeResolved?
  {
    match ResolveConfig(env)
    case Err(message) => Outcome(Threw(message), [])
    case Ok(config) =>
      var q := Query(event);
      match Validate(q)
      case None => Outcome(Returned(BadRequest()), [])
      case Some(req) =>
        var read := [GetParameter(config.ssmParameterName)];
        match services.getParameter(config.ssmParameterName)
        case ParameterRejected(thrown) => Outcome(Returned(InternalError(thrown)), read)
        case ParameterResolved(stored) =>
          if !Truthy(stored) then
            Outcome(Returned(InternalError(ErrorObject(StoreReadFailed))), read)
          else if !Authenticated(sha256, req.password, stored.value) then
            Outcome(Returned(Forbidden()), read)
          else
            var fullDomain := FullDomain(req.subdomain, env.domainName);
            var rec := BuildRecord(fullDomain, req.newVal, q);
            var calls := read + [ChangeResourceRecordSets(config.hostedZoneId, UpsertBatch(rec))];
            match services.changeResourceRecordSets(config.hostedZoneId, UpsertBatch(rec))
            case ChangeRejected(thrown) => Outcome(Returned(InternalError(thrown)), calls)
            case ChangeResolved => Outcome(Returned(SuccessResponse(q.okRespBody, fullDomain, rec)), calls)
  }
}
